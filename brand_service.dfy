/**
  Brand settings (`brandService`): a settings object kept in browser storage
  under one key, read back over a fixed set of defaults, and pushed into two
  CSS custom properties of the document for theming.
 */
module BrandService {
  import opened Wrappers

  /** A settings object: property name to string value. */
  type Settings = map<string, string>

  const StorageKey := "serviceflow_brand_settings"

  /** `defaultBrandSettings`. */
  const Defaults: Settings := map[
    "logo" := "",
    "primaryColor" := "#2563eb",
    "accentColor" := "#f59e0b",
    "companyName" := "ServiceFlow Pro"]

  /**
    What reading the storage key yields: nothing usable (`null` or the empty
    string, both falsy), an error from the storage itself, text that is not
    JSON, or a stored settings object.
   */
  datatype StoredItem = Absent | Unreadable | Malformed | Saved(obj: Settings)

  datatype StorageError = QuotaExceeded

  /** `{ ...base, ...top }`: `top`'s properties win. */
  function Overlay(base: Settings, top: Settings): (r: Settings)
    ensures r.Keys == base.Keys + top.Keys
    ensures forall k :: k in top ==> r[k] == top[k]
    ensures forall k :: k in base && k !in top ==> r[k] == base[k]
  {
    base + top
  }

  /** `getBrandSettings` on a storage item: the stored object over the defaults, else the defaults. */
  function Effective(item: StoredItem): (r: Settings)
    ensures Defaults.Keys <= r.Keys
    ensures item.Saved? ==> forall k :: k in item.obj ==> k in r && r[k] == item.obj[k]
    ensures forall k :: k in r && (item.Saved? ==> k !in item.obj) ==> k in Defaults && r[k] == Defaults[k]
  {
    match item
    case Saved(obj) => Overlay(Defaults, obj)
    case _ => Defaults
  }

  /** The two custom properties the theme sets, taken from a settings object that has both colours. */
  function Themed(css: map<string, string>, s: Settings): (r: map<string, string>)
    requires "primaryColor" in s && "accentColor" in s
    ensures "--primary-color" in r && r["--primary-color"] == s["primaryColor"]
    ensures "--accent-color" in r && r["--accent-color"] == s["accentColor"]
    ensures forall k :: k in css && k != "--primary-color" && k != "--accent-color" ==> k in r && r[k] == css[k]
  {
    css["--primary-color" := s["primaryColor"]]["--accent-color" := s["accentColor"]]
  }

  /** Overlaying the defaults is idempotent: saving settings that already carry them changes nothing. */
  lemma OverlayIdempotent(s: Settings)
    ensures Overlay(Defaults, Overlay(Defaults, s)) == Overlay(Defaults, s)
  {
  }

  /**
    Reading after a save returns exactly what the save returned. A save
    overlays the defaults and not the earlier settings, so a property the new
    settings leave out reads back as its default, whatever was stored before.
   */
  lemma SaveThenRead(s: Settings)
    ensures Effective(Saved(Overlay(Defaults, s))) == Overlay(Defaults, s)
    ensures forall k :: k in Defaults && k !in s ==> Effective(Saved(Overlay(Defaults, s)))[k] == Defaults[k]
  {
    OverlayIdempotent(s);
  }

  /** The browser storage entry and the document's CSS custom properties. */
  class BrandStore {
    var item: StoredItem
    var css: map<string, string>
    /** Whether the storage accepts a write (`setItem` throws when it is full). */
    var writable: bool

    constructor (item0: StoredItem, css0: map<string, string>, writable0: bool)
      ensures item == item0 && css == css0 && writable == writable0
    {
      item, css, writable := item0, css0, writable0;
    }

    /** `getBrandSettings`: never fails; any problem reading yields the defaults. */
    method GetBrandSettings() returns (r: Settings)
      ensures r == Effective(item)
      ensures Defaults.Keys <= r.Keys
      ensures !item.Saved? ==> r == Defaults
    {
      match item
      case Saved(obj) => r := Overlay(Defaults, obj);
      case _ => r := Defaults;
    }

    /**
      `updateBrandSettings`: stores `settings` over the defaults, applies the two
      colours, and returns the stored object; a failed write is rethrown before
      anything changes.
     */
    method UpdateBrandSettings(settings: Settings) returns (r: Result<Settings, StorageError>)
      modifies this
      ensures writable == old(writable)
      ensures !writable ==> r == Failure(QuotaExceeded) && item == old(item) && css == old(css)
      ensures writable ==> r == Success(Overlay(Defaults, settings))
      ensures writable ==> item == Saved(r.value) && css == Themed(old(css), r.value)
      ensures r.Success? ==> Effective(item) == r.value
    {
      var merged := Overlay(Defaults, settings);
      if !writable {
        r := Failure(QuotaExceeded);
        return;
      }
      item := Saved(merged);
      css := Themed(css, merged);
      OverlayIdempotent(settings);
      r := Success(merged);
    }

    /** `initializeBrandSettings`: reads the settings and applies their two colours. */
    method InitializeBrandSettings() returns (r: Settings)
      modifies this
      ensures r == Effective(item) && item == old(item) && writable == old(writable)
      ensures css == Themed(old(css), r)
    {
      r := GetBrandSettings();
      css := Themed(css, r);
    }
  }
}
