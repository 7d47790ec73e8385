/**
  The page header: the navigation items for the current role, which one is
  highlighted, the role-switch button, the logo link, and the brand values it
  shows with their fallbacks while no settings have loaded.
 */
module Header {
  import opened Wrappers
  import Seqs
  import BrandService
  import opened AppRouting

  /** A navigation item; `title` holds the item's `label` (a reserved word in Dafny). */
  datatype NavItem = NavItem(title: string, path: string, icon: string)

  const CustomerNavItems: seq<NavItem> := [
    NavItem("Plans", "/plans", "Package"),
    NavItem("My Account", "/dashboard", "User"),
    NavItem("Appointments", "/appointments", "Calendar"),
    NavItem("Billing", "/billing", "CreditCard")]

  const AdminNavItems: seq<NavItem> := [
    NavItem("Dashboard", "/admin", "BarChart3"),
    NavItem("Customers", "/admin/customers", "Users"),
    NavItem("Plans", "/admin/plans", "Package"),
    NavItem("Reports", "/admin/reports", "FileText"),
    NavItem("Settings", "/admin/settings", "Settings")]

  /** A path that differs from "/admin" at one of its first six characters belongs to the customer role. */
  lemma NotAdminPath(path: string, i: nat)
    requires i < |"/admin"| && i < |path| && path[i] != "/admin"[i]
    ensures RoleOf(path) == Customer
  {
  }

  /** Each item's path belongs to its own role. */
  lemma ItemRoles()
    ensures forall i :: 0 <= i < |AdminNavItems| ==> RoleOf(AdminNavItems[i].path) == Admin
    ensures forall i :: 0 <= i < |CustomerNavItems| ==> RoleOf(CustomerNavItems[i].path) == Customer
  {
    NotAdminPath("/plans", 1);
    NotAdminPath("/dashboard", 1);
    NotAdminPath("/appointments", 2);
    NotAdminPath("/billing", 1);
  }

  /** `navItems`: five admin items for the admin role, the four customer items otherwise. */
  function NavItems(role: Role): (items: seq<NavItem>)
    ensures |items| == if role == Admin then 5 else 4
    ensures forall i :: 0 <= i < |items| ==> RoleOf(items[i].path) == role
    ensures forall i, j :: 0 <= i < j < |items| ==> items[i].path != items[j].path
  {
    ItemRoles();
    if role == Admin then AdminNavItems else CustomerNavItems
  }

  /** `isActive`: the item's path is exactly the current pathname. */
  predicate IsActive(pathname: string, item: NavItem) {
    pathname == item.path
  }

  function ActiveAt(pathname: string): NavItem -> bool {
    (item: NavItem) => IsActive(pathname, item)
  }

  /** The highlighted items. */
  function Highlighted(role: Role, pathname: string): seq<NavItem> {
    Seqs.Filter(NavItems(role), ActiveAt(pathname))
  }

  /**
    At most one item is highlighted: exactly the one whose path is the
    pathname, when there is one, and none on any other path (a sub-page such as
    `/admin/plans/3` highlights nothing).
   */
  lemma {:induction false} OneHighlighted(role: Role, pathname: string)
    ensures |Highlighted(role, pathname)| <= 1
    ensures (exists i :: 0 <= i < |NavItems(role)| && NavItems(role)[i].path == pathname)
      <==> |Highlighted(role, pathname)| == 1
  {
    var items := NavItems(role);
    if k :| 0 <= k < |items| && items[k].path == pathname {
      Seqs.FilterExactlyOne(items, ActiveAt(pathname), k);
    } else {
      Seqs.FilterNone(items, ActiveAt(pathname));
    }
  }

  /** `handleRoleSwitch`: to the plan list from admin, to the admin dashboard otherwise. */
  function RoleSwitchTarget(role: Role): (to: string)
    ensures RoleOf(to) != role
    ensures to == NavItems(RoleOf(to))[0].path
  {
    ItemRoles();
    NotAdminPath("/plans", 1);
    if role == Admin then "/plans" else "/admin"
  }

  /** The logo's link: the first navigation item of the role. */
  function LogoLink(role: Role): (to: string)
    ensures RoleOf(to) == role
    ensures to == NavItems(role)[0].path
  {
    ItemRoles();
    NotAdminPath("/plans", 1);
    if role == Admin then "/admin" else "/plans"
  }

  /** Switching twice brings the header back to its role's home page. */
  lemma SwitchTwice(role: Role)
    ensures RoleSwitchTarget(RoleOf(RoleSwitchTarget(role))) == LogoLink(role)
  {
  }

  /** `settings?.[key] || fallback`: the loaded value when it is a non-empty string. */
  function Brand(settings: Option<BrandService.Settings>, key: string, fallback: string): (v: string)
    ensures settings.Some? && key in settings.value && settings.value[key] != "" ==> v == settings.value[key]
    ensures !(settings.Some? && key in settings.value && settings.value[key] != "") ==> v == fallback
  {
    if settings.Some? && key in settings.value && settings.value[key] != "" then settings.value[key] else fallback
  }

  function CompanyName(settings: Option<BrandService.Settings>): string {
    Brand(settings, "companyName", "ServiceFlow Pro")
  }

  function PrimaryColor(settings: Option<BrandService.Settings>): string {
    Brand(settings, "primaryColor", "#2563eb")
  }

  /** `brandSettings?.logo` is truthy: an image is shown instead of the coloured tile. */
  predicate ShowsLogoImage(settings: Option<BrandService.Settings>) {
    settings.Some? && "logo" in settings.value && settings.value["logo"] != ""
  }

  /**
    The fallbacks are the stored defaults: before settings load, and after
    loading them from storage that holds nothing usable, the header shows the
    same name, the same colour and no logo image.
   */
  lemma {:induction false} FallbacksAreDefaults(item: BrandService.StoredItem)
    requires !item.Saved?
    ensures CompanyName(None) == BrandService.Defaults["companyName"] == CompanyName(Some(BrandService.Effective(item)))
    ensures PrimaryColor(None) == BrandService.Defaults["primaryColor"] == PrimaryColor(Some(BrandService.Effective(item)))
    ensures !ShowsLogoImage(None) && !ShowsLogoImage(Some(BrandService.Effective(item)))
  {
    var e := BrandService.Effective(item);
    assert e == BrandService.Defaults;
  }
}
