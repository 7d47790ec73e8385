/**
  The company table (`companyService`). A created company gets an embed
  snippet whose URL ends in a slug of the company name: lower-cased, with every
  run of whitespace turned into one '-'.
 */
module CompanyService {
  import opened Wrappers
  import opened Records
  import Tables
  import Text

  function Key(c: Company): int { c.Id }

  function Ids(rows: seq<Company>): seq<int> { Tables.IdsOf(rows, Key) }

  /** `name.toLowerCase().replace(/\s+/g, '-')`. */
  function Slug(name: string): (slug: string)
    ensures Text.NoSpace(slug)
    ensures |slug| <= |name|
    ensures forall i :: 0 <= i < |slug| ==> slug[i] == '-' || slug[i] in Text.ToLower(name)
  {
    Text.CollapseSpaces(Text.ToLower(name))
  }

  const EmbedPrefix := "<script src='https://serviceflow.com/embed/"
  const EmbedSuffix := "'></script>"

  /** The script tag a new company is given. */
  function EmbedCode(name: string): string {
    EmbedPrefix + Slug(name) + EmbedSuffix
  }

  /** The slug between the fixed prefix and suffix of an embed snippet. */
  function SlugOf(embed: string): Option<string> {
    if |embed| >= |EmbedPrefix| + |EmbedSuffix|
       && embed[..|EmbedPrefix|] == EmbedPrefix
       && embed[|embed| - |EmbedSuffix|..] == EmbedSuffix
    then Some(embed[|EmbedPrefix|..|embed| - |EmbedSuffix|])
    else None
  }

  /** The snippet carries the slug of the name, and nothing else varies with the name. */
  lemma EmbedCodeCarriesSlug(name: string)
    ensures SlugOf(EmbedCode(name)) == Some(Slug(name))
  {
    var e := EmbedCode(name);
    assert e[..|EmbedPrefix|] == EmbedPrefix;
    assert e[|e| - |EmbedSuffix|..] == EmbedSuffix;
    assert e[|EmbedPrefix|..|e| - |EmbedSuffix|] == Slug(name);
  }

  /** A slug is its own slug: lower-case and whitespace-free already. */
  lemma SlugIdempotent(name: string)
    ensures Slug(Slug(name)) == Slug(name)
  {
    var s := Slug(name);
    var lower := Text.ToLower(name);
    forall i | 0 <= i < |s|
      ensures Text.LowerChar(s[i]) == s[i]
    {
      if s[i] != '-' {
        var j :| 0 <= j < |lower| && lower[j] == s[i];
        assert lower[j] == Text.LowerChar(name[j]);
      }
    }
    assert Text.ToLower(s) == s;
  }

  /** Companies with the same slug get the same snippet, whatever their case or spacing. */
  lemma SameSlugSameEmbed(a: string, b: string)
    requires Slug(a) == Slug(b)
    ensures EmbedCode(a) == EmbedCode(b)
  {
  }

  /** The fields an `updates` object may carry; an absent field keeps its value. */
  datatype CompanyPatch = CompanyPatch(Id: Option<int>, name: Option<string>, embedCode: Option<string>)

  const NoChanges := CompanyPatch(None, None, None)

  /** `{ ...c, ...u }`: renaming a company does not recompute its snippet. */
  function Merge(c: Company, u: CompanyPatch): Company {
    Company(u.Id.GetOr(c.Id), u.name.GetOr(c.name), u.embedCode.GetOr(c.embedCode))
  }

  /** An empty update changes nothing, applying an update twice is applying it once, and a rename keeps the snippet. */
  lemma MergeLaws(c: Company, u: CompanyPatch)
    ensures Merge(c, NoChanges) == c
    ensures Merge(Merge(c, u), u) == Merge(c, u)
    ensures u.Id.None? ==> Merge(c, u).Id == c.Id
    ensures u.embedCode.None? ==> Merge(c, u).embedCode == c.embedCode
  {
  }

  class CompanyTable {
    var rows: seq<Company>

    /** Company `Id`s are distinct. */
    predicate Valid()
      reads this
    {
      Tables.UniqueIds(Ids(rows))
    }

    /** `let companies = [...companyData]`. */
    constructor (fixture: seq<Company>)
      ensures rows == fixture
    {
      rows := fixture;
    }

    /** `getAll`: a copy of every company, in storage order. */
    method GetAll() returns (all: seq<Company>)
      ensures all == rows
    {
      all := rows;
    }

    /** `getById`: the first company with that `Id`, or the not-found error. */
    method GetById(id: int) returns (r: Result<Company, Error>)
      ensures r.Success? <==> id in Ids(rows)
      ensures r.Success? ==> r.value.Id == id && Tables.Lookup(rows, Key, id) == Some(r.value)
      ensures r.Failure? ==> r.error == NotFound("Company", id)
    {
      match Tables.Lookup(rows, Key, id)
      case None => r := Failure(NotFound("Company", id));
      case Some(c) => r := Success(c);
    }

    /** `create`: the caller's data with a fresh `Id` and the snippet for its name, appended. */
    method Create(data: Company) returns (c: Company)
      modifies this
      ensures c == data.(Id := Tables.NextId(Ids(old(rows))), embedCode := EmbedCode(data.name))
      ensures c.Id !in Ids(old(rows))
      ensures SlugOf(c.embedCode) == Some(Slug(c.name))
      ensures rows == old(rows) + [c]
      ensures old(Valid()) ==> Valid() && Tables.Lookup(rows, Key, c.Id) == Some(c)
    {
      c := data.(Id := Tables.NextId(Ids(rows)), embedCode := EmbedCode(data.name));
      EmbedCodeCarriesSlug(data.name);
      if Valid() {
        Tables.AppendKeepsUnique(rows, Key, c);
        Tables.LookupUnique(rows + [c], Key, |rows|);
      }
      rows := rows + [c];
    }

    /** `update`: merges the changes into the first company with that `Id`. */
    method Update(id: int, patch: CompanyPatch) returns (r: Result<Company, Error>)
      modifies this
      ensures match Tables.FirstIndex(Ids(old(rows)), id)
        case None => r == Failure(NotFound("Company", id)) && rows == old(rows)
        case Some(k) => rows == old(rows)[k := Merge(old(rows)[k], patch)] && r == Success(rows[k])
      ensures old(Valid()) && patch.Id.None? ==> Valid()
    {
      match Tables.FirstIndex(Ids(rows), id)
      case None =>
        r := Failure(NotFound("Company", id));
      case Some(k) =>
        var merged := Merge(rows[k], patch);
        if patch.Id.None? {
          Tables.ReplaceKeepsIds(rows, Key, k, merged);
        }
        rows := rows[k := merged];
        r := Success(merged);
    }

    /** `delete`: removes the first company with that `Id`; afterwards no company has it. */
    method Delete(id: int) returns (r: Result<bool, Error>)
      modifies this
      ensures match Tables.FirstIndex(Ids(old(rows)), id)
        case None => r == Failure(NotFound("Company", id)) && rows == old(rows)
        case Some(k) => rows == Tables.RemoveAt(old(rows), k) && r == Success(true)
      ensures old(Valid()) ==> Valid()
      ensures old(Valid()) && r.Success? ==> id !in Ids(rows)
    {
      match Tables.FirstIndex(Ids(rows), id)
      case None =>
        r := Failure(NotFound("Company", id));
      case Some(k) =>
        if Valid() {
          Tables.RemoveKeepsUnique(rows, Key, k);
        }
        rows := Tables.RemoveAt(rows, k);
        r := Success(true);
    }
  }
}
