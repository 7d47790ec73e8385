/**
  What the four in-memory services share: looking a record up by `Id`
  (`find` / `findIndex`), choosing the next `Id` (`Math.max(...ids) + 1`),
  removing a position (`splice(index, 1)`), and the facts that keep `Id`s unique.
  Records are reached through a `key` function that reads their `Id`.
 */
module Tables {
  import opened Wrappers

  /** `rows.map(r => r.Id)`. */
  function IdsOf<R>(rows: seq<R>, key: R -> int): (ids: seq<int>)
    ensures |ids| == |rows|
    ensures forall i :: 0 <= i < |rows| ==> ids[i] == key(rows[i])
  {
    seq(|rows|, i requires 0 <= i < |rows| => key(rows[i]))
  }

  predicate UniqueIds(ids: seq<int>) {
    forall i, j :: 0 <= i < j < |ids| ==> ids[i] != ids[j]
  }

  /** `findIndex(r => r.Id === id)`, with `None` for the -1 the source tests against. */
  function FirstIndex(ids: seq<int>, id: int): (k: Option<nat>)
    ensures k.None? <==> id !in ids
    ensures k.Some? ==> k.value < |ids| && ids[k.value] == id && id !in ids[..k.value]
  {
    if ids == [] then None
    else if ids[0] == id then Some(0)
    else
      match FirstIndex(ids[1..], id)
      case None => None
      case Some(j) =>
        assert ids[..j + 1] == [ids[0]] + ids[1..][..j];
        Some(j + 1)
  }

  /**
    `rows.find(r => r.Id === id)`: present exactly when the `Id` is, and then the
    record at the position `findIndex` reports.
   */
  function Lookup<R>(rows: seq<R>, key: R -> int, id: int): (r: Option<R>)
    ensures r.None? <==> id !in IdsOf(rows, key)
    ensures r.Some? ==> key(r.value) == id
    ensures r.Some? ==> r.value == rows[FirstIndex(IdsOf(rows, key), id).value]
  {
    if rows == [] then None
    else
      assert IdsOf(rows, key) == [key(rows[0])] + IdsOf(rows[1..], key);
      if key(rows[0]) == id then Some(rows[0]) else Lookup(rows[1..], key, id)
  }

  /** With unique `Id`s, looking up a record's own `Id` finds that record. */
  lemma LookupUnique<R>(rows: seq<R>, key: R -> int, k: nat)
    requires k < |rows| && UniqueIds(IdsOf(rows, key))
    ensures Lookup(rows, key, key(rows[k])) == Some(rows[k])
  {
    FirstIndexOfUnique(IdsOf(rows, key), k);
  }

  /** With unique `Id`s, the first position holding `ids[k]` is `k` itself. */
  lemma FirstIndexOfUnique(ids: seq<int>, k: nat)
    requires k < |ids| && UniqueIds(ids)
    ensures FirstIndex(ids, ids[k]) == Some(k)
  {
    var f := FirstIndex(ids, ids[k]);
    assert ids[f.value] == ids[k];
  }

  /** The largest `Id` of a non-empty table. */
  function Max(ids: seq<int>): (m: int)
    requires ids != []
    ensures m in ids
    ensures forall x :: x in ids ==> x <= m
  {
    if |ids| == 1 then ids[0]
    else
      var rest := Max(ids[1..]);
      assert forall x :: x in ids ==> x == ids[0] || x in ids[1..];
      if ids[0] >= rest then ids[0] else rest
  }

  /**
    The `Id` a create assigns: one more than the largest, and 1 for an empty
    table (the corrected reading of `Math.max(...ids) + 1`, see `NextIdAsWritten`).
   */
  function NextId(ids: seq<int>): (n: int)
    ensures forall x :: x in ids ==> x < n
    ensures ids != [] ==> n - 1 in ids
    ensures ids == [] ==> n == 1
  {
    if ids == [] then 1 else Max(ids) + 1
  }

  /** A JavaScript number as far as `Math.max` and `+ 1` on integer `Id`s go. */
  datatype JsNumber = NegInfinity | Finite(value: int)

  /** `Math.max(...xs)`: `-Infinity` when called with no arguments. */
  function JsMax(xs: seq<JsNumber>): JsNumber {
    if xs == [] then NegInfinity
    else
      var rest := JsMax(xs[1..]);
      match (xs[0], rest)
      case (NegInfinity, _) => rest
      case (_, NegInfinity) => xs[0]
      case (Finite(a), Finite(b)) => if a >= b then xs[0] else rest
  }

  /** `n + 1`, where `-Infinity + 1` is `-Infinity`. */
  function JsPlusOne(n: JsNumber): JsNumber {
    match n
    case NegInfinity => NegInfinity
    case Finite(v) => Finite(v + 1)
  }

  /** `Math.max(...rows.map(r => r.Id)) + 1`, as the services write it. */
  function NextIdAsWritten(ids: seq<JsNumber>): JsNumber {
    JsPlusOne(JsMax(ids))
  }

  function AsJs(ids: seq<int>): (r: seq<JsNumber>)
    ensures |r| == |ids|
    ensures forall i :: 0 <= i < |ids| ==> r[i] == Finite(ids[i])
  {
    seq(|ids|, i requires 0 <= i < |ids| => Finite(ids[i]))
  }

  /**
    On a non-empty table of integer `Id`s the source's expression and `NextId`
    agree, so the correction changes only the empty-table case.
   */
  lemma {:induction false} AsWrittenAgreesOnNonEmpty(ids: seq<int>)
    requires ids != []
    ensures NextIdAsWritten(AsJs(ids)) == Finite(NextId(ids))
  {
    JsMaxOfFinite(ids);
  }

  lemma {:induction false} JsMaxOfFinite(ids: seq<int>)
    requires ids != []
    ensures JsMax(AsJs(ids)) == Finite(Max(ids))
  {
    var xs := AsJs(ids);
    assert xs[1..] == AsJs(ids[1..]);
    if |ids| > 1 {
      JsMaxOfFinite(ids[1..]);
    } else {
      assert xs[1..] == [];
    }
  }

  /**
    The discrepancy: on an empty table the source assigns `-Infinity`, and the
    next create on that one-row table assigns `-Infinity` again, so two records
    share an `Id`. `NextId` gives 1 and then 2.
   */
  lemma EmptyTableIdsCollideAsWritten()
    ensures NextIdAsWritten([]) == NegInfinity
    ensures NextIdAsWritten([NextIdAsWritten([])]) == NextIdAsWritten([])
    ensures NextId([]) == 1 && NextId([NextId([])]) == 2
  {
    assert [NegInfinity][1..] == [];
    assert [1][1..] == [];
  }

  /** `splice(i, 1)`. */
  function RemoveAt<T>(s: seq<T>, i: nat): seq<T>
    requires i < |s|
  {
    s[..i] + s[i + 1..]
  }

  /** Appending a record whose `Id` is `NextId` keeps `Id`s unique. */
  lemma AppendKeepsUnique<R>(rows: seq<R>, key: R -> int, r: R)
    requires UniqueIds(IdsOf(rows, key))
    requires key(r) == NextId(IdsOf(rows, key))
    ensures UniqueIds(IdsOf(rows + [r], key))
    ensures IdsOf(rows + [r], key) == IdsOf(rows, key) + [key(r)]
  {
    var ids := IdsOf(rows, key);
    assert IdsOf(rows + [r], key) == ids + [key(r)];
    forall i | 0 <= i < |ids|
      ensures ids[i] != key(r)
    {
      assert ids[i] in ids;
    }
  }

  /** Removing position `i` keeps `Id`s unique, and that `Id` is gone afterwards. */
  lemma RemoveKeepsUnique<R>(rows: seq<R>, key: R -> int, i: nat)
    requires i < |rows| && UniqueIds(IdsOf(rows, key))
    ensures IdsOf(RemoveAt(rows, i), key) == RemoveAt(IdsOf(rows, key), i)
    ensures UniqueIds(IdsOf(RemoveAt(rows, i), key))
    ensures key(rows[i]) !in IdsOf(RemoveAt(rows, i), key)
  {
    var ids := IdsOf(rows, key);
    var after := IdsOf(RemoveAt(rows, i), key);
    assert after == RemoveAt(ids, i);
    forall a, b | 0 <= a < b < |after|
      ensures after[a] != after[b]
    {
      var a' := if a < i then a else a + 1;
      var b' := if b < i then b else b + 1;
      assert after[a] == ids[a'] && after[b] == ids[b'];
    }
    forall j | 0 <= j < |after|
      ensures after[j] != key(rows[i])
    {
      var j' := if j < i then j else j + 1;
      assert after[j] == ids[j'] && j' != i;
    }
  }

  /** Replacing a record by one with the same `Id` leaves the `Id` list as it was. */
  lemma ReplaceKeepsIds<R>(rows: seq<R>, key: R -> int, i: nat, r: R)
    requires i < |rows| && key(r) == key(rows[i])
    ensures IdsOf(rows[i := r], key) == IdsOf(rows, key)
  {
  }
}
