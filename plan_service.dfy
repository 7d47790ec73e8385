/**
  The plan table (`planService`). It differs from the other tables in two ways:
  `getAll` lists only active plans, and `delete` is soft (it clears `isActive`
  and keeps the plan, which `getById` still finds).
 */
module PlanService {
  import opened Wrappers
  import opened Records
  import Tables
  import Seqs

  function Key(p: Plan): int { p.Id }

  function Ids(rows: seq<Plan>): seq<int> { Tables.IdsOf(rows, Key) }

  predicate IsActive(p: Plan) { p.isActive }

  /** `plans.filter(plan => plan.isActive)`. */
  function Active(rows: seq<Plan>): seq<Plan> { Seqs.Filter(rows, IsActive) }

  /** The fields an `updates` object may carry; an absent field keeps its value. */
  datatype PlanPatch = PlanPatch(
    Id: Option<int>,
    name: Option<string>,
    price: Option<int>,
    interval: Option<string>,
    features: Option<seq<string>>,
    serviceFrequency: Option<string>,
    isActive: Option<bool>)

  const NoChanges := PlanPatch(None, None, None, None, None, None, None)

  /** `{ ...p, ...u }`. */
  function Merge(p: Plan, u: PlanPatch): Plan {
    Plan(
      u.Id.GetOr(p.Id),
      u.name.GetOr(p.name),
      u.price.GetOr(p.price),
      u.interval.GetOr(p.interval),
      u.features.GetOr(p.features),
      u.serviceFrequency.GetOr(p.serviceFrequency),
      u.isActive.GetOr(p.isActive))
  }

  /** An empty update changes nothing, and applying an update twice is applying it once. */
  lemma MergeLaws(p: Plan, u: PlanPatch)
    ensures Merge(p, NoChanges) == p
    ensures Merge(Merge(p, u), u) == Merge(p, u)
    ensures u.Id.None? ==> Merge(p, u).Id == p.Id
  {
  }

  /** The plan at position `k` with its `isActive` flag cleared. */
  function Deactivated(rows: seq<Plan>, k: nat): seq<Plan>
    requires k < |rows|
  {
    rows[k := rows[k].(isActive := false)]
  }

  /**
    After a soft delete the plan keeps its place and `Id` but drops out of the
    active list, every other active plan stays listed, and repeating the
    delete changes nothing.
   */
  lemma {:induction false} SoftDeleteHidesOnlyThatPlan(rows: seq<Plan>, k: nat)
    requires k < |rows| && Tables.UniqueIds(Ids(rows))
    ensures Ids(Deactivated(rows, k)) == Ids(rows)
    ensures forall p :: p in Active(Deactivated(rows, k)) ==> p.Id != rows[k].Id
    ensures forall j :: 0 <= j < |rows| && j != k && rows[j].isActive ==> rows[j] in Active(Deactivated(rows, k))
    ensures Deactivated(Deactivated(rows, k), k) == Deactivated(rows, k)
  {
    var after := Deactivated(rows, k);
    Tables.ReplaceKeepsIds(rows, Key, k, after[k]);
    forall p | p in Active(after)
      ensures p.Id != rows[k].Id
    {
      var j :| 0 <= j < |after| && after[j] == p;
      if j != k {
        assert Ids(rows)[j] == p.Id;
      }
    }
    forall j | 0 <= j < |rows| && j != k && rows[j].isActive
      ensures rows[j] in Active(after)
    {
      assert after[j] == rows[j];
    }
  }

  class PlanTable {
    var rows: seq<Plan>

    /** Plan `Id`s are distinct. */
    predicate Valid()
      reads this
    {
      Tables.UniqueIds(Ids(rows))
    }

    /** `let plans = [...planData]`. */
    constructor (fixture: seq<Plan>)
      ensures rows == fixture
    {
      rows := fixture;
    }

    /** `getAll`: the active plans only, in storage order. */
    method GetAll() returns (all: seq<Plan>)
      ensures forall p :: p in all <==> p in rows && p.isActive
      ensures Seqs.IsSubseq(all, rows)
      ensures all == Active(rows)
    {
      all := Active(rows);
      Seqs.FilterKeepsOrderAndCount(rows, IsActive);
    }

    /** `getById`: the first plan with that `Id`, active or not, or the not-found error. */
    method GetById(id: int) returns (r: Result<Plan, Error>)
      ensures r.Success? <==> id in Ids(rows)
      ensures r.Success? ==> r.value.Id == id && Tables.Lookup(rows, Key, id) == Some(r.value)
      ensures r.Failure? ==> r.error == NotFound("Plan", id)
    {
      match Tables.Lookup(rows, Key, id)
      case None => r := Failure(NotFound("Plan", id));
      case Some(p) => r := Success(p);
    }

    /** `create`: the caller's data with a fresh `Id`, marked active, appended. */
    method Create(data: Plan) returns (p: Plan)
      modifies this
      ensures p == data.(Id := Tables.NextId(Ids(old(rows))), isActive := true)
      ensures p.Id !in Ids(old(rows))
      ensures rows == old(rows) + [p]
      ensures Active(rows) == Active(old(rows)) + [p]
      ensures old(Valid()) ==> Valid() && Tables.Lookup(rows, Key, p.Id) == Some(p)
    {
      p := data.(Id := Tables.NextId(Ids(rows)), isActive := true);
      if Valid() {
        Tables.AppendKeepsUnique(rows, Key, p);
        Tables.LookupUnique(rows + [p], Key, |rows|);
      }
      Seqs.FilterAppend(rows, p, IsActive);
      rows := rows + [p];
    }

    /** `update`: merges the changes into the first plan with that `Id`. */
    method Update(id: int, patch: PlanPatch) returns (r: Result<Plan, Error>)
      modifies this
      ensures match Tables.FirstIndex(Ids(old(rows)), id)
        case None => r == Failure(NotFound("Plan", id)) && rows == old(rows)
        case Some(k) => rows == old(rows)[k := Merge(old(rows)[k], patch)] && r == Success(rows[k])
      ensures old(Valid()) && patch.Id.None? ==> Valid()
    {
      match Tables.FirstIndex(Ids(rows), id)
      case None =>
        r := Failure(NotFound("Plan", id));
      case Some(k) =>
        var merged := Merge(rows[k], patch);
        if patch.Id.None? {
          Tables.ReplaceKeepsIds(rows, Key, k, merged);
        }
        rows := rows[k := merged];
        r := Success(merged);
    }

    /** `delete`: clears `isActive` on the first plan with that `Id`; the plan stays stored. */
    method Delete(id: int) returns (r: Result<bool, Error>)
      modifies this
      ensures match Tables.FirstIndex(Ids(old(rows)), id)
        case None => r == Failure(NotFound("Plan", id)) && rows == old(rows)
        case Some(k) => rows == Deactivated(old(rows), k) && r == Success(true)
      ensures Ids(rows) == Ids(old(rows))
      ensures old(Valid()) ==> Valid() && forall p :: p in Active(rows) ==> p.Id != id
    {
      match Tables.FirstIndex(Ids(rows), id)
      case None =>
        r := Failure(NotFound("Plan", id));
        if Valid() {
          forall p | p in Active(rows)
            ensures p.Id != id
          {
            assert p in rows;
            var j :| 0 <= j < |rows| && rows[j] == p;
            assert Ids(rows)[j] == p.Id;
          }
        }
      case Some(k) =>
        if Valid() {
          SoftDeleteHidesOnlyThatPlan(rows, k);
        } else {
          Tables.ReplaceKeepsIds(rows, Key, k, rows[k].(isActive := false));
        }
        rows := Deactivated(rows, k);
        r := Success(true);
    }
  }
}
