/**
  The customer table (`customerService`): an in-memory list of customers seeded
  from a fixture, with lookup, create, update by merging, and hard delete.
 */
module CustomerService {
  import opened Wrappers
  import opened Records
  import Tables

  function Key(c: Customer): int { c.Id }

  function Ids(rows: seq<Customer>): seq<int> { Tables.IdsOf(rows, Key) }

  /** The fields an `updates` object may carry; an absent field keeps its value. */
  datatype CustomerPatch = CustomerPatch(
    Id: Option<int>,
    name: Option<string>,
    email: Option<string>,
    phone: Option<string>,
    address: Option<Address>,
    planId: Option<int>,
    stripeCustomerId: Option<string>,
    createdAt: Option<int>)

  const NoChanges := CustomerPatch(None, None, None, None, None, None, None, None)

  /** `{ ...c, ...p }`: the spread is shallow, so an `address` in `p` replaces the whole address. */
  function Merge(c: Customer, p: CustomerPatch): Customer {
    Customer(
      p.Id.GetOr(c.Id),
      p.name.GetOr(c.name),
      p.email.GetOr(c.email),
      p.phone.GetOr(c.phone),
      p.address.GetOr(c.address),
      p.planId.GetOr(c.planId),
      p.stripeCustomerId.GetOr(c.stripeCustomerId),
      p.createdAt.GetOr(c.createdAt))
  }

  /** An empty update leaves the customer as it was, and applying an update twice is applying it once. */
  lemma MergeLaws(c: Customer, p: CustomerPatch)
    ensures Merge(c, NoChanges) == c
    ensures Merge(Merge(c, p), p) == Merge(c, p)
    ensures p.Id.None? ==> Merge(c, p).Id == c.Id
  {
  }

  class CustomerTable {
    var rows: seq<Customer>

    /** Customer `Id`s are distinct. Creates and deletes keep this; an update may not, since it can overwrite `Id`. */
    predicate Valid()
      reads this
    {
      Tables.UniqueIds(Ids(rows))
    }

    /** `let customers = [...customerData]`. */
    constructor (fixture: seq<Customer>)
      ensures rows == fixture
    {
      rows := fixture;
    }

    /** `getAll`: a copy of every customer, in storage order. */
    method GetAll() returns (all: seq<Customer>)
      ensures all == rows
    {
      all := rows;
    }

    /** `getById`: the first customer with that `Id`, or the not-found error. */
    method GetById(id: int) returns (r: Result<Customer, Error>)
      ensures r.Success? <==> id in Ids(rows)
      ensures r.Success? ==> r.value.Id == id && Tables.Lookup(rows, Key, id) == Some(r.value)
      ensures r.Failure? ==> r.error == NotFound("Customer", id)
    {
      match Tables.Lookup(rows, Key, id)
      case None => r := Failure(NotFound("Customer", id));
      case Some(c) => r := Success(c);
    }

    /** `create`: the caller's data with a fresh `Id` and the creation time, appended. */
    method Create(data: Customer, now: int) returns (c: Customer)
      modifies this
      ensures c == data.(Id := Tables.NextId(Ids(old(rows))), createdAt := now)
      ensures c.Id !in Ids(old(rows))
      ensures rows == old(rows) + [c]
      ensures old(Valid()) ==> Valid() && Tables.Lookup(rows, Key, c.Id) == Some(c)
    {
      c := data.(Id := Tables.NextId(Ids(rows)), createdAt := now);
      if Valid() {
        Tables.AppendKeepsUnique(rows, Key, c);
        Tables.LookupUnique(rows + [c], Key, |rows|);
      }
      rows := rows + [c];
    }

    /** `update`: merges the changes into the first customer with that `Id`. */
    method Update(id: int, patch: CustomerPatch) returns (r: Result<Customer, Error>)
      modifies this
      ensures match Tables.FirstIndex(Ids(old(rows)), id)
        case None => r == Failure(NotFound("Customer", id)) && rows == old(rows)
        case Some(k) => rows == old(rows)[k := Merge(old(rows)[k], patch)] && r == Success(rows[k])
      ensures old(Valid()) && patch.Id.None? ==> Valid()
    {
      match Tables.FirstIndex(Ids(rows), id)
      case None =>
        r := Failure(NotFound("Customer", id));
      case Some(k) =>
        var merged := Merge(rows[k], patch);
        if patch.Id.None? {
          Tables.ReplaceKeepsIds(rows, Key, k, merged);
        }
        rows := rows[k := merged];
        r := Success(merged);
    }

    /** `delete`: removes the first customer with that `Id`; afterwards no customer has it. */
    method Delete(id: int) returns (r: Result<bool, Error>)
      modifies this
      ensures match Tables.FirstIndex(Ids(old(rows)), id)
        case None => r == Failure(NotFound("Customer", id)) && rows == old(rows)
        case Some(k) => rows == Tables.RemoveAt(old(rows), k) && r == Success(true)
      ensures old(Valid()) ==> Valid()
      ensures old(Valid()) && r.Success? ==> id !in Ids(rows)
    {
      match Tables.FirstIndex(Ids(rows), id)
      case None =>
        r := Failure(NotFound("Customer", id));
      case Some(k) =>
        if Valid() {
          Tables.RemoveKeepsUnique(rows, Key, k);
        }
        rows := Tables.RemoveAt(rows, k);
        r := Success(true);
    }
  }
}
