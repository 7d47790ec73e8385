/**
  The appointment table (`appointmentService`): lookup by `Id` and by customer,
  create, update by merging, and hard delete.
 */
module AppointmentService {
  import opened Wrappers
  import opened Records
  import Tables
  import Seqs

  function Key(a: Appointment): int { a.Id }

  function Ids(rows: seq<Appointment>): seq<int> { Tables.IdsOf(rows, Key) }

  /** The test `a => a.customerId === customerId`. */
  function CustomerIs(customerId: int): Appointment -> bool {
    (a: Appointment) => a.customerId == customerId
  }

  /** `appointments.filter(a => a.customerId === customerId)`. */
  function ForCustomer(rows: seq<Appointment>, customerId: int): seq<Appointment> {
    Seqs.Filter(rows, CustomerIs(customerId))
  }

  /** The fields an `updates` object may carry; an absent field keeps its value. */
  datatype AppointmentPatch = AppointmentPatch(
    Id: Option<int>,
    customerId: Option<int>,
    planId: Option<int>,
    scheduledDate: Option<int>,
    status: Option<string>,
    technicianId: Option<string>,
    notes: Option<string>)

  const NoChanges := AppointmentPatch(None, None, None, None, None, None, None)

  /** The update the appointments page sends to cancel: `{ status: "Cancelled" }`. */
  const CancelPatch := NoChanges.(status := Some("Cancelled"))

  /** `{ ...a, ...u }`. */
  function Merge(a: Appointment, u: AppointmentPatch): Appointment {
    Appointment(
      u.Id.GetOr(a.Id),
      u.customerId.GetOr(a.customerId),
      u.planId.GetOr(a.planId),
      u.scheduledDate.GetOr(a.scheduledDate),
      u.status.GetOr(a.status),
      u.technicianId.GetOr(a.technicianId),
      u.notes.GetOr(a.notes))
  }

  /** An empty update changes nothing, and applying an update twice is applying it once. */
  lemma MergeLaws(a: Appointment, u: AppointmentPatch)
    ensures Merge(a, NoChanges) == a
    ensures Merge(Merge(a, u), u) == Merge(a, u)
    ensures u.Id.None? ==> Merge(a, u).Id == a.Id
  {
  }

  /** A new appointment joins its own customer's list, at the end, and no other customer's. */
  lemma {:induction false} ForCustomerAfterAppend(rows: seq<Appointment>, a: Appointment, customerId: int)
    ensures ForCustomer(rows + [a], customerId)
         == ForCustomer(rows, customerId) + if a.customerId == customerId then [a] else []
  {
    Seqs.FilterAppend(rows, a, CustomerIs(customerId));
  }

  class AppointmentTable {
    var rows: seq<Appointment>

    /** Appointment `Id`s are distinct. */
    predicate Valid()
      reads this
    {
      Tables.UniqueIds(Ids(rows))
    }

    /** `let appointments = [...appointmentData]`. */
    constructor (fixture: seq<Appointment>)
      ensures rows == fixture
    {
      rows := fixture;
    }

    /** `getAll`: a copy of every appointment, in storage order. */
    method GetAll() returns (all: seq<Appointment>)
      ensures all == rows
    {
      all := rows;
    }

    /** `getById`: the first appointment with that `Id`, or the not-found error. */
    method GetById(id: int) returns (r: Result<Appointment, Error>)
      ensures r.Success? <==> id in Ids(rows)
      ensures r.Success? ==> r.value.Id == id && Tables.Lookup(rows, Key, id) == Some(r.value)
      ensures r.Failure? ==> r.error == NotFound("Appointment", id)
    {
      match Tables.Lookup(rows, Key, id)
      case None => r := Failure(NotFound("Appointment", id));
      case Some(a) => r := Success(a);
    }

    /** `getByCustomerId`: that customer's appointments, in storage order. */
    method GetByCustomerId(customerId: int) returns (r: seq<Appointment>)
      ensures forall a :: a in r <==> a in rows && a.customerId == customerId
      ensures Seqs.IsSubseq(r, rows)
      ensures r == ForCustomer(rows, customerId)
    {
      r := ForCustomer(rows, customerId);
      Seqs.FilterKeepsOrderAndCount(rows, CustomerIs(customerId));
    }

    /** `create`: the caller's data with a fresh `Id`, appended. */
    method Create(data: Appointment) returns (a: Appointment)
      modifies this
      ensures a == data.(Id := Tables.NextId(Ids(old(rows))))
      ensures a.Id !in Ids(old(rows))
      ensures rows == old(rows) + [a]
      ensures ForCustomer(rows, a.customerId) == ForCustomer(old(rows), a.customerId) + [a]
      ensures old(Valid()) ==> Valid() && Tables.Lookup(rows, Key, a.Id) == Some(a)
    {
      a := data.(Id := Tables.NextId(Ids(rows)));
      if Valid() {
        Tables.AppendKeepsUnique(rows, Key, a);
        Tables.LookupUnique(rows + [a], Key, |rows|);
      }
      ForCustomerAfterAppend(rows, a, a.customerId);
      rows := rows + [a];
    }

    /** `update`: merges the changes into the first appointment with that `Id`. */
    method Update(id: int, patch: AppointmentPatch) returns (r: Result<Appointment, Error>)
      modifies this
      ensures match Tables.FirstIndex(Ids(old(rows)), id)
        case None => r == Failure(NotFound("Appointment", id)) && rows == old(rows)
        case Some(k) => rows == old(rows)[k := Merge(old(rows)[k], patch)] && r == Success(rows[k])
      ensures old(Valid()) && patch.Id.None? ==> Valid()
    {
      match Tables.FirstIndex(Ids(rows), id)
      case None =>
        r := Failure(NotFound("Appointment", id));
      case Some(k) =>
        var merged := Merge(rows[k], patch);
        if patch.Id.None? {
          Tables.ReplaceKeepsIds(rows, Key, k, merged);
        }
        rows := rows[k := merged];
        r := Success(merged);
    }

    /** `delete`: removes the first appointment with that `Id`; afterwards no appointment has it. */
    method Delete(id: int) returns (r: Result<bool, Error>)
      modifies this
      ensures match Tables.FirstIndex(Ids(old(rows)), id)
        case None => r == Failure(NotFound("Appointment", id)) && rows == old(rows)
        case Some(k) => rows == Tables.RemoveAt(old(rows), k) && r == Success(true)
      ensures old(Valid()) ==> Valid()
      ensures old(Valid()) && r.Success? ==> id !in Ids(rows)
    {
      match Tables.FirstIndex(Ids(rows), id)
      case None =>
        r := Failure(NotFound("Appointment", id));
      case Some(k) =>
        if Valid() {
          Tables.RemoveKeepsUnique(rows, Key, k);
        }
        rows := Tables.RemoveAt(rows, k);
        r := Success(true);
    }
  }
}
