/**
  The appointments page: the four filter tabs, the list sorted soonest first,
  the cancel action, and the four counters at the bottom.
 */
module AppointmentsPage {
  import opened Wrappers
  import opened Records
  import Seqs
  import Tables
  import Metrics
  import AdminReports
  import AppointmentService

  /** `filterAppointments`: the tab id picks the test; any other id shows everything. */
  function FilterAppointments(apts: seq<Appointment>, filter: string, now: int): (r: seq<Appointment>)
    ensures filter == "upcoming" ==> forall a :: a in r <==> a in apts && Metrics.IsUpcoming(a, now)
    ensures filter == "completed" ==> forall a :: a in r <==> a in apts && a.status == "Completed"
    ensures filter == "cancelled" ==> forall a :: a in r <==> a in apts && a.status == "Cancelled"
    ensures filter == "upcoming" ==> forall a :: multiset(r)[a] == if Metrics.IsUpcoming(a, now) then multiset(apts)[a] else 0
    ensures filter == "completed" ==> forall a :: multiset(r)[a] == if a.status == "Completed" then multiset(apts)[a] else 0
    ensures filter == "cancelled" ==> forall a :: multiset(r)[a] == if a.status == "Cancelled" then multiset(apts)[a] else 0
    ensures filter !in {"upcoming", "completed", "cancelled"} ==> r == apts
    ensures Seqs.IsSubseq(r, apts)
  {
    if filter == "upcoming" then
      Seqs.FilterKeepsOrderAndCount(apts, Metrics.UpcomingAt(now));
      Seqs.Filter(apts, Metrics.UpcomingAt(now))
    else if filter == "completed" then
      Seqs.FilterKeepsOrderAndCount(apts, Metrics.StatusIs("Completed"));
      Seqs.Filter(apts, Metrics.StatusIs("Completed"))
    else if filter == "cancelled" then
      Seqs.FilterKeepsOrderAndCount(apts, Metrics.StatusIs("Cancelled"));
      Seqs.Filter(apts, Metrics.StatusIs("Cancelled"))
    else
      SubseqRefl(apts);
      apts
  }

  lemma {:induction false} SubseqRefl(s: seq<Appointment>)
    ensures Seqs.IsSubseq(s, s)
  {
    if s != [] {
      SubseqRefl(s[1..]);
    }
  }

  /** The list as shown: the filtered appointments sorted by date, soonest first. */
  function Displayed(apts: seq<Appointment>, filter: string, now: int): (r: seq<Appointment>)
    ensures multiset(r) == multiset(FilterAppointments(apts, filter, now))
    ensures Seqs.SortedBy(r, Metrics.ScheduledDate)
  {
    Seqs.SortBy(FilterAppointments(apts, filter, now), Metrics.ScheduledDate)
  }

  /** Reschedule and Cancel are offered on a scheduled appointment that is still in the future. */
  predicate ShowsActions(a: Appointment, now: int) {
    a.status == "Scheduled" && a.scheduledDate > now
  }

  /** The actions appear on exactly the appointments the "upcoming" tab lists. */
  lemma ActionsOnUpcomingTab(apts: seq<Appointment>, now: int, a: Appointment)
    requires a in apts
    ensures ShowsActions(a, now) <==> a in FilterAppointments(apts, "upcoming", now)
  {
  }

  /** The counters: all, completed, upcoming and cancelled appointments. */
  datatype Counters = Counters(total: nat, completed: nat, upcoming: nat, cancelled: nat)

  function CountersOf(apts: seq<Appointment>, now: int): Counters {
    Counters(
      |apts|,
      Metrics.CountStatus(apts, "Completed"),
      |Seqs.Filter(apts, Metrics.UpcomingAt(now))|,
      Metrics.CountStatus(apts, "Cancelled"))
  }

  /** The "Upcoming" counter is the size of the "upcoming" tab. */
  lemma UpcomingStatIsTabSize(apts: seq<Appointment>, now: int)
    ensures CountersOf(apts, now).upcoming == |FilterAppointments(apts, "upcoming", now)|
  {
  }

  /** The three specific counters never add up to more than the total. */
  lemma CountersWithinTotal(apts: seq<Appointment>, now: int)
    ensures var c := CountersOf(apts, now); c.completed + c.upcoming + c.cancelled <= c.total
  {
    AdminReports.BreakdownPartitions(apts);
    Metrics.UpcomingAtMostScheduled(apts, now);
  }

  /**
    `handleCancel`: sets the appointment's status to "Cancelled" and, on
    success, reloads the list. The cancelled appointment leaves the "upcoming"
    tab and no other appointment changes. A failure (unknown `Id`) changes
    nothing: the table stays as it was and the page keeps the list it showed.
   */
  method HandleCancel(table: AppointmentService.AppointmentTable, id: int, now: int, shown: seq<Appointment>)
    returns (ok: bool, reloaded: seq<Appointment>)
    modifies table
    ensures ok <==> id in AppointmentService.Ids(old(table.rows))
    ensures ok ==> reloaded == table.rows && |reloaded| == |old(table.rows)|
    ensures !ok ==> table.rows == old(table.rows) && reloaded == shown
    ensures ok ==> (
      var k := Tables.FirstIndex(AppointmentService.Ids(old(table.rows)), id).value;
      reloaded[k] == old(table.rows)[k].(status := "Cancelled")
      && forall j :: 0 <= j < |reloaded| && j != k ==> reloaded[j] == old(table.rows)[j])
    ensures ok && old(table.Valid()) ==> (
      table.Valid() && forall a :: a in FilterAppointments(reloaded, "upcoming", now) ==> a.Id != id)
  {
    ghost var before := table.rows;
    var r := table.Update(id, AppointmentService.CancelPatch);
    ok := r.Success?;
    reloaded := shown;
    if ok {
      reloaded := table.GetAll();
      var k := Tables.FirstIndex(AppointmentService.Ids(before), id).value;
      assert reloaded[k] == before[k].(status := "Cancelled");
      if table.Valid() {
        forall a | a in FilterAppointments(reloaded, "upcoming", now)
          ensures a.Id != id
        {
          var j :| 0 <= j < |reloaded| && reloaded[j] == a;
          if j != k {
            assert AppointmentService.Ids(reloaded)[j] == a.Id;
            assert AppointmentService.Ids(reloaded)[k] == id;
          }
        }
      }
    }
  }
}
