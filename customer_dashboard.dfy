/**
  The customer dashboard: which customer it shows, the plan and appointments it
  loads for them, the next-service card, the completed counter, the greeting
  and the recent-history list.
 */
module CustomerDashboard {
  import opened Wrappers
  import opened Records
  import Text
  import Seqs
  import Tables
  import Metrics
  import PlanService
  import AppointmentService

  /** What the page renders once loading has finished. */
  datatype DashboardView =
    | Unavailable            // a load step threw: the "Dashboard Unavailable" error
    | NoCustomer             // no customer to show: the "No Customer Data" error
    | Loaded(customer: Customer, plan: Plan, appointments: seq<Appointment>)

  /** The customer handed over by checkout, else the first stored customer (`customers[0]`), else none. */
  function Chosen(passed: Option<Customer>, customers: seq<Customer>): (c: Option<Customer>)
    ensures passed.Some? ==> c == passed
    ensures passed.None? && customers == [] ==> c.None?
    ensures passed.None? && customers != [] ==> c == Some(customers[0])
  {
    if passed.Some? then passed else if customers != [] then Some(customers[0]) else None
  }

  /**
    `loadDashboardData`: the chosen customer, then that customer's plan by `Id`
    from the whole plan table (`getById`, which throws when it is missing) and
    that customer's appointments.
   */
  function LoadDashboard(passed: Option<Customer>, customers: seq<Customer>, plans: seq<Plan>, apts: seq<Appointment>)
    : (v: DashboardView)
    ensures v.NoCustomer? <==> passed.None? && customers == []
    ensures v.Unavailable? <==> Chosen(passed, customers).Some? && Chosen(passed, customers).value.planId !in PlanService.Ids(plans)
    ensures v.Loaded? ==> Chosen(passed, customers) == Some(v.customer)
    ensures v.Loaded? ==> Tables.Lookup(plans, PlanService.Key, v.customer.planId) == Some(v.plan)
    ensures v.Loaded? ==> forall a :: a in v.appointments <==> a in apts && a.customerId == v.customer.Id
    ensures v.Loaded? ==> forall a :: multiset(v.appointments)[a] == if a.customerId == v.customer.Id then multiset(apts)[a] else 0
  {
    match Chosen(passed, customers)
    case None => NoCustomer
    case Some(c) =>
      match Tables.Lookup(plans, PlanService.Key, c.planId)
      case None => Unavailable
      case Some(p) =>
        Seqs.FilterKeepsOrderAndCount(apts, AppointmentService.CustomerIs(c.Id));
        Loaded(c, p, AppointmentService.ForCustomer(apts, c.Id))
  }

  /** `nextAppointment`: the first of the upcoming appointments sorted soonest first, if any. */
  function NextAppointment(apts: seq<Appointment>, now: int): (next: Option<Appointment>)
    ensures next.None? <==> forall a :: a in apts ==> !Metrics.IsUpcoming(a, now)
    ensures next.Some? ==> next.value in apts && Metrics.IsUpcoming(next.value, now)
    ensures next.Some? ==> forall a :: a in apts && Metrics.IsUpcoming(a, now) ==> next.value.scheduledDate <= a.scheduledDate
  {
    var up := Metrics.UpcomingSorted(apts, now);
    if up == [] then None
    else
      assert up[0] in up;
      assert forall a :: a in up ==> up[0].scheduledDate <= a.scheduledDate by {
        forall a | a in up
          ensures up[0].scheduledDate <= a.scheduledDate
        {
          var j :| 0 <= j < |up| && up[j] == a;
          if j > 0 {
            assert Metrics.ScheduledDate(up[0]) <= Metrics.ScheduledDate(up[j]);
          }
        }
      }
      Some(up[0])
  }

  /** The "Completed Services" counter: how many of the appointments are completed. */
  function CompletedCount(apts: seq<Appointment>): (n: nat)
    ensures n <= |apts|
    ensures n == multiset(Metrics.Statuses(apts))["Completed"]
    ensures n == 0 <==> forall a :: a in apts ==> a.status != "Completed"
  {
    var done := Seqs.Filter(apts, Metrics.StatusIs("Completed"));
    assert done != [] ==> done[0] in apts && done[0].status == "Completed";
    Metrics.CountStatus(apts, "Completed")
  }

  /** `customer.name.split(" ")[0]`: the greeting uses the text before the first space. */
  function FirstName(name: string): (first: string)
    ensures first <= name && ' ' !in first
    ensures |first| < |name| ==> name[|first|] == ' '
  {
    Text.BeforeFirstSpace(name)
  }

  /** Sorting key for latest first. */
  function Recency(a: Appointment): int { -a.scheduledDate }

  /**
    The history list: appointments sorted latest first, the first five. It
    holds appointments drawn from the list without duplication, and all of them
    when there are at most five.
   */
  function History(apts: seq<Appointment>): (r: seq<Appointment>)
    ensures |r| == if |apts| < 5 then |apts| else 5
    ensures multiset(r) <= multiset(apts)
    ensures |apts| <= 5 ==> multiset(r) == multiset(apts)
    ensures forall a :: a in r ==> a in apts
    ensures forall i, j :: 0 <= i < j < |r| ==> r[i].scheduledDate >= r[j].scheduledDate
  {
    var sorted := Seqs.SortBy(apts, Recency);
    var r := Seqs.Take(sorted, 5);
    assert sorted == r + sorted[|r|..];
    assert multiset(sorted) == multiset(r) + multiset(sorted[|r|..]);
    forall a | a in r
      ensures a in apts
    {
      assert a in sorted;
      assert a in multiset(sorted);
    }
    forall i, j | 0 <= i < j < |r|
      ensures r[i].scheduledDate >= r[j].scheduledDate
    {
      assert r[i] == sorted[i] && r[j] == sorted[j];
      assert Recency(sorted[i]) <= Recency(sorted[j]);
    }
    r
  }

  /** Every appointment left out of the history is no later than every one shown. */
  lemma HistoryIsLatest(apts: seq<Appointment>, shown: Appointment, hidden: Appointment)
    requires shown in History(apts) && hidden in apts && hidden !in History(apts)
    ensures hidden.scheduledDate <= shown.scheduledDate
  {
    var sorted := Seqs.SortBy(apts, Recency);
    var r := History(apts);
    assert r == Seqs.Take(sorted, 5);
    assert hidden in multiset(sorted);
    var j :| 0 <= j < |sorted| && sorted[j] == hidden;
    var i :| 0 <= i < |r| && r[i] == shown;
    assert sorted[i] == shown;
    assert forall t :: 0 <= t < |r| ==> sorted[t] == r[t];
    assert Recency(sorted[i]) <= Recency(sorted[j]);
  }
}
