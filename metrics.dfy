/**
  The figures the admin dashboard, the reports page, the appointments page and
  the customer dashboard compute from the tables: status badges, the upcoming
  list, revenue and status counts. `now` is the current time in milliseconds.
 */
module Metrics {
  import opened Wrappers
  import opened Records
  import Text
  import Seqs
  import Tables
  import PlanService

  /** `getStatusVariant`: the badge colour for an appointment status, whatever its case. */
  function StatusVariant(status: string): (v: string)
    ensures v in {"info", "success", "error", "default"}
  {
    var s := Text.ToLower(status);
    if s == "scheduled" then "info"
    else if s == "completed" then "success"
    else if s == "cancelled" then "error"
    else "default"
  }

  /** The badge depends on the status only up to letter case, and the three statuses the app writes get three different badges. */
  lemma StatusVariantIgnoresCase(status: string)
    ensures StatusVariant(Text.ToLower(status)) == StatusVariant(status)
    ensures StatusVariant("Scheduled") == "info"
    ensures StatusVariant("Completed") == "success"
    ensures StatusVariant("Cancelled") == "error"
  {
    Text.ToLowerIdempotent(status);
    assert Text.ToLower("Scheduled") == "scheduled";
    assert Text.ToLower("Completed") == "completed";
    assert Text.ToLower("Cancelled") == "cancelled";
  }

  function ScheduledDate(a: Appointment): int { a.scheduledDate }

  /** `new Date(apt.scheduledDate) > new Date() && apt.status === "Scheduled"`. */
  predicate IsUpcoming(a: Appointment, now: int) {
    a.scheduledDate > now && a.status == "Scheduled"
  }

  function UpcomingAt(now: int): Appointment -> bool {
    (a: Appointment) => IsUpcoming(a, now)
  }

  function StatusIs(status: string): Appointment -> bool {
    (a: Appointment) => a.status == status
  }

  /** The upcoming appointments, soonest first (the filter-then-sort of the dashboards). */
  function UpcomingSorted(apts: seq<Appointment>, now: int): (r: seq<Appointment>)
    ensures forall a :: a in r <==> a in apts && IsUpcoming(a, now)
    ensures Seqs.SortedBy(r, ScheduledDate)
    ensures multiset(r) == multiset(Seqs.Filter(apts, UpcomingAt(now)))
  {
    var up := Seqs.Filter(apts, UpcomingAt(now));
    var r := Seqs.SortBy(up, ScheduledDate);
    assert forall a :: a in r <==> a in multiset(r);
    assert forall a :: a in up <==> a in multiset(up);
    r
  }

  /** The statuses of the appointments, in order. */
  function Statuses(apts: seq<Appointment>): (r: seq<string>)
    ensures |r| == |apts| && forall i :: 0 <= i < |apts| ==> r[i] == apts[i].status
  {
    seq(|apts|, i requires 0 <= i < |apts| => apts[i].status)
  }

  /** `appointments.filter(apt => apt.status === status).length`: how many appointments have that status. */
  function CountStatus(apts: seq<Appointment>, status: string): (n: nat)
    ensures n <= |apts|
    ensures n == multiset(Statuses(apts))[status]
  {
    CountIsMultiplicity(apts, status);
    |Seqs.Filter(apts, StatusIs(status))|
  }

  lemma {:induction false} CountIsMultiplicity(apts: seq<Appointment>, status: string)
    ensures |Seqs.Filter(apts, StatusIs(status))| == multiset(Statuses(apts))[status]
  {
    if apts != [] {
      CountIsMultiplicity(apts[1..], status);
      assert Statuses(apts) == [apts[0].status] + Statuses(apts[1..]);
    }
  }

  /**
    The counter counts each appointment once, by its status: one more
    appointment adds one exactly when it has that status.
   */
  lemma {:induction false} CountStatusAppend(apts: seq<Appointment>, a: Appointment, status: string)
    ensures CountStatus(apts + [a], status) == CountStatus(apts, status) + if a.status == status then 1 else 0
  {
    Seqs.FilterAppend(apts, a, StatusIs(status));
  }

  /** Upcoming appointments are among the scheduled ones, so there are never more of them. */
  lemma UpcomingAtMostScheduled(apts: seq<Appointment>, now: int)
    ensures |UpcomingSorted(apts, now)| <= CountStatus(apts, "Scheduled")
  {
    Seqs.FilterMonotone(apts, UpcomingAt(now), StatusIs("Scheduled"));
  }

  /** `plans.find(p => p.Id === customer.planId)`. */
  function PlanOf(c: Customer, plans: seq<Plan>): Option<Plan> {
    Tables.Lookup(plans, PlanService.Key, c.planId)
  }

  /** `plan ? plan.price : 0`. */
  function PriceFor(c: Customer, plans: seq<Plan>): (p: int)
    ensures PlanOf(c, plans).None? ==> p == 0
    ensures c.planId !in PlanService.Ids(plans) ==> p == 0
    ensures PlanOf(c, plans).Some? ==> p == PlanOf(c, plans).value.price && PlanOf(c, plans).value.Id == c.planId
  {
    match PlanOf(c, plans)
    case Some(plan) => plan.price
    case None => 0
  }

  /** `customers.reduce((sum, customer) => sum + (plan ? plan.price : 0), 0)`. */
  function TotalRevenue(customers: seq<Customer>, plans: seq<Plan>): int {
    if customers == [] then 0
    else PriceFor(customers[0], plans) + TotalRevenue(customers[1..], plans)
  }

  /** Revenue is additive over customers: a signup adds exactly its plan's price, and nothing for a plan that is not listed. */
  lemma {:induction false} TotalRevenueAppend(customers: seq<Customer>, c: Customer, plans: seq<Plan>)
    ensures TotalRevenue(customers + [c], plans) == TotalRevenue(customers, plans) + PriceFor(c, plans)
  {
    if customers == [] {
      assert [c][1..] == [];
    } else {
      assert (customers + [c])[1..] == customers[1..] + [c];
      TotalRevenueAppend(customers[1..], c, plans);
    }
  }

  /** With no negative prices the total is never negative. */
  lemma {:induction false} TotalRevenueNonNegative(customers: seq<Customer>, plans: seq<Plan>)
    requires forall i :: 0 <= i < |plans| ==> plans[i].price >= 0
    ensures TotalRevenue(customers, plans) >= 0
  {
    if customers != [] {
      TotalRevenueNonNegative(customers[1..], plans);
      var p := PlanOf(customers[0], plans);
      if p.Some? {
        assert p.value in plans;
      }
    }
  }

  /**
    The month-and-year test of `completedThisMonth`: `calendar` gives the
    (year, month) of a timestamp in the browser's time zone.
   */
  function CompletedInMonthOf(now: int, calendar: int -> (int, int)): Appointment -> bool {
    (a: Appointment) => a.status == "Completed" && calendar(a.scheduledDate) == calendar(now)
  }

  /** `completedThisMonth`. */
  function CompletedThisMonth(apts: seq<Appointment>, now: int, calendar: int -> (int, int)): nat {
    |Seqs.Filter(apts, CompletedInMonthOf(now, calendar))|
  }

  /** Completions this month are among all completions. */
  lemma CompletedThisMonthAtMostCompleted(apts: seq<Appointment>, now: int, calendar: int -> (int, int))
    ensures CompletedThisMonth(apts, now, calendar) <= CountStatus(apts, "Completed")
  {
    Seqs.FilterMonotone(apts, CompletedInMonthOf(now, calendar), StatusIs("Completed"));
  }
}
