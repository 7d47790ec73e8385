/**
  The reports page: headline figures, the per-plan distribution of customers
  and revenue, and the appointment status breakdown. The figures are computed
  from `customerService.getAll()`, `planService.getAll()` (active plans only)
  and `appointmentService.getAll()`.
 */
module AdminReports {
  import opened Records
  import Seqs
  import Tables
  import PlanService
  import Metrics

  /** One entry of `planDistribution`: `{ plan, customers, revenue }`. */
  datatype PlanRow = PlanRow(plan: string, customers: nat, revenue: int)

  function OnPlan(planId: int): Customer -> bool {
    (c: Customer) => c.planId == planId
  }

  /** `customers.filter(c => c.planId === plan.Id).length`. */
  function CustomersOn(customers: seq<Customer>, planId: int): nat {
    |Seqs.Filter(customers, OnPlan(planId))|
  }

  /** `plans.map(plan => ...)`: one row per listed plan, in plan order. */
  function PlanDistribution(plans: seq<Plan>, customers: seq<Customer>): (rows: seq<PlanRow>)
    ensures |rows| == |plans|
    ensures forall i :: 0 <= i < |plans| ==>
      rows[i].plan == plans[i].name
      && rows[i].customers == CustomersOn(customers, plans[i].Id)
      && rows[i].revenue == rows[i].customers * plans[i].price
  {
    if plans == [] then []
    else
      var n := CustomersOn(customers, plans[0].Id);
      [PlanRow(plans[0].name, n, n * plans[0].price)] + PlanDistribution(plans[1..], customers)
  }

  function RevenueSum(rows: seq<PlanRow>): int {
    if rows == [] then 0 else rows[0].revenue + RevenueSum(rows[1..])
  }

  function CustomerSum(rows: seq<PlanRow>): int {
    if rows == [] then 0 else rows[0].customers + CustomerSum(rows[1..])
  }

  /** How many customers are on a plan that is listed. */
  function Subscribed(customers: seq<Customer>, plans: seq<Plan>): (n: nat)
    ensures n <= |customers|
    ensures (forall i :: 0 <= i < |customers| ==> customers[i].planId in PlanService.Ids(plans)) ==> n == |customers|
  {
    if customers == [] then 0
    else (if customers[0].planId in PlanService.Ids(plans) then 1 else 0) + Subscribed(customers[1..], plans)
  }

  /** The price `c` contributes to each plan's row, summed over the rows. */
  function PriceIfOn(plans: seq<Plan>, c: Customer): int {
    if plans == [] then 0
    else (if plans[0].Id == c.planId then plans[0].price else 0) + PriceIfOn(plans[1..], c)
  }

  /** The number of rows `c` is counted in. */
  function CountIfOn(plans: seq<Plan>, c: Customer): int {
    if plans == [] then 0
    else (if plans[0].Id == c.planId then 1 else 0) + CountIfOn(plans[1..], c)
  }

  /** The first row's contribution to both sums. */
  lemma SumsUnfold(plans: seq<Plan>, customers: seq<Customer>)
    requires plans != []
    ensures RevenueSum(PlanDistribution(plans, customers))
         == CustomersOn(customers, plans[0].Id) * plans[0].price + RevenueSum(PlanDistribution(plans[1..], customers))
    ensures CustomerSum(PlanDistribution(plans, customers))
         == CustomersOn(customers, plans[0].Id) + CustomerSum(PlanDistribution(plans[1..], customers))
  {
    var rows := PlanDistribution(plans, customers);
    assert rows[1..] == PlanDistribution(plans[1..], customers);
  }

  /** Counting on a list with one more customer in front. */
  lemma CustomersOnCons(c: Customer, customers: seq<Customer>, planId: int)
    ensures CustomersOn([c] + customers, planId) == (if c.planId == planId then 1 else 0) + CustomersOn(customers, planId)
  {
    var all := [c] + customers;
    assert all[0] == c && all[1..] == customers;
  }

  lemma Distributes(k: int, n: int, price: int)
    ensures (k + n) * price == k * price + n * price
  {
  }

  /** Adding one customer in front adds its share to each row. */
  lemma {:induction false} DistributionStep(plans: seq<Plan>, c: Customer, customers: seq<Customer>)
    ensures RevenueSum(PlanDistribution(plans, [c] + customers))
         == PriceIfOn(plans, c) + RevenueSum(PlanDistribution(plans, customers))
    ensures CustomerSum(PlanDistribution(plans, [c] + customers))
         == CountIfOn(plans, c) + CustomerSum(PlanDistribution(plans, customers))
  {
    if plans != [] {
      DistributionStep(plans[1..], c, customers);
      var all := [c] + customers;
      SumsUnfold(plans, all);
      SumsUnfold(plans, customers);
      var id, price := plans[0].Id, plans[0].price;
      CustomersOnCons(c, customers, id);
      var k := if c.planId == id then 1 else 0;
      Distributes(k, CustomersOn(customers, id), price);
      assert PriceIfOn(plans, c) == k * price + PriceIfOn(plans[1..], c);
      assert CountIfOn(plans, c) == k + CountIfOn(plans[1..], c);
    }
  }

  /** With distinct plan `Id`s a customer lands in exactly the row of its own plan, if that plan is listed. */
  lemma {:induction false} ShareOfUniquePlans(plans: seq<Plan>, c: Customer)
    requires Tables.UniqueIds(PlanService.Ids(plans))
    ensures PriceIfOn(plans, c) == Metrics.PriceFor(c, plans)
    ensures CountIfOn(plans, c) == if c.planId in PlanService.Ids(plans) then 1 else 0
  {
    if plans != [] {
      var rest := plans[1..];
      var ids := PlanService.Ids(plans);
      assert PlanService.Ids(rest) == ids[1..];
      assert Tables.UniqueIds(PlanService.Ids(rest));
      ShareOfUniquePlans(rest, c);
      if plans[0].Id == c.planId {
        assert c.planId !in ids[1..] by {
          forall j | 1 <= j < |ids|
            ensures ids[j] != ids[0]
          {
          }
        }
      } else {
        assert c.planId in ids <==> c.planId in ids[1..] by {
          assert ids == [ids[0]] + ids[1..];
        }
      }
    }
  }

  /**
    With distinct plan `Id`s the per-plan revenues add up to the headline total
    revenue, and the per-plan customer counts add up to the customers on a
    listed plan (all customers, when every customer's plan is listed).
   */
  lemma {:induction false} DistributionMatchesTotals(plans: seq<Plan>, customers: seq<Customer>)
    requires Tables.UniqueIds(PlanService.Ids(plans))
    ensures RevenueSum(PlanDistribution(plans, customers)) == Metrics.TotalRevenue(customers, plans)
    ensures CustomerSum(PlanDistribution(plans, customers)) == Subscribed(customers, plans)
  {
    if customers == [] {
      NoCustomersEmptyRows(plans);
    } else {
      assert customers == [customers[0]] + customers[1..];
      DistributionStep(plans, customers[0], customers[1..]);
      ShareOfUniquePlans(plans, customers[0]);
      DistributionMatchesTotals(plans, customers[1..]);
    }
  }

  lemma {:induction false} NoCustomersEmptyRows(plans: seq<Plan>)
    ensures RevenueSum(PlanDistribution(plans, [])) == 0
    ensures CustomerSum(PlanDistribution(plans, [])) == 0
  {
    if plans != [] {
      NoCustomersEmptyRows(plans[1..]);
      assert PlanDistribution(plans, [])[1..] == PlanDistribution(plans[1..], []);
    }
  }

  /** The three status counts of the breakdown. */
  datatype StatusBreakdown = StatusBreakdown(completed: nat, scheduled: nat, cancelled: nat)

  function Breakdown(apts: seq<Appointment>): StatusBreakdown {
    StatusBreakdown(
      Metrics.CountStatus(apts, "Completed"),
      Metrics.CountStatus(apts, "Scheduled"),
      Metrics.CountStatus(apts, "Cancelled"))
  }

  predicate KnownStatus(a: Appointment) {
    a.status == "Completed" || a.status == "Scheduled" || a.status == "Cancelled"
  }

  /**
    No appointment is counted twice: the three counts add up to at most the
    number of appointments, and to exactly that number when every status is
    one of the three.
   */
  lemma {:induction false} BreakdownPartitions(apts: seq<Appointment>)
    ensures var b := Breakdown(apts); b.completed + b.scheduled + b.cancelled <= |apts|
    ensures (forall i :: 0 <= i < |apts| ==> KnownStatus(apts[i])) ==>
      var b := Breakdown(apts); b.completed + b.scheduled + b.cancelled == |apts|
  {
    if apts != [] {
      BreakdownPartitions(apts[1..]);
      assert apts == [apts[0]] + apts[1..];
    }
  }
}
