/**
  The admin dashboard: the customer search, the recent-customers and
  upcoming-appointments previews, and the plan column of the customer table.
 */
module AdminDashboard {
  import opened Wrappers
  import opened Records
  import Text
  import Seqs
  import Metrics

  /** The search test: the lower-cased name or e-mail includes the lower-cased term. */
  predicate Matches(term: string, c: Customer) {
    var t := Text.ToLower(term);
    Text.Includes(Text.ToLower(c.name), t) || Text.Includes(Text.ToLower(c.email), t)
  }

  function MatchesTerm(term: string): Customer -> bool {
    (c: Customer) => Matches(term, c)
  }

  /** `filteredCustomers`. */
  function FilteredCustomers(customers: seq<Customer>, term: string): (r: seq<Customer>)
    ensures forall c :: c in r <==> c in customers && Matches(term, c)
    ensures forall c :: multiset(r)[c] == if Matches(term, c) then multiset(customers)[c] else 0
    ensures Seqs.IsSubseq(r, customers)
  {
    Seqs.FilterKeepsOrderAndCount(customers, MatchesTerm(term));
    Seqs.Filter(customers, MatchesTerm(term))
  }

  /** An empty search box lists every customer. */
  lemma EmptySearchListsAll(customers: seq<Customer>)
    ensures FilteredCustomers(customers, "") == customers
  {
    forall i | 0 <= i < |customers|
      ensures Matches("", customers[i])
    {
      Text.IncludesEmpty(Text.ToLower(customers[i].name));
    }
    Seqs.FilterAll(customers, MatchesTerm(""));
  }

  /**
    Typing more narrows the search: when the longer term (lower-cased) contains
    the shorter one, every customer it lists is listed for the shorter one too.
   */
  lemma NarrowingSearch(customers: seq<Customer>, shorter: string, longer: string)
    requires Text.Includes(Text.ToLower(longer), Text.ToLower(shorter))
    ensures forall c :: c in FilteredCustomers(customers, longer) ==> c in FilteredCustomers(customers, shorter)
    ensures |FilteredCustomers(customers, longer)| <= |FilteredCustomers(customers, shorter)|
  {
    forall c: Customer | Matches(longer, c)
      ensures Matches(shorter, c)
    {
      var t, u := Text.ToLower(longer), Text.ToLower(shorter);
      if Text.Includes(Text.ToLower(c.name), t) {
        Text.IncludesTrans(Text.ToLower(c.name), t, u);
      } else {
        Text.IncludesTrans(Text.ToLower(c.email), t, u);
      }
    }
    Seqs.FilterMonotone(customers, MatchesTerm(longer), MatchesTerm(shorter));
  }

  /** `customers.slice(0, 5)`: the first five customers in storage order. */
  function RecentCustomers(customers: seq<Customer>): (r: seq<Customer>)
    ensures |r| == if |customers| < 5 then |customers| else 5
    ensures r <= customers
  {
    Seqs.Take(customers, 5)
  }

  /** `upcomingAppointments.slice(0, 5)`: the five soonest upcoming appointments. */
  function UpcomingPreview(apts: seq<Appointment>, now: int): (r: seq<Appointment>)
    ensures |r| <= 5
    ensures forall a :: a in r ==> a in apts && Metrics.IsUpcoming(a, now)
    ensures Seqs.SortedBy(r, Metrics.ScheduledDate)
    ensures r <= Metrics.UpcomingSorted(apts, now)
  {
    var all := Metrics.UpcomingSorted(apts, now);
    var r := Seqs.Take(all, 5);
    assert forall i :: 0 <= i < |r| ==> r[i] == all[i];
    r
  }

  /**
    Nothing left out of the preview is sooner than anything in it: each
    appointment in the preview is no later than every upcoming appointment
    after it.
   */
  lemma PreviewIsSoonest(apts: seq<Appointment>, now: int, i: nat, j: nat)
    requires i < |UpcomingPreview(apts, now)| && i <= j < |Metrics.UpcomingSorted(apts, now)|
    ensures UpcomingPreview(apts, now)[i].scheduledDate <= Metrics.UpcomingSorted(apts, now)[j].scheduledDate
  {
    var all := Metrics.UpcomingSorted(apts, now);
    assert UpcomingPreview(apts, now)[i] == all[i];
    if i < j {
      assert Metrics.ScheduledDate(all[i]) <= Metrics.ScheduledDate(all[j]);
    }
  }

  /** The plan column: `plan?.name || "Unknown Plan"`, so a plan with an empty name reads as unknown too. */
  function PlanLabel(c: Customer, plans: seq<Plan>): (shown: string)
    ensures shown == "Unknown Plan" <==> Metrics.PlanOf(c, plans).None? || Metrics.PlanOf(c, plans).value.name in {"", "Unknown Plan"}
    ensures shown != "Unknown Plan" ==> shown == Metrics.PlanOf(c, plans).value.name
  {
    match Metrics.PlanOf(c, plans)
    case Some(p) => if p.name != "" then p.name else "Unknown Plan"
    case None => "Unknown Plan"
  }
}
