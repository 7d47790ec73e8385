/**
  The plan list customers choose from: an empty view when there are no active
  plans, otherwise one card per plan with one of them flagged "popular", and
  the hand-over of the chosen plan to checkout.
 */
module PlanSelection {
  import opened Wrappers
  import opened Records
  import Seqs
  import Tables
  import PlanService
  import CheckoutForm

  /** `popularPlanId`: the second plan's `Id` when there are two or more, else the only plan's. */
  function PopularPlanId(plans: seq<Plan>): (id: Option<int>)
    ensures id.None? <==> plans == []
    ensures |plans| >= 2 ==> id == Some(plans[1].Id)
    ensures |plans| == 1 ==> id == Some(plans[0].Id)
  {
    if |plans| > 1 then Some(plans[1].Id)
    else if |plans| == 1 then Some(plans[0].Id)
    else None
  }

  datatype Card = Card(plan: Plan, isPopular: bool)

  /** What the page renders once the plans have loaded. */
  datatype View = NoPlans | Grid(cards: seq<Card>)

  /** The page: the empty view for no plans, else the cards in list order. */
  function PlanView(plans: seq<Plan>): (v: View)
    ensures v.NoPlans? <==> plans == []
    ensures v.Grid? ==> |v.cards| == |plans|
    ensures v.Grid? ==> forall i :: 0 <= i < |plans| ==> v.cards[i].plan == plans[i]
    ensures v.Grid? ==> forall i :: 0 <= i < |plans| ==> (v.cards[i].isPopular <==> Some(plans[i].Id) == PopularPlanId(plans))
  {
    if |plans| == 0 then NoPlans
    else
      var popular := PopularPlanId(plans);
      Grid(seq(|plans|, i requires 0 <= i < |plans| => Card(plans[i], Some(plans[i].Id) == popular)))
  }

  predicate IsPopular(c: Card) { c.isPopular }

  /**
    With distinct `Id`s exactly one card is flagged: the second when there are
    two or more plans, the only one otherwise.
   */
  lemma {:induction false} ExactlyOnePopular(plans: seq<Plan>)
    requires plans != [] && Tables.UniqueIds(PlanService.Ids(plans))
    ensures var cards := PlanView(plans).cards;
      var k := if |plans| >= 2 then 1 else 0;
      Seqs.Filter(cards, IsPopular) == [cards[k]] && cards[k].plan == plans[k]
  {
    var cards := PlanView(plans).cards;
    var k := if |plans| >= 2 then 1 else 0;
    forall j | 0 <= j < |cards| && j != k
      ensures !IsPopular(cards[j])
    {
      assert PlanService.Ids(plans)[j] == plans[j].Id && PlanService.Ids(plans)[k] == plans[k].Id;
    }
    Seqs.FilterExactlyOne(cards, IsPopular, k);
  }

  /** Where choosing a plan leads: checkout, with the plan in the navigation state. */
  datatype Navigation = Navigation(path: string, selectedPlan: Option<Plan>)

  /** `handleSelectPlan`. */
  function SelectPlan(plan: Plan): (nav: Navigation)
    ensures nav.path == "/checkout" && nav.selectedPlan == Some(plan)
  {
    Navigation("/checkout", Some(plan))
  }

  /** The chosen plan reaches checkout: the form does not send the visitor back, and it holds that same plan. */
  lemma SelectionReachesCheckout(plans: seq<Plan>, i: nat)
    requires i < |plans|
    ensures PlanView(plans).Grid?
    ensures var nav := SelectPlan(PlanView(plans).cards[i].plan);
      CheckoutForm.EntryRedirect(nav.selectedPlan).None? && nav.selectedPlan == Some(plans[i])
  {
  }
}
