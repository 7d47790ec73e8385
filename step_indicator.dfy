/**
  The step indicator above the checkout form: one circle per step, marked
  completed (with a check), active or upcoming, and a connector after every
  step but the last, green once that step is behind.
 */
module StepIndicator {
  import opened Wrappers
  import Seqs

  datatype StepItem = StepItem(
    title: string,
    number: int,
    isCompleted: bool,
    isActive: bool,
    isUpcoming: bool,
    showsCheck: bool,
    connector: Option<bool>)   // None: no connector; Some(green)

  function Item(steps: seq<string>, current: int, index: nat): StepItem
    requires index < |steps|
  {
    var n := index + 1;
    StepItem(steps[index], n, n < current, n == current, n > current, n < current,
      if index < |steps| - 1 then Some(n < current) else None)
  }

  /** `steps.map((step, index) => ...)`. */
  function Indicator(steps: seq<string>, current: int): (items: seq<StepItem>)
    ensures |items| == |steps|
    ensures forall i :: 0 <= i < |items| ==> items[i].title == steps[i] && items[i].number == i + 1
    ensures forall i :: 0 <= i < |items| ==>
      (items[i].isCompleted ==> !items[i].isActive && !items[i].isUpcoming)
      && (items[i].isCompleted || items[i].isActive || items[i].isUpcoming)
      && !(items[i].isActive && items[i].isUpcoming)
    ensures forall i :: 0 <= i < |items| ==>
      (items[i].isCompleted <==> items[i].number < current)
      && (items[i].isActive <==> items[i].number == current)
      && (items[i].isUpcoming <==> items[i].number > current)
    ensures forall i :: 0 <= i < |items| ==> items[i].showsCheck == items[i].isCompleted
    ensures forall i :: 0 <= i < |items| && items[i].connector.Some? ==> items[i].connector.value == items[i].isCompleted
    ensures forall i :: 0 <= i < |items| ==> (items[i].connector.None? <==> i == |items| - 1)
  {
    seq(|steps|, i requires 0 <= i < |steps| => Item(steps, current, i))
  }

  predicate IsActive(s: StepItem) { s.isActive }
  predicate IsCompleted(s: StepItem) { s.isCompleted }
  predicate HasConnector(s: StepItem) { s.connector.Some? }
  predicate HasGreenConnector(s: StepItem) { s.connector == Some(true) }

  /**
    On a step within range exactly one circle is active, the `current - 1`
    before it are completed, there are `|steps| - 1` connectors, and the
    `current - 1` connectors behind the active step are green.
   */
  lemma IndicatorCounts(steps: seq<string>, current: int)
    requires 1 <= current <= |steps|
    ensures Seqs.Filter(Indicator(steps, current), IsActive) == [Indicator(steps, current)[current - 1]]
    ensures |Seqs.Filter(Indicator(steps, current), IsCompleted)| == current - 1
    ensures |Seqs.Filter(Indicator(steps, current), HasConnector)| == |steps| - 1
    ensures |Seqs.Filter(Indicator(steps, current), HasGreenConnector)| == current - 1
  {
    var items := Indicator(steps, current);
    assert forall i :: 0 <= i < |items| ==> items[i] == Item(steps, current, i);
    Seqs.FilterExactlyOne(items, IsActive, current - 1);
    CountCompleted(items, steps, current);
    CountConnectors(items, steps, current);
    CountGreen(items, steps, current);
  }

  lemma CountCompleted(items: seq<StepItem>, steps: seq<string>, current: int)
    requires 1 <= current <= |steps| && |items| == |steps|
    requires forall i :: 0 <= i < |items| ==> items[i] == Item(steps, current, i)
    ensures |Seqs.Filter(items, IsCompleted)| == current - 1
  {
    Seqs.FilterPrefixCount(items, IsCompleted, current - 1);
  }

  lemma CountConnectors(items: seq<StepItem>, steps: seq<string>, current: int)
    requires 1 <= current <= |steps| && |items| == |steps|
    requires forall i :: 0 <= i < |items| ==> items[i] == Item(steps, current, i)
    ensures |Seqs.Filter(items, HasConnector)| == |steps| - 1
  {
    Seqs.FilterPrefixCount(items, HasConnector, |steps| - 1);
  }

  lemma CountGreen(items: seq<StepItem>, steps: seq<string>, current: int)
    requires 1 <= current <= |steps| && |items| == |steps|
    requires forall i :: 0 <= i < |items| ==> items[i] == Item(steps, current, i)
    ensures |Seqs.Filter(items, HasGreenConnector)| == current - 1
  {
    Seqs.FilterPrefixCount(items, HasGreenConnector, current - 1);
  }

  /** On a step number outside the steps no circle is active. */
  lemma NoActiveOutOfRange(steps: seq<string>, current: int)
    requires current < 1 || current > |steps|
    ensures Seqs.Filter(Indicator(steps, current), IsActive) == []
  {
    Seqs.FilterNone(Indicator(steps, current), IsActive);
  }
}
