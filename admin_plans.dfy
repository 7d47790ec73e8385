/**
  The admin plan editor: one plan at a time is opened in a form holding its
  name, monthly price, an annual price and its feature list; saving writes the
  name, the monthly price and the features back through the plan table and
  reloads the list. Prices are whole numbers here (the form's text fields and
  `parseFloat` are not modelled).
 */
module AdminPlans {
  import opened Wrappers
  import opened Records
  import Tables
  import PlanService

  /** The edit form (`editForm`). */
  datatype EditForm = EditForm(name: string, monthlyPrice: int, annualPrice: int, features: seq<string>)

  const BlankForm := EditForm("", 0, 0, [])

  /** The annual price the page shows for a plan and pre-fills in its form. */
  function AnnualPrice(p: Plan): int {
    p.price * 10
  }

  /** `handleEditPlan`: the form opened on a plan. */
  function FormFor(p: Plan): (f: EditForm)
    ensures f.name == p.name && f.monthlyPrice == p.price && f.features == p.features
    ensures f.annualPrice == 10 * f.monthlyPrice
  {
    EditForm(p.name, p.price, AnnualPrice(p), p.features)
  }

  /** `handleAddFeature`: a blank feature at the end. */
  function Appended(features: seq<string>): (r: seq<string>)
    ensures |r| == |features| + 1 && r[..|features|] == features && r[|features|] == ""
  {
    features + [""]
  }

  /** `handleUpdateFeature`: `map((feature, i) => i === index ? value : feature)`. */
  function UpdatedAt(features: seq<string>, index: int, value: string): (r: seq<string>)
    ensures 0 <= index < |features| ==> r == features[index := value]
    ensures !(0 <= index < |features|) ==> r == features
  {
    seq(|features|, i requires 0 <= i < |features| => if i == index then value else features[i])
  }

  /**
    `handleRemoveFeature`: `filter((_, i) => i !== index)`, walked from the
    front with the index counting down; an index outside the list removes
    nothing.
   */
  function RemovedAt(features: seq<string>, index: int): (r: seq<string>)
    ensures 0 <= index < |features| ==> r == features[..index] + features[index + 1..]
    ensures !(0 <= index < |features|) ==> r == features
    decreases |features|
  {
    if features == [] then []
    else
      var rest := RemovedAt(features[1..], index - 1);
      var r := (if index == 0 then [] else [features[0]]) + rest;
      assert 0 < index < |features| ==> r == features[..index] + features[index + 1..] by {
        if 0 < index < |features| {
          assert features[1..][..index - 1] + features[1..][index..] == rest;
          assert features[..index] == [features[0]] + features[1..][..index - 1];
        }
      }
      assert !(0 <= index < |features|) ==> r == features by {
        if !(0 <= index < |features|) {
          assert r == [features[0]] + features[1..];
        }
      }
      r
  }

  /** Adding a feature and removing it again restores the list, and writing back a feature changes nothing. */
  lemma FeatureEditsUndo(features: seq<string>, index: int)
    ensures RemovedAt(Appended(features), |features|) == features
    ensures 0 <= index < |features| ==> UpdatedAt(features, index, features[index]) == features
  {
    assert Appended(features)[..|features|] == features;
  }

  /**
    The changes `handleSavePlan` sends: the page's copy of the plan
    (`plans.find(p => p.Id === editingPlan)`, when there is one) with the
    form's name, monthly price and features on top. The annual price is not
    sent.
   */
  function SavePatch(found: Option<Plan>, f: EditForm): (u: PlanService.PlanPatch)
    ensures u.name == Some(f.name) && u.price == Some(f.monthlyPrice) && u.features == Some(f.features)
    ensures found.None? ==> u == PlanService.NoChanges.(name := u.name, price := u.price, features := u.features)
    ensures found.Some? ==> (u.Id == Some(found.value.Id) && u.interval == Some(found.value.interval)
      && u.serviceFrequency == Some(found.value.serviceFrequency) && u.isActive == Some(found.value.isActive))
  {
    match found
    case None =>
      PlanService.PlanPatch(None, Some(f.name), Some(f.monthlyPrice), None, Some(f.features), None, None)
    case Some(p) =>
      PlanService.PlanPatch(Some(p.Id), Some(f.name), Some(f.monthlyPrice), Some(p.interval),
        Some(f.features), Some(p.serviceFrequency), Some(p.isActive))
  }

  /**
    Opening a plan and saving without touching the form writes back the
    page's copy of that plan exactly, whatever is stored; and the annual price
    field has no effect on what is saved.
   */
  lemma {:induction false} SaveRoundTrip(stored: Plan, p: Plan, f: EditForm, annual: int)
    ensures PlanService.Merge(stored, SavePatch(Some(p), FormFor(p))) == p
    ensures SavePatch(Some(p), f.(annualPrice := annual)) == SavePatch(Some(p), f)
    ensures SavePatch(None, f.(annualPrice := annual)) == SavePatch(None, f)
  {
    var u := SavePatch(Some(p), FormFor(p));
    assert u.interval == Some(p.interval) && u.serviceFrequency == Some(p.serviceFrequency);
  }

  /** The plan page's state. */
  class PlanEditor {
    var plans: seq<Plan>          // the list as last loaded (active plans)
    var editing: Option<int>      // `editingPlan`
    var form: EditForm            // `editForm`

    /** The page opens with no plan being edited and a blank form. */
    constructor ()
      ensures plans == [] && editing.None? && form == BlankForm
    {
      plans := [];
      editing := None;
      form := BlankForm;
    }

    /** `loadPlans`: the active plans, in storage order. */
    method LoadPlans(table: PlanService.PlanTable)
      modifies this
      ensures plans == PlanService.Active(table.rows)
      ensures forall p :: p in plans <==> p in table.rows && p.isActive
      ensures editing == old(editing) && form == old(form)
    {
      plans := table.GetAll();
    }

    /** `handleEditPlan`. */
    method EditPlan(p: Plan)
      modifies this
      ensures editing == Some(p.Id) && form == FormFor(p) && plans == old(plans)
    {
      editing := Some(p.Id);
      form := FormFor(p);
    }

    /** `handleCancelEdit`. */
    method CancelEdit()
      modifies this
      ensures editing.None? && form == BlankForm && plans == old(plans)
    {
      editing := None;
      form := BlankForm;
    }

    method AddFeature()
      modifies this
      ensures form == old(form).(features := Appended(old(form).features))
      ensures editing == old(editing) && plans == old(plans)
    {
      form := form.(features := Appended(form.features));
    }

    method UpdateFeature(index: int, value: string)
      modifies this
      ensures form == old(form).(features := UpdatedAt(old(form).features, index, value))
      ensures editing == old(editing) && plans == old(plans)
    {
      form := form.(features := UpdatedAt(form.features, index, value));
    }

    method RemoveFeature(index: int)
      modifies this
      ensures form == old(form).(features := RemovedAt(old(form).features, index))
      ensures editing == old(editing) && plans == old(plans)
    {
      form := form.(features := RemovedAt(form.features, index));
    }

    /**
      `handleSavePlan` (offered only while a plan is open): merges the form into
      the stored plan with that `Id`; on success reloads the list and closes the
      form, on failure (the `Id` is no longer stored) keeps the form open and
      changes nothing. The saved plan keeps its `Id`, so stored `Id`s stay
      distinct.
     */
    method SavePlan(table: PlanService.PlanTable) returns (saved: bool)
      requires editing.Some?
      modifies this, table
      ensures var id := old(editing).value;
        var u := SavePatch(Tables.Lookup(old(plans), PlanService.Key, id), old(form));
        match Tables.FirstIndex(PlanService.Ids(old(table.rows)), id)
        case None => !saved && table.rows == old(table.rows) && plans == old(plans) && editing == old(editing)
        case Some(k) => (saved && table.rows == old(table.rows)[k := PlanService.Merge(old(table.rows)[k], u)]
          && plans == PlanService.Active(table.rows) && editing.None?)
      ensures saved ==> (
        var k := Tables.FirstIndex(PlanService.Ids(old(table.rows)), old(editing).value).value;
        table.rows[k].Id == old(editing).value && table.rows[k].name == old(form).name
        && table.rows[k].price == old(form).monthlyPrice && table.rows[k].features == old(form).features)
      ensures form == old(form)
      ensures old(table.Valid()) ==> table.Valid()
    {
      var id := editing.value;
      var found := Tables.Lookup(plans, PlanService.Key, id);
      var u := SavePatch(found, form);
      ghost var before := table.rows;
      var r := table.Update(id, u);
      if r.Success? {
        var k := Tables.FirstIndex(PlanService.Ids(before), id).value;
        assert PlanService.Merge(before[k], u).Id == id;
        Tables.ReplaceKeepsIds(before, PlanService.Key, k, PlanService.Merge(before[k], u));
        plans := table.GetAll();
        editing := None;
        saved := true;
      } else {
        saved := false;
      }
    }
  }
}
