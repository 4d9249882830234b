/** The dose-plan ledger: the editable, ordered list of (daily dose, weeks)
    periods that one session owns, its three edits (append a default row,
    remove a row, overwrite a row) and the evaluation of the plan against a
    patient weight. The list is never empty, which is what makes the lookup
    of the last period and the division of the projection safe. */
module DosePlans {
  import opened Dosing

  /** The ledger's invariant: at least one row, and every row within the
      bounds of the dose and duration widgets. */
  predicate ValidPlan(plan: seq<Period>) {
    plan != [] && AllInBounds(plan)
  }

  /** The position Python's `list.pop(index)` removes: a negative index
      counts from the end. */
  function PopPosition(len: nat, index: int): (k: nat)
    requires -(len as int) <= index < len
    ensures k < len
    ensures index >= 0 ==> k == index
    ensures index < 0 ==> k + (-index) == len
  {
    if index < 0 then len + index else index
  }

  /** The plan after `remove_dose(index)`: the row at `index` goes when more
      than one row exists, otherwise nothing changes. */
  function AfterRemove(plan: seq<Period>, index: int): (r: seq<Period>)
    requires |plan| > 1 ==> -|plan| <= index < |plan|
    ensures |plan| <= 1 ==> r == plan
    ensures |plan| > 1 ==> |r| == |plan| - 1
    ensures |plan| > 1 ==>
      var k := PopPosition(|plan|, index);
      (forall j :: 0 <= j < k ==> r[j] == plan[j]) &&
      (forall j :: k <= j < |r| ==> r[j] == plan[j + 1])
    ensures plan != [] ==> r != []
  {
    if |plan| > 1 then
      var k := PopPosition(|plan|, index);
      plan[..k] + plan[k + 1..]
    else
      plan
  }

  /** The plan after the row update: row `row` takes the edited values if
      that row still exists; otherwise the plan is unchanged. */
  function AfterUpdate(plan: seq<Period>, row: nat, p: Period): (r: seq<Period>)
    ensures |r| == |plan|
    ensures row < |plan| ==> r[row] == p
    ensures forall j :: 0 <= j < |r| && j != row ==> r[j] == plan[j]
  {
    if row < |plan| then plan[row := p] else plan
  }

  /** Removing a row keeps the remaining rows and adds none. */
  lemma AfterRemoveIsSubMultiset(plan: seq<Period>, index: int)
    requires |plan| > 1 ==> -|plan| <= index < |plan|
    ensures multiset(AfterRemove(plan, index)) <= multiset(plan)
    ensures |plan| > 1 ==>
      multiset(AfterRemove(plan, index)) + multiset{plan[PopPosition(|plan|, index)]} == multiset(plan)
  {
    if |plan| > 1 {
      var k := PopPosition(|plan|, index);
      assert plan == plan[..k] + [plan[k]] + plan[k + 1..];
    }
  }

  /** Appending the default row raises the cumulative dose by exactly
      20 mg * 7 days * 4 weeks = 560 mg. */
  lemma AddDefaultRaisesTotal(plan: seq<Period>)
    ensures TotalDose(plan + [DefaultPeriod]) == TotalDose(plan) + 560
  {
    TotalDoseSnoc(plan, DefaultPeriod);
  }

  /** Removing a row lowers the cumulative dose by exactly that row's dose,
      and by nothing when only one row exists. */
  lemma AfterRemoveTotal(plan: seq<Period>, index: int)
    requires |plan| > 1 ==> -|plan| <= index < |plan|
    ensures TotalDose(AfterRemove(plan, index)) ==
      if |plan| > 1 then TotalDose(plan) - PeriodDose(plan[PopPosition(|plan|, index)])
      else TotalDose(plan)
  {
    if |plan| > 1 {
      TotalDoseRemove(plan, PopPosition(|plan|, index));
    }
  }

  /** Appending the default row keeps the ledger's invariant. */
  lemma AddKeepsValid(plan: seq<Period>)
    requires ValidPlan(plan)
    ensures ValidPlan(plan + [DefaultPeriod])
  {
  }

  /** Removing a row keeps the ledger's invariant, whatever the index when
      only one row exists. */
  lemma RemoveKeepsValid(plan: seq<Period>, index: int)
    requires ValidPlan(plan)
    requires |plan| > 1 ==> -|plan| <= index < |plan|
    ensures ValidPlan(AfterRemove(plan, index))
  {
    var r := AfterRemove(plan, index);
    if |plan| > 1 {
      var k := PopPosition(|plan|, index);
      forall j | 0 <= j < |r| ensures InBounds(r[j]) {
        if j < k { assert r[j] == plan[j]; } else { assert r[j] == plan[j + 1]; }
      }
    }
  }

  /** Overwriting a row with in-bounds values keeps the ledger's invariant. */
  lemma UpdateKeepsValid(plan: seq<Period>, row: nat, p: Period)
    requires ValidPlan(plan)
    requires InBounds(p)
    ensures ValidPlan(AfterUpdate(plan, row, p))
  {
  }

  /** One user action on the ledger. */
  datatype Edit = Add | Remove(index: int) | Update(row: nat, period: Period)

  /** Whether the source performs the edit without an error: a removal index
      must be one `list.pop` accepts when it actually pops, and edited values
      come from the bounded widgets. */
  predicate Admissible(plan: seq<Period>, e: Edit) {
    match e
    case Add => true
    case Remove(index) => |plan| > 1 ==> -|plan| <= index < |plan|
    case Update(_, p) => InBounds(p)
  }

  function Apply(plan: seq<Period>, e: Edit): seq<Period>
    requires Admissible(plan, e)
  {
    match e
    case Add => plan + [DefaultPeriod]
    case Remove(index) => AfterRemove(plan, index)
    case Update(row, p) => AfterUpdate(plan, row, p)
  }

  /** Every edit of the sequence is admissible when it comes. */
  predicate Replayable(plan: seq<Period>, edits: seq<Edit>)
    decreases |edits|
  {
    edits == [] ||
    (Admissible(plan, edits[0]) && Replayable(Apply(plan, edits[0]), edits[1..]))
  }

  function Replay(plan: seq<Period>, edits: seq<Edit>): seq<Period>
    requires Replayable(plan, edits)
    decreases |edits|
  {
    if edits == [] then plan else Replay(Apply(plan, edits[0]), edits[1..])
  }

  /** Whatever the user does, starting from a valid ledger, the ledger never
      becomes empty and every row stays within the widget bounds. */
  lemma {:induction false} ReplayKeepsValid(plan: seq<Period>, edits: seq<Edit>)
    requires ValidPlan(plan)
    requires Replayable(plan, edits)
    ensures ValidPlan(Replay(plan, edits))
    decreases |edits|
  {
    if edits != [] {
      var e := edits[0];
      match e {
        case Add => AddKeepsValid(plan);
        case Remove(index) => RemoveKeepsValid(plan, index);
        case Update(row, p) => UpdateKeepsValid(plan, row, p);
      }
      ReplayKeepsValid(Apply(plan, e), edits[1..]);
    }
  }

  /** What the page shows after "Calculate". */
  datatype Evaluation = Evaluation(
    cumulative: int,
    target: int,
    remaining: int,
    weeksNeeded: Option<real>)

  /** The session's dose plan, updated in place by the page's buttons and
      inputs. */
  class DosePlan {
    var periods: seq<Period>

    ghost predicate Valid()
      reads this
    {
      ValidPlan(periods)
    }

    /** A new session starts with one row of 20 mg/day for 4 weeks. */
    constructor ()
      ensures Valid()
      ensures periods == [DefaultPeriod]
    {
      periods := [DefaultPeriod];
    }

    /** `add_dose`: append a default row. */
    method AddDose()
      requires Valid()
      modifies this
      ensures Valid()
      ensures periods == old(periods) + [DefaultPeriod]
      ensures |periods| == old(|periods|) + 1
      ensures TotalDose(periods) == old(TotalDose(periods)) + 560
    {
      AddDefaultRaisesTotal(periods);
      AddKeepsValid(periods);
      periods := periods + [DefaultPeriod];
    }

    /** `remove_dose(index)`: pop the row at `index` when more than one row
        exists; a lone row is never removed. */
    method RemoveDose(index: int)
      requires Valid()
      requires |periods| > 1 ==> -|periods| <= index < |periods|
      modifies this
      ensures Valid()
      ensures periods == AfterRemove(old(periods), index)
      ensures old(|periods|) > 1 ==> |periods| == old(|periods|) - 1
      ensures old(|periods|) == 1 ==> periods == old(periods)
    {
      RemoveKeepsValid(periods, index);
      if |periods| > 1 {
        var k := PopPosition(|periods|, index);
        periods := periods[..k] + periods[k + 1..];
      }
    }

    /** The row update of the edit pass: row `row` takes the values read
        from its widgets, but only while that row still exists. */
    method UpdateRow(row: nat, dose: int, weeks: int)
      requires Valid()
      requires InBounds(Period(dose, weeks))
      modifies this
      ensures Valid()
      ensures periods == AfterUpdate(old(periods), row, Period(dose, weeks))
    {
      UpdateKeepsValid(periods, row, Period(dose, weeks));
      if row < |periods| {
        periods := periods[row := Period(dose, weeks)];
      }
    }

    /** "Calculate": evaluate the plan against the patient weight, and
        project the weeks still needed at the last period's dose when the
        target is not yet reached. */
    method Evaluate(weightKg: int) returns (e: Evaluation)
      requires Valid()
      ensures e.cumulative == TotalDose(periods)
      ensures e.target == TargetDose(weightKg)
      ensures e.cumulative + e.remaining == e.target
      ensures e.weeksNeeded.Some? <==> e.remaining > 0
      ensures e.weeksNeeded.Some? ==>
        e.weeksNeeded.value * ((periods[|periods| - 1].dose * DaysPerWeek) as real) == e.remaining as real
      ensures e.weeksNeeded.Some? ==> e.weeksNeeded.value > 0.0
    {
      var cumulative, target, remaining := Calculate(weightKg, periods);
      e := Evaluation(cumulative, target, remaining, Projection(remaining, periods));
    }
  }

  /** Two sample sessions: a new 60 kg session, still short of its target,
      and a 50 kg plan of 40 mg for 8 weeks then 60 mg for 10 weeks, which
      overshoots its target. */
  method Examples() {
    var plan := new DosePlan();
    var e := plan.Evaluate(60);
    assert e.cumulative == 560 && e.target == 7200 && e.remaining == 6640;
    assert e.weeksNeeded.value * 140.0 == 6640.0;

    plan.UpdateRow(0, 40, 8);
    plan.AddDose();
    plan.UpdateRow(1, 60, 10);
    assert plan.periods == [Period(40, 8), Period(60, 10)];
    e := plan.Evaluate(50);
    assert e.cumulative == 6440 && e.target == 6000 && e.remaining == -440;
    assert e.weeksNeeded == None;

    plan.RemoveDose(1);
    plan.RemoveDose(0);
    assert plan.periods == [Period(40, 8)];
  }
}
