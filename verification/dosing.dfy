/** The dose evaluator of the isotretinoin cumulative-dose calculator:
    the weight-based target, the cumulative dose delivered by a plan of
    (daily dose, weeks) periods, the remaining dose, and the projection of
    how many more weeks the last daily dose needs to reach the target.
    All quantities are mg (doses) and whole weeks; Python integers are
    unbounded, so Dafny's `int` models them without wrap-around. */
module Dosing {

  datatype Option<T> = None | Some(value: T)

  /** One constant-dose phase of treatment: `dose` mg per day for `weeks` weeks. */
  datatype Period = Period(dose: int, weeks: int)

  const DaysPerWeek := 7
  /** The target is 120 mg per kg of body weight. */
  const MgPerKg := 120

  // Bounds enforced by the input widgets.
  const MinWeightKg := 1
  const MaxWeightKg := 200
  const MinDose := 1
  const MaxDose := 100
  const MinWeeks := 1
  const MaxWeeks := 52

  /** The period a new plan row starts with: 20 mg/day for 4 weeks. */
  const DefaultPeriod := Period(20, 4)

  /** A period whose values the dose and duration widgets can produce. */
  predicate InBounds(p: Period) {
    MinDose <= p.dose <= MaxDose && MinWeeks <= p.weeks <= MaxWeeks
  }

  predicate AllInBounds(plan: seq<Period>) {
    forall k :: 0 <= k < |plan| ==> InBounds(plan[k])
  }

  /** mg delivered by one period: daily dose times days per week times weeks. */
  function PeriodDose(p: Period): int {
    p.dose * DaysPerWeek * p.weeks
  }

  /** The cumulative dose of a plan, as the sum of its periods' doses.
      It peels off the last period, so that summing the plan front to back
      extends the sum of a prefix by one term at a time. */
  function TotalDose(plan: seq<Period>): int
    decreases |plan|
  {
    if plan == [] then 0
    else TotalDose(plan[..|plan| - 1]) + PeriodDose(plan[|plan| - 1])
  }

  function TargetDose(weightKg: int): int {
    MgPerKg * weightKg
  }

  /** The calculator itself: one pass over the plan that accumulates the
      cumulative dose, then target and remaining dose. */
  method Calculate(weightKg: int, plan: seq<Period>)
    returns (cumulative: int, target: int, remaining: int)
    ensures cumulative == TotalDose(plan)
    ensures target == TargetDose(weightKg)
    ensures cumulative + remaining == target
  {
    target := MgPerKg * weightKg;
    cumulative := 0;
    var i := 0;
    while i < |plan|
      invariant 0 <= i <= |plan|
      invariant cumulative == TotalDose(plan[..i])
    {
      assert plan[..i + 1][..i] == plan[..i];
      cumulative := cumulative + plan[i].dose * DaysPerWeek * plan[i].weeks;
      i := i + 1;
    }
    assert plan[..i] == plan;
    remaining := target - cumulative;
  }

  /** Weeks still needed at the last period's daily dose, present only when
      some dose remains. The lookup of the last period and the division need
      a non-empty plan whose last dose is not zero, but only on that branch. */
  function Projection(remaining: int, plan: seq<Period>): (r: Option<real>)
    requires remaining > 0 ==> plan != [] && plan[|plan| - 1].dose != 0
    ensures r.Some? <==> remaining > 0
    ensures r.Some? ==>
      r.value * ((plan[|plan| - 1].dose * DaysPerWeek) as real) == remaining as real
    ensures r.Some? && plan[|plan| - 1].dose > 0 ==> r.value > 0.0
  {
    if remaining > 0 then
      Some((remaining as real) / ((plan[|plan| - 1].dose * DaysPerWeek) as real))
    else
      None
  }

  /** The sum of a concatenation is the sum of its parts. */
  lemma {:induction false} TotalDoseAppend(a: seq<Period>, b: seq<Period>)
    ensures TotalDose(a + b) == TotalDose(a) + TotalDose(b)
    decreases |b|
  {
    if b == [] {
      assert a + b == a;
    } else {
      var b' := b[..|b| - 1];
      assert (a + b)[..|a + b| - 1] == a + b';
      TotalDoseAppend(a, b');
    }
  }

  /** Appending a period adds exactly that period's dose. */
  lemma TotalDoseSnoc(plan: seq<Period>, p: Period)
    ensures TotalDose(plan + [p]) == TotalDose(plan) + PeriodDose(p)
  {
    assert (plan + [p])[..|plan + [p]| - 1] == plan;
  }

  /** Removing the period at `i` takes away exactly its dose. */
  lemma TotalDoseRemove(plan: seq<Period>, i: nat)
    requires i < |plan|
    ensures TotalDose(plan[..i] + plan[i + 1..]) == TotalDose(plan) - PeriodDose(plan[i])
  {
    var front, x, back := plan[..i], plan[i], plan[i + 1..];
    assert plan == front + ([x] + back);
    TotalDoseAppend(front, [x] + back);
    TotalDoseAppend([x], back);
    TotalDoseAppend(front, back);
    assert TotalDose([x]) == PeriodDose(x) by {
      assert [x][..0] == [];
    }
  }

  /** Replacing the period at `i` by `p` changes the sum by the difference of
      the two periods' doses. */
  lemma TotalDoseReplace(plan: seq<Period>, i: nat, p: Period)
    requires i < |plan|
    ensures TotalDose(plan[i := p]) == TotalDose(plan) - PeriodDose(plan[i]) + PeriodDose(p)
  {
    var updated := plan[i := p];
    assert updated[..i] + updated[i + 1..] == plan[..i] + plan[i + 1..];
    TotalDoseRemove(plan, i);
    TotalDoseRemove(updated, i);
  }

  /** The cumulative dose does not depend on the order of the periods:
      any two plans holding the same periods have the same sum. */
  lemma {:induction false} TotalDoseOrderIndependent(a: seq<Period>, b: seq<Period>)
    requires multiset(a) == multiset(b)
    ensures TotalDose(a) == TotalDose(b)
    decreases |a|
  {
    if a == [] {
      assert |b| == |multiset(b)| == 0;
    } else {
      var x := a[|a| - 1];
      var a' := a[..|a| - 1];
      assert a == a' + [x];
      assert x in multiset(b);
      var j :| 0 <= j < |b| && b[j] == x;
      var b' := b[..j] + b[j + 1..];
      assert b == b[..j] + [x] + b[j + 1..];
      assert multiset(a') == multiset(a) - multiset{x};
      assert multiset(b') == multiset(b) - multiset{x};
      TotalDoseOrderIndependent(a', b');
      TotalDoseSnoc(a', x);
      TotalDoseRemove(b, j);
    }
  }

  /** Under the widget bounds one period delivers between 7 and 36400 mg. */
  lemma PeriodDoseBounds(p: Period)
    requires InBounds(p)
    ensures DaysPerWeek <= PeriodDose(p) <= MaxDose * DaysPerWeek * MaxWeeks
  {
    assert p.dose * p.weeks >= 1 * p.weeks by {
      assert (p.dose - 1) * p.weeks >= 0;
    }
    assert p.dose * p.weeks <= MaxDose * p.weeks by {
      assert (MaxDose - p.dose) * p.weeks >= 0;
    }
  }

  /** Under the widget bounds the cumulative dose is at least 7 mg and at
      most 36400 mg per period of the plan. */
  lemma {:induction false} TotalDoseBounds(plan: seq<Period>)
    requires AllInBounds(plan)
    ensures DaysPerWeek * |plan| <= TotalDose(plan)
    ensures TotalDose(plan) <= MaxDose * DaysPerWeek * MaxWeeks * |plan|
    decreases |plan|
  {
    if plan != [] {
      TotalDoseBounds(plan[..|plan| - 1]);
      PeriodDoseBounds(plan[|plan| - 1]);
    }
  }

  /** Under the weight widget's bounds the target lies in [120, 24000] mg. */
  lemma TargetDoseBounds(weightKg: int)
    requires MinWeightKg <= weightKg <= MaxWeightKg
    ensures MgPerKg <= TargetDose(weightKg) <= MgPerKg * MaxWeightKg
  {
  }
}
