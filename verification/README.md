# Isotretinoin cumulative-dose calculator — verified model

The calculator tracks a patient's cumulative isotretinoin dose against a
weight-based target of 120 mg/kg. The clinician enters a weight and a
treatment plan, which is an ordered list of periods. Each period is a daily
dose in mg and a duration in weeks. The calculator then reports:

- the cumulative dose, the sum of `dose * 7 * weeks` over the periods;
- the target dose;
- the remaining dose, which may be negative;
- when some dose remains, the weeks still needed at the last period's daily
  dose.

The model has two modules:

- `Dosing` (`dosing.dfy`) is the evaluator. `Period` is the value type.
  `TotalDose` is the recursive specification of the cumulative dose.
  `Calculate` is the summing loop of `isotretinoin_calculator`, proved
  against `TotalDose`. `Projection` is the weeks-still-needed step. The
  lemmas cover how the sum behaves under append, removal, replacement and
  reordering, and its bounds under the input widgets' limits.
- `DosePlans` (`dose_plan.dfy`) is the session's dose-plan ledger. The class
  `DosePlan` holds the `periods` list and updates it in place through
  `AddDose`, `RemoveDose` and `UpdateRow`. Each method keeps the invariant
  `Valid()`: the list is never empty, and every row is within the widget
  bounds. `Evaluate` is the "Calculate" button. Its result is well defined
  because of that invariant. `AfterRemove` and `AfterUpdate` state the new
  list in terms of the old one. `ReplayKeepsValid` shows that no sequence of
  edits empties the ledger.

Python integers are unbounded, so the model uses Dafny `int` with no
wrap-around. The one non-integer step, `remaining / (dose * 7)`, is an
exact Dafny `real`.

## Model

| member | source | states |
|---|---|---|
| Dosing.Calculate | streamlit_app.py:4-13 | the loop's cumulative dose is the sum of `dose * 7 * weeks` over every period; the target is 120 mg per kg; cumulative plus remaining equals the target exactly, with no rounding and no sign restriction |
| Dosing.TotalDoseAppend | streamlit_app.py:9-10 | the cumulative dose of two plans joined end to end is the sum of their cumulative doses |
| Dosing.TotalDoseSnoc | streamlit_app.py:9-10 | appending one period adds exactly that period's `dose * 7 * weeks` |
| Dosing.TotalDoseOrderIndependent | streamlit_app.py:8-10 | two plans holding the same periods in any order have the same cumulative dose |
| Dosing.TotalDoseRemove | streamlit_app.py:30-32 | removing the period at a position lowers the cumulative dose by exactly that period's dose |
| Dosing.TotalDoseReplace | streamlit_app.py:53-54 | overwriting a row changes the cumulative dose by the new row's dose minus the old row's dose |
| Dosing.PeriodDoseBounds | streamlit_app.py:41-43 | with a dose of 1–100 mg and a duration of 1–52 weeks, one period delivers between 7 and 36400 mg |
| Dosing.TotalDoseBounds | streamlit_app.py:9-10 | when every period is within the widget bounds, the cumulative dose is between `7 * len(plan)` and `36400 * len(plan)` |
| Dosing.TargetDoseBounds | streamlit_app.py:19 | for a weight of 1–200 kg, the target lies in [120, 24000] mg |
| Dosing.Projection | streamlit_app.py:75-83 | a projection exists exactly when the remaining dose is positive; weeks times `last_dose * 7` equals the remaining dose; the weeks are positive when the last dose is; the plan must be non-empty with a non-zero last dose only on the positive branch |
| DosePlans.PopPosition | streamlit_app.py:32 | `list.pop` removes a valid position; a negative index counts from the end |
| DosePlans.AfterRemove | streamlit_app.py:30-32 | with more than one row, exactly the row at the index goes and the rest keep their order, so the length drops by one; with one row nothing changes; a non-empty plan stays non-empty |
| DosePlans.AfterUpdate | streamlit_app.py:53-54 | the row update replaces only the row at the index, and only when that row exists; the length and all other rows are unchanged |
| DosePlans.AfterRemoveIsSubMultiset | streamlit_app.py:30-32 | removal adds no row; with more than one row, the removed row plus the remaining rows are exactly the old rows |
| DosePlans.AddDefaultRaisesTotal | streamlit_app.py:26-27 | appending the default 20 mg × 4 weeks row raises the cumulative dose by exactly 560 mg |
| DosePlans.AfterRemoveTotal | streamlit_app.py:30-32 | a removal lowers the cumulative dose by the removed row's dose; it lowers it by nothing when only one row exists |
| DosePlans.AddKeepsValid | streamlit_app.py:26-27 | appending the default row keeps the plan non-empty, with every row within the widget bounds |
| DosePlans.RemoveKeepsValid | streamlit_app.py:30-32 | a removal keeps the plan non-empty, with every row within the widget bounds, for every index `list.pop` accepts and for any index when only one row exists |
| DosePlans.UpdateKeepsValid | streamlit_app.py:53-54 | overwriting a row with values within the widget bounds keeps the plan non-empty, with every row within the widget bounds |
| DosePlans.ReplayKeepsValid | streamlit_app.py:22-54 | starting from a valid plan, no sequence of admissible add, remove and update actions empties the plan or leaves a row outside the widget bounds |
| DosePlans.DosePlan.constructor | streamlit_app.py:22-23 | a new session's plan is exactly `[(20, 4)]` and satisfies the invariant |
| DosePlans.DosePlan.AddDose | streamlit_app.py:26-27 | the new plan is the old one with `(20, 4)` appended, one longer, and 560 mg heavier; the invariant is kept |
| DosePlans.DosePlan.RemoveDose | streamlit_app.py:30-32 | the new plan is the old one with the row at the index popped when more than one row existed, and unchanged otherwise; the plan is never empty |
| DosePlans.DosePlan.UpdateRow | streamlit_app.py:53-54 | the new plan is the old one with only the row at the index overwritten, when that row exists; the invariant is kept |
| DosePlans.DosePlan.Evaluate | streamlit_app.py:67-83 | the cumulative, target and remaining doses are as for `Calculate`; weeks needed are present exactly when the remaining dose is positive, are positive, and times `last_dose * 7` give the remaining dose |

## Left out

- Page rendering is not modelled: titles, columns, buttons, `st.write`,
  `st.markdown` and the disclaimer. These are calls into the UI library.
- Session-state persistence and `st.rerun()` are not modelled. The plan is a
  `DosePlan` object that the caller owns.
- The render loop over the rows (streamlit_app.py:38-54) is not modelled as a
  loop. It re-runs the page after a removal. Only its row update is modelled,
  as `UpdateRow`. The rule that shows a Remove button only for rows after the
  first is not modelled either. `RemoveDose` allows any index that `list.pop`
  accepts.
- Widget clamping by `st.number_input` is not modelled. The bounds become
  preconditions instead: on `UpdateRow` for dose and weeks, and on the bounds
  lemmas for weight.
- `round(weeks_needed, 1)` and the float formatting of the output are not
  modelled. `Projection` yields the exact quotient as a `real`, not a binary
  float.
- A removal at an index outside the list makes Python raise `IndexError`.
  The model excludes this case with a precondition.
- `weeks_needed` is computed only at display time (streamlit_app.py:80) and
  rounded only for printing (streamlit_app.py:81). `Calculate` returns the
  three values of `isotretinoin_calculator`, and `Evaluate` adds the exact
  projection.
