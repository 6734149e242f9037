/** The production goals page: goal status from current and target values,
    the goal list that the dialog edits, creates into and deletes from, the
    period filter, the summary counters, per-goal progress and the overall
    progress shown at the top. Values are the numbers `parseFloat` produced
    from the form, as reals. */
module Metas {
  import opened Wrappers
  import opened Seqs
  import opened Strings

  datatype GoalPeriod = Daily | Weekly | Monthly | Annual

  datatype GoalStatus = OnTrack | AtRisk | Behind | Completed | Exceeded

  datatype Goal = Goal(
    id: string,
    name: string,
    description: string,
    period: GoalPeriod,
    targetValue: real,
    currentValue: real,
    unit: string,
    startDate: string,
    endDate: string,
    status: GoalStatus,
    machineId: Option<string>,
    skuId: Option<string>)

  /** The dialog's form. Target and current stay text until saving. */
  datatype GoalForm = GoalForm(
    name: string,
    description: string,
    period: GoalPeriod,
    targetValue: string,
    currentValue: string,
    unit: string,
    startDate: string,
    endDate: string)

  /** The form after `resetForm`. */
  const EmptyForm := GoalForm("", "", Daily, "", "", "unidades", "", "")

  // ----- Status -----

  /** `calculateStatus(current, target)`. A zero target divides by zero as
      JavaScript does: a positive current gives +Infinity ("exceeded"), zero
      gives NaN and a negative current -Infinity, both of which fail every
      comparison ("behind"). */
  function CalculateStatus(current: real, target: real): (r: GoalStatus)
    ensures r != Completed
  {
    if target == 0.0 then
      if current > 0.0 then Exceeded else Behind
    else
      var percentage := current / target * 100.0;
      if percentage >= 100.0 then Exceeded
      else if percentage >= 90.0 then OnTrack
      else if percentage >= 70.0 then AtRisk
      else Behind
  }

  /** For a positive target the status is decided by how `current` compares
      with 100 %, 90 % and 70 % of the target; for a zero target only a
      positive current counts as exceeded. */
  lemma StatusThresholds(current: real, target: real)
    ensures target > 0.0 ==>
      && (CalculateStatus(current, target) == Exceeded <==> current >= target)
      && (CalculateStatus(current, target) == OnTrack <==> 10.0 * current >= 9.0 * target && current < target)
      && (CalculateStatus(current, target) == AtRisk <==> 10.0 * current >= 7.0 * target && 10.0 * current < 9.0 * target)
      && (CalculateStatus(current, target) == Behind <==> 10.0 * current < 7.0 * target)
    ensures target == 0.0 ==>
      (CalculateStatus(current, target) == Exceeded <==> current > 0.0) &&
      (CalculateStatus(current, target) != Exceeded ==> CalculateStatus(current, target) == Behind)
  {
    if target > 0.0 {
      var percentage := current / target * 100.0;
      assert percentage * target == current * 100.0;
      PercentageCompare(current, target, 100.0);
      PercentageCompare(current, target, 90.0);
      PercentageCompare(current, target, 70.0);
    }
  }

  /** `current / target * 100 >= k` is `100 * current >= k * target` for a
      positive target. */
  lemma PercentageCompare(current: real, target: real, k: real)
    requires target > 0.0
    ensures current / target * 100.0 >= k <==> 100.0 * current >= k * target
  {
    var q := current / target;
    assert q * target == current;
    if q * 100.0 >= k {
      assert q * 100.0 * target >= k * target;
    } else {
      assert q * 100.0 * target < k * target;
    }
  }

  /** Behind < at risk < on track < exceeded; "completed" sits with
      "exceeded", as the page groups them. */
  function StatusRank(s: GoalStatus): nat {
    match s
    case Behind => 0
    case AtRisk => 1
    case OnTrack => 2
    case Completed => 3
    case Exceeded => 3
  }

  /** For a fixed positive target, more progress never lowers the status. */
  lemma StatusMonotone(c1: real, c2: real, target: real)
    requires target > 0.0 && c1 <= c2
    ensures StatusRank(CalculateStatus(c1, target)) <= StatusRank(CalculateStatus(c2, target))
  {
    StatusThresholds(c1, target);
    StatusThresholds(c2, target);
  }

  // ----- Progress -----

  /** `Math.min((current / target) * 100, 100)`: `None` stands for the
      non-finite values a zero target yields (NaN for a zero current,
      -Infinity for a negative one); a zero target with a positive current
      is +Infinity, clamped to 100. */
  function Progress(g: Goal): (p: Option<real>)
    ensures p.Some? ==> p.value <= 100.0
    ensures g.targetValue != 0.0 ==> p.Some?
    ensures g.targetValue > 0.0 && g.currentValue >= 0.0 ==> p.Some? && p.value >= 0.0
  {
    if g.targetValue == 0.0 then
      if g.currentValue > 0.0 then Some(100.0) else None
    else
      var v := g.currentValue / g.targetValue * 100.0;
      assert g.targetValue > 0.0 && g.currentValue >= 0.0 ==> v >= 0.0;
      Some(if v < 100.0 then v else 100.0)
  }

  /** Progress is full exactly when the computed status is "exceeded". */
  lemma ProgressFullIffExceeded(g: Goal)
    requires g.targetValue >= 0.0
    ensures Progress(g) == Some(100.0) <==> CalculateStatus(g.currentValue, g.targetValue) == Exceeded
  {
    if g.targetValue > 0.0 {
      StatusThresholds(g.currentValue, g.targetValue);
      PercentageCompare(g.currentValue, g.targetValue, 100.0);
    }
  }

  /** The progress values added up left to right, as `reduce` does; `None`
      once a non-finite value enters the sum. */
  function ProgressSum(goals: seq<Goal>): (s: Option<real>)
    ensures s.Some? ==> s.value <= 100.0 * |goals| as real
    ensures s.Some? <==> forall i :: 0 <= i < |goals| ==> Progress(goals[i]).Some?
  {
    if goals == [] then Some(0.0)
    else
      var last := goals[|goals| - 1];
      var init := ProgressSum(goals[..|goals| - 1]);
      if init.Some? && Progress(last).Some? then Some(init.value + Progress(last).value)
      else None
  }

  /** `overallProgress`: the mean of the clamped progress values. An empty
      list divides zero by zero (NaN), which is `None` like every other
      non-finite result. */
  function OverallProgress(goals: seq<Goal>): (p: Option<real>)
    ensures p.Some? <==> goals != [] && forall i :: 0 <= i < |goals| ==> Progress(goals[i]).Some?
    ensures p.Some? ==> p.value <= 100.0
  {
    var s := ProgressSum(goals);
    if goals == [] || s.None? then None
    else
      var n := |goals| as real;
      assert s.value / n <= 100.0 by {
        assert s.value <= 100.0 * n;
        assert (s.value / n) * n == s.value;
      }
      Some(s.value / n)
  }

  // ----- The card footer -----

  datatype Footer = NoFooter | Remaining(amount: real) | GoalReached

  /** "Faltan: n" when something remains and the goal is not done, "Meta
      alcanzada" when it is exceeded or completed. */
  function CardFooter(g: Goal): (f: Footer)
    ensures f.GoalReached? <==> g.status == Exceeded || g.status == Completed
    ensures f.Remaining? ==> f.amount > 0.0 && f.amount == g.targetValue - g.currentValue
  {
    if g.status == Exceeded || g.status == Completed then GoalReached
    else if g.targetValue - g.currentValue > 0.0 then Remaining(g.targetValue - g.currentValue)
    else NoFooter
  }

  /** For a goal whose status was computed on saving, with a positive target,
      the footer reports the remainder exactly when the target is not reached,
      and "reached" otherwise: the "no footer" case cannot occur. */
  lemma SavedGoalFooter(g: Goal)
    requires g.targetValue > 0.0
    requires g.status == CalculateStatus(g.currentValue, g.targetValue)
    ensures CardFooter(g).Remaining? <==> g.currentValue < g.targetValue
    ensures CardFooter(g).GoalReached? <==> g.currentValue >= g.targetValue
  {
    StatusThresholds(g.currentValue, g.targetValue);
  }

  // ----- Editing, creating and deleting -----

  /** The edited goal: the form's fields over the old goal, with the parsed
      numbers and the recomputed status; id, machine and SKU are kept. */
  function Edited(g: Goal, form: GoalForm, target: real, current: real): (e: Goal)
    ensures e.id == g.id && e.machineId == g.machineId && e.skuId == g.skuId
    ensures e.name == form.name && e.description == form.description && e.period == form.period
    ensures e.unit == form.unit && e.startDate == form.startDate && e.endDate == form.endDate
    ensures e.status == CalculateStatus(current, target)
    ensures e.targetValue == target && e.currentValue == current
  {
    g.(name := form.name, description := form.description, period := form.period,
       targetValue := target, currentValue := current, unit := form.unit,
       startDate := form.startDate, endDate := form.endDate,
       status := CalculateStatus(current, target))
  }

  /** The edit branch of `handleSaveGoal`: every goal with the edited id is
      replaced, every other goal stays as it was. */
  function EditGoals(goals: seq<Goal>, id: string, form: GoalForm, target: real, current: real): (r: seq<Goal>)
    ensures |r| == |goals|
    ensures forall i :: 0 <= i < |goals| ==>
      r[i] == if goals[i].id == id then Edited(goals[i], form, target, current) else goals[i]
  {
    seq(|goals|, i requires 0 <= i < |goals| =>
      if goals[i].id == id then Edited(goals[i], form, target, current) else goals[i])
  }

  /** The ids are unchanged by an edit, so editing keeps distinct ids
      distinct. */
  lemma EditKeepsIds(goals: seq<Goal>, id: string, form: GoalForm, target: real, current: real)
    ensures forall i :: 0 <= i < |goals| ==> EditGoals(goals, id, form, target, current)[i].id == goals[i].id
  {
  }

  /** The goal the create branch appends, with id `g<now>`. */
  function NewGoal(form: GoalForm, target: real, current: real, nowMs: int): (g: Goal)
    ensures g.id == "g" + IntToString(nowMs)
    ensures g.status == CalculateStatus(current, target)
    ensures g.name == form.name && g.description == form.description && g.period == form.period
    ensures g.unit == form.unit && g.startDate == form.startDate && g.endDate == form.endDate
    ensures g.targetValue == target && g.currentValue == current
    ensures g.machineId.None? && g.skuId.None?
  {
    Goal("g" + IntToString(nowMs), form.name, form.description, form.period, target, current,
         form.unit, form.startDate, form.endDate, CalculateStatus(current, target), None, None)
  }

  function NotGoalId(id: string): Goal -> bool {
    (g: Goal) => g.id != id
  }

  /** `handleDeleteGoal(id)`: removes exactly the goals with that id. */
  function DeleteGoal(goals: seq<Goal>, id: string): (r: seq<Goal>)
    ensures forall g :: g in r ==> g.id != id
    ensures forall g: Goal :: g.id != id ==> multiset(r)[g] == multiset(goals)[g]
    ensures SubseqOf(r, goals)
  {
    FilterIsSubseq(goals, NotGoalId(id));
    FilterCounts(goals, NotGoalId(id));
    Filter(goals, NotGoalId(id))
  }

  // ----- Period filter and counters -----

  function InPeriod(p: GoalPeriod): Goal -> bool {
    (g: Goal) => g.period == p
  }

  /** `filteredGoals`: all goals for "all", otherwise those of the period. */
  function FilteredGoals(goals: seq<Goal>, period: Option<GoalPeriod>): (r: seq<Goal>)
    ensures period.None? ==> r == goals
    ensures period.Some? ==> forall g :: g in r ==> g.period == period.value
    ensures period.Some? ==> forall g: Goal :: g.period == period.value ==> multiset(r)[g] == multiset(goals)[g]
    ensures SubseqOf(r, goals)
  {
    if period.None? then
      FilterAll(goals, (g: Goal) => true);
      FilterIsSubseq(goals, (g: Goal) => true);
      goals
    else
      FilterIsSubseq(goals, InPeriod(period.value));
      FilterCounts(goals, InPeriod(period.value));
      Filter(goals, InPeriod(period.value))
  }

  function IsOnTrack(g: Goal): bool {
    g.status == OnTrack
  }

  function IsDone(g: Goal): bool {
    g.status == Exceeded || g.status == Completed
  }

  function IsLagging(g: Goal): bool {
    g.status == AtRisk || g.status == Behind
  }

  function IsOnTrackOrDone(g: Goal): bool {
    IsOnTrack(g) || IsDone(g)
  }

  /** The three counters of `stats`. */
  datatype Stats = Stats(total: nat, onTrack: nat, exceeded: nat, atRisk: nat)

  function GoalStats(goals: seq<Goal>): Stats {
    Stats(|goals|, |Filter(goals, IsOnTrack)|, |Filter(goals, IsDone)|, |Filter(goals, IsLagging)|)
  }

  /** Every status falls in exactly one of the three counters, so they add up
      to the total. */
  lemma StatsPartition(goals: seq<Goal>)
    ensures GoalStats(goals).onTrack + GoalStats(goals).exceeded + GoalStats(goals).atRisk == GoalStats(goals).total
  {
    FilterDisjointCount(goals, IsOnTrack, IsDone, IsOnTrackOrDone);
    FilterPartitionCount(goals, IsOnTrackOrDone, IsLagging);
  }

  // ----- The page state -----

  class GoalBoard {
    var goals: seq<Goal>
    var editingGoal: Option<Goal>
    var formData: GoalForm
    var filterPeriod: Option<GoalPeriod>
    var isDialogOpen: bool

    constructor(initialGoals: seq<Goal>)
      ensures goals == initialGoals && editingGoal.None? && formData == EmptyForm && filterPeriod.None?
      ensures !isDialogOpen
    {
      goals := initialGoals;
      editingGoal := None;
      formData := EmptyForm;
      filterPeriod := None;
      isDialogOpen := false;
    }

    /** The goals the page lists. */
    function Shown(): seq<Goal>
      reads this
    {
      FilteredGoals(goals, filterPeriod)
    }

    /** `handleOpenDialog(goal?)`: editing a goal copies it into the form,
        its two numbers turned into text by `toText` (JavaScript's
        `Number.prototype.toString`); otherwise the form is reset. Either
        way the dialog opens. */
    method OpenDialog(goal: Option<Goal>, toText: real -> string)
      modifies this`editingGoal, this`formData, this`isDialogOpen
      ensures editingGoal == goal && isDialogOpen
      ensures goal.None? ==> formData == EmptyForm
      ensures goal.Some? ==> formData == GoalForm(goal.value.name, goal.value.description, goal.value.period,
        toText(goal.value.targetValue), toText(goal.value.currentValue), goal.value.unit, goal.value.startDate, goal.value.endDate)
    {
      if goal.Some? {
        var g := goal.value;
        editingGoal := goal;
        formData := GoalForm(g.name, g.description, g.period, toText(g.targetValue), toText(g.currentValue), g.unit, g.startDate, g.endDate);
      } else {
        formData := EmptyForm;
        editingGoal := None;
      }
      isDialogOpen := true;
    }

    /** `handleSaveGoal()`, given the numbers parsed from the form and the
        clock: edits the goal being edited or appends a new one, then resets
        the form and closes the dialog. */
    method SaveGoal(target: real, current: real, nowMs: int)
      modifies this`goals, this`editingGoal, this`formData, this`isDialogOpen
      ensures old(editingGoal).Some? ==>
        goals == EditGoals(old(goals), old(editingGoal).value.id, old(formData), target, current)
      ensures old(editingGoal).None? ==> goals == old(goals) + [NewGoal(old(formData), target, current, nowMs)]
      ensures editingGoal.None? && formData == EmptyForm && !isDialogOpen
    {
      if editingGoal.Some? {
        goals := EditGoals(goals, editingGoal.value.id, formData, target, current);
      } else {
        goals := goals + [NewGoal(formData, target, current, nowMs)];
      }
      formData := EmptyForm;
      editingGoal := None;
      isDialogOpen := false;
    }

    /** The dialog's cancel button: closes the dialog and leaves the form as
        it is. */
    method CancelDialog()
      modifies this`isDialogOpen
      ensures !isDialogOpen
    {
      isDialogOpen := false;
    }

    method Delete(id: string)
      modifies this`goals
      ensures goals == DeleteGoal(old(goals), id)
    {
      goals := DeleteGoal(goals, id);
    }

    method SetFilterPeriod(period: Option<GoalPeriod>)
      modifies this`filterPeriod
      ensures filterPeriod == period
    {
      filterPeriod := period;
    }
  }
}
