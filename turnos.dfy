/** The shift planning page: assignments of an employee to a shift on a
    machine for a date, the dialog that edits or creates them, deletion,
    status changes, the day summary and the cells of the weekly grid. */
module Turnos {
  import opened Wrappers
  import opened Seqs
  import opened Strings
  import opened Records

  datatype ShiftType = Morning | Afternoon | Night

  datatype Shift = Shift(id: string, name: string, kind: ShiftType)

  datatype AssignmentStatus = Scheduled | InProgress | Completed | Absent

  /** An assignment, with the employee, shift and machine names copied in. */
  datatype Assignment = Assignment(
    id: string,
    employeeId: string,
    employeeName: string,
    shiftId: string,
    shiftName: string,
    machineId: string,
    machineName: string,
    date: string,
    status: AssignmentStatus)

  /** The dialog's form. */
  datatype AssignmentForm = AssignmentForm(employeeId: string, shiftId: string, machineId: string, date: string)

  /** The three names `handleSave` looks up from the form's ids. */
  datatype Names = Names(employee: string, shift: string, machine: string)

  function EmployeeWithId(id: string): Employee -> bool {
    (e: Employee) => e.id == id
  }

  function ShiftWithId(id: string): Shift -> bool {
    (s: Shift) => s.id == id
  }

  function MachineWithId(id: string): Machine -> bool {
    (m: Machine) => m.id == id
  }

  /** The lookups at the head of `handleSave`: the names of the first
      employee, shift and machine with the form's ids, or `None` when any of
      them is missing. */
  function ResolveNames(form: AssignmentForm, employees: seq<Employee>, shifts: seq<Shift>, machines: seq<Machine>): (r: Option<Names>)
    ensures r.None? <==>
      || (forall i :: 0 <= i < |employees| ==> employees[i].id != form.employeeId)
      || (forall i :: 0 <= i < |shifts| ==> shifts[i].id != form.shiftId)
      || (forall i :: 0 <= i < |machines| ==> machines[i].id != form.machineId)
    ensures r.Some? ==>
      && (exists i :: FirstMatchAt(employees, EmployeeWithId(form.employeeId), i) && employees[i].name == r.value.employee)
      && (exists i :: FirstMatchAt(shifts, ShiftWithId(form.shiftId), i) && shifts[i].name == r.value.shift)
      && (exists i :: FirstMatchAt(machines, MachineWithId(form.machineId), i) && machines[i].name == r.value.machine)
  {
    var e := Find(employees, EmployeeWithId(form.employeeId));
    var s := Find(shifts, ShiftWithId(form.shiftId));
    var m := Find(machines, MachineWithId(form.machineId));
    if e.None? || s.None? || m.None? then None
    else Some(Names(e.value.name, s.value.name, m.value.name))
  }

  /** The edited assignment: the form's ids and date with the looked-up
      names; id and status are kept. */
  function Reassigned(a: Assignment, form: AssignmentForm, names: Names): (r: Assignment)
    ensures r.id == a.id && r.status == a.status
    ensures r.employeeId == form.employeeId && r.shiftId == form.shiftId && r.machineId == form.machineId
    ensures r.date == form.date
    ensures r.employeeName == names.employee && r.shiftName == names.shift && r.machineName == names.machine
  {
    a.(employeeId := form.employeeId, employeeName := names.employee,
       shiftId := form.shiftId, shiftName := names.shift,
       machineId := form.machineId, machineName := names.machine,
       date := form.date)
  }

  /** The edit branch: assignments with the edited id are reassigned, the
      others are untouched. */
  function EditAssignments(s: seq<Assignment>, id: string, form: AssignmentForm, names: Names): (r: seq<Assignment>)
    ensures |r| == |s|
    ensures forall i :: 0 <= i < |s| ==>
      r[i] == if s[i].id == id then Reassigned(s[i], form, names) else s[i]
  {
    seq(|s|, i requires 0 <= i < |s| => if s[i].id == id then Reassigned(s[i], form, names) else s[i])
  }

  /** The assignment the create branch appends: id `sa<now>`, scheduled. */
  function NewAssignment(form: AssignmentForm, names: Names, nowMs: int): (a: Assignment)
    ensures a.id == "sa" + IntToString(nowMs)
    ensures a.status == Scheduled
    ensures a.employeeId == form.employeeId && a.shiftId == form.shiftId && a.machineId == form.machineId
    ensures a.date == form.date
    ensures a.employeeName == names.employee && a.shiftName == names.shift && a.machineName == names.machine
  {
    Assignment("sa" + IntToString(nowMs), form.employeeId, names.employee, form.shiftId, names.shift,
               form.machineId, names.machine, form.date, Scheduled)
  }

  function NotAssignmentId(id: string): Assignment -> bool {
    (a: Assignment) => a.id != id
  }

  /** `handleDelete(id)`: removes exactly the assignments with that id. */
  function DeleteAssignment(s: seq<Assignment>, id: string): (r: seq<Assignment>)
    ensures forall a :: a in r ==> a.id != id
    ensures forall a: Assignment :: a.id != id ==> multiset(r)[a] == multiset(s)[a]
    ensures SubseqOf(r, s)
  {
    FilterIsSubseq(s, NotAssignmentId(id));
    FilterCounts(s, NotAssignmentId(id));
    Filter(s, NotAssignmentId(id))
  }

  /** `handleStatusChange(id, status)`: only the status of the assignments
      with that id changes. */
  function ChangeStatus(s: seq<Assignment>, id: string, status: AssignmentStatus): (r: seq<Assignment>)
    ensures |r| == |s|
    ensures forall i :: 0 <= i < |s| ==> r[i].status == (if s[i].id == id then status else s[i].status)
    ensures forall i :: 0 <= i < |s| ==> r[i].(status := s[i].status) == s[i]
  {
    seq(|s|, i requires 0 <= i < |s| => if s[i].id == id then s[i].(status := status) else s[i])
  }

  /** Setting the same status twice is the same as setting it once. */
  lemma ChangeStatusIdempotent(s: seq<Assignment>, id: string, status: AssignmentStatus)
    ensures ChangeStatus(ChangeStatus(s, id, status), id, status) == ChangeStatus(s, id, status)
  {
  }

  // ----- Day summary -----

  function OnDate(date: string): Assignment -> bool {
    (a: Assignment) => a.date == date
  }

  function InShift(shiftId: string): Assignment -> bool {
    (a: Assignment) => a.shiftId == shiftId
  }

  function WithStatus(status: AssignmentStatus): Assignment -> bool {
    (a: Assignment) => a.status == status
  }

  /** The assignments of a date (`filteredAssignments`, `todayAssignments`). */
  function ForDate(s: seq<Assignment>, date: string): (r: seq<Assignment>)
    ensures forall a :: a in r ==> a.date == date
    ensures forall a: Assignment :: a.date == date ==> multiset(r)[a] == multiset(s)[a]
    ensures SubseqOf(r, s)
  {
    FilterCounts(s, OnDate(date));
    FilterIsSubseq(s, OnDate(date));
    Filter(s, OnDate(date))
  }

  /** The "Resumen del día" counters. */
  datatype DaySummary = DaySummary(morning: nat, afternoon: nat, night: nat, total: nat)

  function Summary(s: seq<Assignment>, date: string): DaySummary {
    var day := ForDate(s, date);
    DaySummary(|Filter(day, InShift("s1"))|, |Filter(day, InShift("s2"))|, |Filter(day, InShift("s3"))|, |day|)
  }

  function InFirstTwoShifts(a: Assignment): bool {
    a.shiftId == "s1" || a.shiftId == "s2"
  }

  function InListedShift(a: Assignment): bool {
    a.shiftId == "s1" || a.shiftId == "s2" || a.shiftId == "s3"
  }

  /** The three shift counters never exceed the total; they reach it exactly
      when every assignment of the day is in one of the three shifts. */
  lemma {:induction false} SummaryBounded(s: seq<Assignment>, date: string)
    ensures Summary(s, date).morning + Summary(s, date).afternoon + Summary(s, date).night <= Summary(s, date).total
    ensures (forall a :: a in ForDate(s, date) ==> InListedShift(a)) ==>
      Summary(s, date).morning + Summary(s, date).afternoon + Summary(s, date).night == Summary(s, date).total
  {
    var day := ForDate(s, date);
    FilterDisjointCount(day, InShift("s1"), InShift("s2"), InFirstTwoShifts);
    FilterDisjointCount(day, InFirstTwoShifts, InShift("s3"), InListedShift);
    FilterWeaker(day, InListedShift, (a: Assignment) => true);
    FilterAll(day, (a: Assignment) => true);
    if forall a :: a in day ==> InListedShift(a) {
      FilterAll(day, InListedShift);
    }
  }

  function InProgressOrScheduled(a: Assignment): bool {
    a.status == InProgress || a.status == Scheduled
  }

  /** The header counters: in progress and scheduled today are disjoint parts
      of today's assignments. */
  lemma TodayCountersBounded(s: seq<Assignment>, today: string)
    ensures |Filter(ForDate(s, today), WithStatus(InProgress))| + |Filter(ForDate(s, today), WithStatus(Scheduled))|
      <= |ForDate(s, today)|
  {
    var day := ForDate(s, today);
    FilterDisjointCount(day, WithStatus(InProgress), WithStatus(Scheduled), InProgressOrScheduled);
    FilterWeaker(day, InProgressOrScheduled, (a: Assignment) => true);
    FilterAll(day, (a: Assignment) => true);
  }

  // ----- The weekly grid -----

  /** A grid cell: "-" when nobody is assigned, otherwise the first names of
      the first two and, beyond two, a "+n más" note. */
  datatype Cell = EmptyCell | NamesCell(shown: seq<string>, more: Option<nat>)

  function FirstWords(s: seq<Assignment>): (r: seq<string>)
    ensures |r| == |s|
    ensures forall i :: 0 <= i < |s| ==> r[i] == BeforeFirst(s[i].employeeName, ' ')
  {
    seq(|s|, i requires 0 <= i < |s| => BeforeFirst(s[i].employeeName, ' '))
  }

  function OnShiftAndDate(shiftId: string, date: string): Assignment -> bool {
    (a: Assignment) => a.shiftId == shiftId && a.date == date
  }

  /** The dates of the grid: `2026-01-<day>`. */
  function GridDate(day: nat): string {
    "2026-01-" + NatToString(day)
  }

  /** Different days of the grid read different dates. */
  lemma GridDateInjective(d1: nat, d2: nat)
    requires GridDate(d1) == GridDate(d2)
    ensures d1 == d2
  {
    var prefix := "2026-01-";
    assert NatToString(d1) == GridDate(d1)[|prefix|..];
    assert NatToString(d2) == GridDate(d2)[|prefix|..];
    NatToStringInjective(d1, d2);
  }

  /** The cell for a shift and a day of the week shown. */
  function GridCell(s: seq<Assignment>, shiftId: string, day: nat): (c: Cell)
    ensures var here := Filter(s, OnShiftAndDate(shiftId, GridDate(day)));
      && (c.EmptyCell? <==> here == [])
      && (c.NamesCell? ==> c.shown == FirstWords(Take(here, 2)))
      && (c.NamesCell? ==> (c.more.Some? <==> |here| > 2))
      && (c.NamesCell? && c.more.Some? ==> |c.shown| + c.more.value == |here|)
  {
    var here := Filter(s, OnShiftAndDate(shiftId, GridDate(day)));
    if |here| > 0 then
      NamesCell(FirstWords(Take(here, 2)), if |here| > 2 then Some(|here| - 2) else None)
    else EmptyCell
  }

  /** A cell accounts for everyone assigned: the names shown plus the
      "+n más" note count the assignments of that shift and day. */
  lemma GridCellAccounts(s: seq<Assignment>, shiftId: string, day: nat)
    ensures GridCell(s, shiftId, day).NamesCell? ==>
      |GridCell(s, shiftId, day).shown| + GridCell(s, shiftId, day).more.GetOr(0)
        == |Filter(s, OnShiftAndDate(shiftId, GridDate(day)))|
    ensures GridCell(s, shiftId, day).NamesCell? ==> 1 <= |GridCell(s, shiftId, day).shown| <= 2
  {
  }

  // ----- The page state -----

  class ShiftPlanner {
    const employees: seq<Employee>
    const shifts: seq<Shift>
    const machines: seq<Machine>
    var assignments: seq<Assignment>
    var editingAssignment: Option<Assignment>
    var formData: AssignmentForm
    var selectedDate: string
    var isModalOpen: bool

    constructor(employees: seq<Employee>, shifts: seq<Shift>, machines: seq<Machine>, initial: seq<Assignment>)
      ensures this.employees == employees && this.shifts == shifts && this.machines == machines
      ensures assignments == initial && editingAssignment.None? && !isModalOpen
      ensures selectedDate == "2026-01-20" && formData == AssignmentForm("", "", "", "2026-01-20")
    {
      this.employees := employees;
      this.shifts := shifts;
      this.machines := machines;
      assignments := initial;
      editingAssignment := None;
      selectedDate := "2026-01-20";
      formData := AssignmentForm("", "", "", "2026-01-20");
      isModalOpen := false;
    }

    /** `filteredAssignments`. */
    function Shown(): seq<Assignment>
      reads this
    {
      ForDate(assignments, selectedDate)
    }

    /** `handleOpenModal(assignment?)`. */
    method OpenModal(assignment: Option<Assignment>)
      modifies this`editingAssignment, this`formData, this`isModalOpen
      ensures editingAssignment == assignment && isModalOpen
      ensures assignment.Some? ==> formData == AssignmentForm(assignment.value.employeeId,
        assignment.value.shiftId, assignment.value.machineId, assignment.value.date)
      ensures assignment.None? ==> formData == AssignmentForm("", "", "", selectedDate)
    {
      editingAssignment := assignment;
      if assignment.Some? {
        var a := assignment.value;
        formData := AssignmentForm(a.employeeId, a.shiftId, a.machineId, a.date);
      } else {
        formData := AssignmentForm("", "", "", selectedDate);
      }
      isModalOpen := true;
    }

    /** `handleSave()` at time `nowMs`: nothing happens (the dialog stays
        open) unless all three ids resolve; then the edited assignment is
        reassigned, or a new one is appended, and the dialog closes. */
    method Save(nowMs: int)
      modifies this`assignments, this`isModalOpen
      ensures var names := ResolveNames(formData, employees, shifts, machines);
        && (names.None? ==> assignments == old(assignments) && isModalOpen == old(isModalOpen))
        && (names.Some? && editingAssignment.Some? ==>
              assignments == EditAssignments(old(assignments), editingAssignment.value.id, formData, names.value))
        && (names.Some? && editingAssignment.None? ==>
              assignments == old(assignments) + [NewAssignment(formData, names.value, nowMs)])
        && (names.Some? ==> !isModalOpen)
    {
      var names := ResolveNames(formData, employees, shifts, machines);
      if names.None? {
        return;
      }
      if editingAssignment.Some? {
        assignments := EditAssignments(assignments, editingAssignment.value.id, formData, names.value);
      } else {
        assignments := assignments + [NewAssignment(formData, names.value, nowMs)];
      }
      isModalOpen := false;
    }

    method Delete(id: string)
      modifies this`assignments
      ensures assignments == DeleteAssignment(old(assignments), id)
    {
      assignments := DeleteAssignment(assignments, id);
    }

    method StatusChange(id: string, status: AssignmentStatus)
      modifies this`assignments
      ensures assignments == ChangeStatus(old(assignments), id, status)
    {
      assignments := ChangeStatus(assignments, id, status);
    }

    method SelectDate(date: string)
      modifies this`selectedDate
      ensures selectedDate == date
    {
      selectedDate := date;
    }
  }
}
