/** The employee roster page: adding an employee from the dialog's draft,
    deleting one, and the counts per role. The id the page gives a new
    employee is modelled twice: as written (one more than the list length)
    and corrected (one more than the largest numeric id). */
module Empleados {
  import opened Seqs
  import opened Strings
  import opened Records

  /** The dialog's draft of a new employee. */
  datatype Draft = Draft(name: string, role: Role, nfcId: string)

  const EmptyDraft := Draft("", Operador, "")

  /** The add button only acts when both name and NFC id are filled in. */
  predicate Complete(d: Draft) {
    d.name != "" && d.nfcId != ""
  }

  /** No two employees share an id. */
  ghost predicate IdsDistinct(s: seq<Employee>) {
    forall i, j :: 0 <= i < j < |s| ==> s[i].id != s[j].id
  }

  // ----- The id of a new employee, as written -----

  /** `String(employees.length + 1)`. */
  function NextIdAsWritten(s: seq<Employee>): (id: string)
    ensures AllDigits(id) && DigitsValue(id) == |s| + 1
  {
    NatToStringRoundTrip(|s| + 1);
    NatToString(|s| + 1)
  }

  /** `handleAddEmployee` as written. */
  function AddedAsWritten(s: seq<Employee>, d: Draft): (r: seq<Employee>)
    ensures !Complete(d) ==> r == s
    ensures Complete(d) ==> |r| == |s| + 1 && r[..|s|] == s
    ensures Complete(d) ==> r[|s|].name == d.name && r[|s|].role == d.role && r[|s|].nfcId == d.nfcId
    ensures Complete(d) ==> AllDigits(r[|s|].id) && DigitsValue(r[|s|].id) == |r|
  {
    if Complete(d) then s + [Employee(NextIdAsWritten(s), d.name, d.role, d.nfcId)] else s
  }

  /** After a deletion the list is shorter than the largest id, so the next
      id repeats an existing one: from ids 1, 2, 3, deleting 1 and adding any
      complete draft yields two employees with id 3. */
  lemma AsWrittenRepeatsId(e1: Employee, e2: Employee, e3: Employee, d: Draft)
    requires e1.id == "1" && e2.id == "2" && e3.id == "3" && Complete(d)
    ensures IdsDistinct([e1, e2, e3])
    ensures !IdsDistinct(AddedAsWritten(Deleted([e1, e2, e3], "1"), d))
  {
    var before := [e1, e2, e3];
    var after := Deleted(before, "1");
    assert after == [e2, e3] by {
      assert before[1..] == [e2, e3];
      FilterAll([e2, e3], NotEmployeeId("1"));
    }
    assert NatToString(3) == "3";
    var added := AddedAsWritten(after, d);
    assert added[1].id == added[2].id;
  }

  // ----- The id of a new employee, corrected -----

  /** The largest value among the ids made only of digits (0 when none is). */
  function MaxNumericId(s: seq<Employee>): (m: nat)
    ensures forall i :: 0 <= i < |s| && AllDigits(s[i].id) ==> DigitsValue(s[i].id) <= m
  {
    if s == [] then 0
    else
      var rest := MaxNumericId(s[1..]);
      assert forall i :: 1 <= i < |s| ==> s[i] == s[1..][i - 1];
      if AllDigits(s[0].id) && DigitsValue(s[0].id) > rest then DigitsValue(s[0].id) else rest
  }

  /** One more than the largest numeric id. */
  function NextId(s: seq<Employee>): (id: string)
    ensures forall i :: 0 <= i < |s| ==> s[i].id != id
  {
    var id := NatToString(MaxNumericId(s) + 1);
    NatToStringRoundTrip(MaxNumericId(s) + 1);
    id
  }

  /** `handleAddEmployee` with the corrected id: a complete draft is appended
      under a fresh id, an incomplete one changes nothing. */
  function Added(s: seq<Employee>, d: Draft): (r: seq<Employee>)
    ensures !Complete(d) ==> r == s
    ensures Complete(d) ==> |r| == |s| + 1 && r[..|s|] == s
    ensures Complete(d) ==> r[|s|].name == d.name && r[|s|].role == d.role && r[|s|].nfcId == d.nfcId
    ensures Complete(d) ==> forall i :: 0 <= i < |s| ==> s[i].id != r[|s|].id
  {
    if Complete(d) then s + [Employee(NextId(s), d.name, d.role, d.nfcId)] else s
  }

  /** Adding keeps the ids distinct, deletions in between notwithstanding. */
  lemma AddedKeepsIdsDistinct(s: seq<Employee>, d: Draft)
    requires IdsDistinct(s)
    ensures IdsDistinct(Added(s, d))
  {
  }

  // ----- Deleting -----

  function NotEmployeeId(id: string): Employee -> bool {
    (e: Employee) => e.id != id
  }

  /** `handleDeleteEmployee(id)`: removes exactly the employees with that id. */
  function Deleted(s: seq<Employee>, id: string): (r: seq<Employee>)
    ensures forall e :: e in r ==> e.id != id
    ensures forall e: Employee :: e.id != id ==> multiset(r)[e] == multiset(s)[e]
    ensures SubseqOf(r, s)
  {
    FilterIsSubseq(s, NotEmployeeId(id));
    FilterCounts(s, NotEmployeeId(id));
    Filter(s, NotEmployeeId(id))
  }

  /** Deleting keeps the ids distinct. */
  lemma {:induction false} DeletedKeepsIdsDistinct(s: seq<Employee>, id: string)
    requires IdsDistinct(s)
    ensures IdsDistinct(Deleted(s, id))
  {
    if s != [] {
      DeletedKeepsIdsDistinct(s[1..], id);
      var tail := Deleted(s[1..], id);
      forall k | 0 <= k < |tail| ensures s[0].id != tail[k].id {
        assert tail[k] in s[1..];
      }
    }
  }

  // ----- Role counts -----

  /** Every employee is an operator or a packer, so the two counts add up to
      the roster's length. */
  lemma RoleCountsPartition(s: seq<Employee>)
    ensures |Filter(s, IsRole(Operador))| + |Filter(s, IsRole(Empacador))| == |s|
  {
    FilterPartitionCount(s, IsRole(Operador), IsRole(Empacador));
  }

  // ----- The page state -----

  class Roster {
    var employees: seq<Employee>
    var newEmployee: Draft
    var isDialogOpen: bool

    /** The page starts from the seed roster, an empty operator draft and a
        closed dialog. */
    constructor(initial: seq<Employee>)
      ensures employees == initial && newEmployee == EmptyDraft && !isDialogOpen
    {
      employees := initial;
      newEmployee := EmptyDraft;
      isDialogOpen := false;
    }

    method EditDraft(d: Draft)
      modifies this`newEmployee
      ensures newEmployee == d
    {
      newEmployee := d;
    }

    /** `handleAddEmployee()` as the page writes it: with a complete draft,
        appends the employee under the id `String(employees.length + 1)`,
        resets the draft to an empty operator and closes the dialog; with an
        incomplete one, does nothing. The id may repeat one already in use
        (see `AsWrittenRepeatsId`). */
    method AddEmployee()
      modifies this
      ensures employees == AddedAsWritten(old(employees), old(newEmployee))
      ensures Complete(old(newEmployee)) ==> newEmployee == EmptyDraft && !isDialogOpen
      ensures !Complete(old(newEmployee)) ==> newEmployee == old(newEmployee) && isDialogOpen == old(isDialogOpen)
    {
      if Complete(newEmployee) {
        employees := AddedAsWritten(employees, newEmployee);
        newEmployee := EmptyDraft;
        isDialogOpen := false;
      }
    }

    /** `handleDeleteEmployee(id)`: removes every employee with that id. */
    method DeleteEmployee(id: string)
      modifies this`employees
      ensures employees == Deleted(old(employees), id)
    {
      employees := Deleted(employees, id);
    }
  }
}
