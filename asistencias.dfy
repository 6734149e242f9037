/** The attendance and rotation page: deleting records and rotations, the
    search and employee / shift filters, the list of employees drawn from
    the records, the totals of absences and late arrivals, and the ranking
    of the best attendance. */
module Asistencias {
  import opened Seqs
  import opened Strings

  /** An attendance record; `status` is one of "Asistente", "Ausente",
      "Retardo", "Permiso". */
  datatype AttendanceRecord = AttendanceRecord(id: string, employeeId: string, employeeName: string, date: string, status: string)

  /** A shift rotation; `shift` is "Mañana", "Tarde" or "Noche". */
  datatype Rotation = Rotation(id: string, employeeId: string, employeeName: string, machine: string, shift: string, date: string, status: string)

  /** An employee's attendance summary. */
  datatype EmployeeStats = EmployeeStats(employeeId: string, employeeName: string, attendancePercentage: real, absentDays: int, lateDays: int)

  /** The value of the "all" choice of the employee and shift filters. */
  const All := "todos"

  // ----- Deleting -----

  function RecordIdIsNot(id: string): AttendanceRecord -> bool {
    (r: AttendanceRecord) => r.id != id
  }

  function RotationIdIsNot(id: string): Rotation -> bool {
    (r: Rotation) => r.id != id
  }

  /** `handleDeleteRecord(id)`: removes exactly the records with that id, in
      order. */
  function DeleteRecord(s: seq<AttendanceRecord>, id: string): (r: seq<AttendanceRecord>)
    ensures forall x :: x in r ==> x.id != id
    ensures forall x: AttendanceRecord :: x.id != id ==> multiset(r)[x] == multiset(s)[x]
    ensures SubseqOf(r, s)
  {
    FilterIsSubseq(s, RecordIdIsNot(id));
    FilterCounts(s, RecordIdIsNot(id));
    Filter(s, RecordIdIsNot(id))
  }

  /** `handleDeleteRotation(id)`: removes exactly the rotations with that id,
      in order. */
  function DeleteRotation(s: seq<Rotation>, id: string): (r: seq<Rotation>)
    ensures forall x :: x in r ==> x.id != id
    ensures forall x: Rotation :: x.id != id ==> multiset(r)[x] == multiset(s)[x]
    ensures SubseqOf(r, s)
  {
    FilterIsSubseq(s, RotationIdIsNot(id));
    FilterCounts(s, RotationIdIsNot(id));
    Filter(s, RotationIdIsNot(id))
  }

  // ----- Filters -----

  /** Case-insensitive `includes`. */
  predicate Mentions(text: string, term: string) {
    Contains(ToLower(text), ToLower(term))
  }

  predicate RecordMatches(r: AttendanceRecord, search: string, employee: string) {
    (Mentions(r.employeeName, search) || Mentions(r.status, search))
    && (employee == All || r.employeeId == employee)
  }

  predicate RotationMatches(r: Rotation, search: string, employee: string, shift: string) {
    (Mentions(r.employeeName, search) || Mentions(r.machine, search))
    && (employee == All || r.employeeId == employee)
    && (shift == All || r.shift == shift)
  }

  /** `filteredRecords`. */
  function FilteredRecords(s: seq<AttendanceRecord>, search: string, employee: string): (r: seq<AttendanceRecord>)
    ensures forall x :: x in r ==> RecordMatches(x, search, employee)
    ensures forall x: AttendanceRecord :: RecordMatches(x, search, employee) ==> multiset(r)[x] == multiset(s)[x]
    ensures SubseqOf(r, s)
  {
    var p := (x: AttendanceRecord) => RecordMatches(x, search, employee);
    FilterIsSubseq(s, p);
    FilterCounts(s, p);
    Filter(s, p)
  }

  /** `filteredRotations`. */
  function FilteredRotations(s: seq<Rotation>, search: string, employee: string, shift: string): (r: seq<Rotation>)
    ensures forall x :: x in r ==> RotationMatches(x, search, employee, shift)
    ensures forall x: Rotation :: RotationMatches(x, search, employee, shift) ==> multiset(r)[x] == multiset(s)[x]
    ensures SubseqOf(r, s)
  {
    var p := (x: Rotation) => RotationMatches(x, search, employee, shift);
    FilterIsSubseq(s, p);
    FilterCounts(s, p);
    Filter(s, p)
  }

  /** With an empty search and both filters on "todos", every record and
      every rotation is listed. */
  lemma NoFilterListsAll(records: seq<AttendanceRecord>, rotations: seq<Rotation>)
    ensures FilteredRecords(records, "", All) == records
    ensures FilteredRotations(rotations, "", All, All) == rotations
  {
    forall x: AttendanceRecord ensures RecordMatches(x, "", All) {
      ContainsEmpty(ToLower(x.employeeName));
    }
    forall x: Rotation ensures RotationMatches(x, "", All, All) {
      ContainsEmpty(ToLower(x.employeeName));
    }
    FilterAll(records, (x: AttendanceRecord) => RecordMatches(x, "", All));
    FilterAll(rotations, (x: Rotation) => RotationMatches(x, "", All, All));
  }

  /** Choosing one employee only narrows the list: it is a subsequence of
      the list for "todos" with the same search. */
  lemma EmployeeFilterNarrows(s: seq<AttendanceRecord>, search: string, employee: string)
    ensures SubseqOf(FilteredRecords(s, search, employee), FilteredRecords(s, search, All))
  {
    FilterWeaker(s, (x: AttendanceRecord) => RecordMatches(x, search, employee),
                    (x: AttendanceRecord) => RecordMatches(x, search, All));
  }

  // ----- The employees named in the records -----

  /** An entry of the employee selector. */
  datatype EmployeeRef = EmployeeRef(id: string, name: string)

  /** Position of the entry with `id`, or `|refs|` when there is none. */
  function PositionOf(refs: seq<EmployeeRef>, id: string): (k: nat)
    ensures k <= |refs|
    ensures k < |refs| ==> refs[k].id == id
    ensures k == |refs| ==> forall i :: 0 <= i < |refs| ==> refs[i].id != id
  {
    if refs == [] then 0
    else if refs[0].id == id then 0
    else 1 + PositionOf(refs[1..], id)
  }

  /** `Map.set(id, name)`: a known key keeps its place and takes the new
      value, a new key goes at the end. */
  function Upsert(refs: seq<EmployeeRef>, id: string, name: string): seq<EmployeeRef> {
    var k := PositionOf(refs, id);
    if k < |refs| then refs[k := EmployeeRef(id, name)] else refs + [EmployeeRef(id, name)]
  }

  /** Setting a key grows the list only when the key is new, leaves the
      other entries in place, and the key then holds the new value. */
  lemma UpsertSpec(refs: seq<EmployeeRef>, id: string, name: string)
    ensures var r := Upsert(refs, id, name);
      && |refs| <= |r| <= |refs| + 1
      && (|r| == |refs| + 1 <==> forall i :: 0 <= i < |refs| ==> refs[i].id != id)
      && (forall i :: 0 <= i < |refs| && refs[i].id != id ==> r[i] == refs[i])
      && EmployeeRef(id, name) in r
  {
    var k := PositionOf(refs, id);
    if k < |refs| {
      assert Upsert(refs, id, name)[k] == EmployeeRef(id, name);
    } else {
      assert Upsert(refs, id, name)[|refs|] == EmployeeRef(id, name);
    }
  }

  /** `Array.from(new Map(records.map(...)).values())`. */
  function Employees(s: seq<AttendanceRecord>): seq<EmployeeRef> {
    if s == [] then []
    else
      var last := s[|s| - 1];
      Upsert(Employees(s[..|s| - 1]), last.employeeId, last.employeeName)
  }

  /** Some record names employee `id`. */
  ghost predicate Occurs(s: seq<AttendanceRecord>, id: string) {
    exists k :: 0 <= k < |s| && s[k].employeeId == id
  }

  /** `name` is the name on the last record of employee `id`. */
  ghost predicate LastNameIs(s: seq<AttendanceRecord>, id: string, name: string) {
    exists k :: 0 <= k < |s| && s[k].employeeId == id && s[k].employeeName == name &&
      forall k' :: k < k' < |s| ==> s[k'].employeeId != id
  }

  /** Employee `a` appears in the records before employee `b` first does. */
  ghost predicate SeenBefore(s: seq<AttendanceRecord>, a: string, b: string) {
    exists k :: 0 <= k < |s| && s[k].employeeId == a && forall k' :: 0 <= k' <= k ==> s[k'].employeeId != b
  }

  /** Distinct entries, in order of first appearance in the records. */
  ghost predicate InFirstSightOrder(s: seq<AttendanceRecord>, r: seq<EmployeeRef>) {
    forall i, j :: 0 <= i < j < |r| ==> r[i].id != r[j].id && SeenBefore(s, r[i].id, r[j].id)
  }

  /** Every entry carries the name of that employee's last record. */
  ghost predicate NamedByLastRecord(s: seq<AttendanceRecord>, r: seq<EmployeeRef>) {
    forall i :: 0 <= i < |r| ==> LastNameIs(s, r[i].id, r[i].name)
  }

  /** Every employee named in the records has an entry. */
  ghost predicate CoversRecords(s: seq<AttendanceRecord>, r: seq<EmployeeRef>) {
    forall k :: 0 <= k < |s| ==> PositionOf(r, s[k].employeeId) < |r|
  }

  /** What the employee list promises: one entry per employee named in the
      records, in order of first appearance, with the name of that employee's
      last record. */
  ghost predicate DescribesEmployees(s: seq<AttendanceRecord>, r: seq<EmployeeRef>) {
    InFirstSightOrder(s, r) && NamedByLastRecord(s, r) && CoversRecords(s, r)
  }

  lemma SeenBeforeExtends(s: seq<AttendanceRecord>, x: AttendanceRecord, a: string, b: string)
    requires SeenBefore(s, a, b)
    ensures SeenBefore(s + [x], a, b)
  {
    var w :| 0 <= w < |s| && s[w].employeeId == a && forall k' :: 0 <= k' <= w ==> s[k'].employeeId != b;
    assert (s + [x])[w] == s[w];
  }

  lemma LastNameExtends(s: seq<AttendanceRecord>, x: AttendanceRecord, id: string, name: string)
    requires LastNameIs(s, id, name) && x.employeeId != id
    ensures LastNameIs(s + [x], id, name)
  {
    var w :| 0 <= w < |s| && s[w].employeeId == id && s[w].employeeName == name &&
      forall k' :: w < k' < |s| ==> s[k'].employeeId != id;
    assert (s + [x])[w] == s[w];
  }

  lemma CoversStep(s: seq<AttendanceRecord>, r: seq<EmployeeRef>, x: AttendanceRecord)
    requires CoversRecords(s, r)
    ensures CoversRecords(s + [x], Upsert(r, x.employeeId, x.employeeName))
  {
    var t, u := s + [x], Upsert(r, x.employeeId, x.employeeName);
    forall q | 0 <= q < |t| ensures PositionOf(u, t[q].employeeId) < |u| {
      if q < |s| {
        assert t[q] == s[q];
        var p := PositionOf(r, s[q].employeeId);
        assert u[p].id == s[q].employeeId;
      } else if PositionOf(r, x.employeeId) == |r| {
        assert u[|r|].id == t[q].employeeId;
      } else {
        assert u[PositionOf(r, x.employeeId)].id == t[q].employeeId;
      }
    }
  }

  lemma NamedStep(s: seq<AttendanceRecord>, r: seq<EmployeeRef>, x: AttendanceRecord)
    requires NamedByLastRecord(s, r) && InFirstSightOrder(s, r)
    ensures NamedByLastRecord(s + [x], Upsert(r, x.employeeId, x.employeeName))
  {
    var t, u := s + [x], Upsert(r, x.employeeId, x.employeeName);
    assert LastNameIs(t, x.employeeId, x.employeeName) by {
      assert t[|s|] == x;
    }
    forall i | 0 <= i < |u| ensures LastNameIs(t, u[i].id, u[i].name) {
      if u[i].id != x.employeeId {
        assert i < |r| && u[i] == r[i];
        LastNameExtends(s, x, u[i].id, u[i].name);
      } else {
        assert u[i] == EmployeeRef(x.employeeId, x.employeeName);
      }
    }
  }

  lemma OrderStep(s: seq<AttendanceRecord>, r: seq<EmployeeRef>, x: AttendanceRecord)
    requires DescribesEmployees(s, r)
    ensures InFirstSightOrder(s + [x], Upsert(r, x.employeeId, x.employeeName))
  {
    var t, u := s + [x], Upsert(r, x.employeeId, x.employeeName);
    var k := PositionOf(r, x.employeeId);
    forall i, j | 0 <= i < j < |r| ensures SeenBefore(t, r[i].id, r[j].id) {
      SeenBeforeExtends(s, x, r[i].id, r[j].id);
    }
    if k == |r| {
      forall i | 0 <= i < |r| ensures SeenBefore(t, r[i].id, x.employeeId) {
        var w :| 0 <= w < |s| && s[w].employeeId == r[i].id && s[w].employeeName == r[i].name &&
          forall k' :: w < k' < |s| ==> s[k'].employeeId != r[i].id;
        forall k' | 0 <= k' <= w ensures t[k'].employeeId != x.employeeId {
          assert t[k'] == s[k'];
          assert r[PositionOf(r, s[k'].employeeId)].id == s[k'].employeeId;
        }
        assert t[w].employeeId == r[i].id;
      }
      assert forall i :: 0 <= i < |r| ==> u[i] == r[i];
      assert u[|r|].id == x.employeeId;
    } else {
      assert forall i :: 0 <= i < |r| ==> u[i].id == r[i].id;
    }
  }

  /** The employee list is described by the records it comes from. */
  lemma {:induction false} EmployeesDescribed(s: seq<AttendanceRecord>)
    ensures DescribesEmployees(s, Employees(s))
  {
    if s != [] {
      var init := s[..|s| - 1];
      EmployeesDescribed(init);
      CoversStep(init, Employees(init), s[|s| - 1]);
      NamedStep(init, Employees(init), s[|s| - 1]);
      OrderStep(init, Employees(init), s[|s| - 1]);
      assert init + [s[|s| - 1]] == s;
    }
  }

  // ----- Totals and ranking -----

  /** `reduce((a, b) => a + b.absentDays, 0)`. */
  function TotalAbsences(s: seq<EmployeeStats>): int {
    if s == [] then 0 else s[0].absentDays + TotalAbsences(s[1..])
  }

  /** `reduce((a, b) => a + b.lateDays, 0)`. */
  function TotalLates(s: seq<EmployeeStats>): int {
    if s == [] then 0 else s[0].lateDays + TotalLates(s[1..])
  }

  /** The comparator `b.attendancePercentage - a.attendancePercentage`. */
  function BetterAttendance(): (EmployeeStats, EmployeeStats) -> bool {
    (a: EmployeeStats, b: EmployeeStats) => a.attendancePercentage >= b.attendancePercentage
  }

  lemma {:induction false} InsertKeepsTotals(x: EmployeeStats, s: seq<EmployeeStats>)
    ensures TotalAbsences(Insert(x, s, BetterAttendance())) == x.absentDays + TotalAbsences(s)
    ensures TotalLates(Insert(x, s, BetterAttendance())) == x.lateDays + TotalLates(s)
  {
    if s != [] && !BetterAttendance()(x, s[0]) {
      InsertKeepsTotals(x, s[1..]);
      var r := Insert(x, s, BetterAttendance());
      assert r[1..] == Insert(x, s[1..], BetterAttendance());
    }
  }

  /** Sorting the summaries (which the page does in place while rendering)
      leaves both totals as they were. */
  lemma {:induction false} SortKeepsTotals(s: seq<EmployeeStats>)
    ensures TotalAbsences(SortBy(s, BetterAttendance())) == TotalAbsences(s)
    ensures TotalLates(SortBy(s, BetterAttendance())) == TotalLates(s)
  {
    if s != [] {
      SortKeepsTotals(s[1..]);
      InsertKeepsTotals(s[0], SortBy(s[1..], BetterAttendance()));
    }
  }

  /** The page state: the two lists with their filters, and the shared
      summaries, which rendering the ranking sorts in place. */
  class AttendancePage {
    var records: seq<AttendanceRecord>
    var rotations: seq<Rotation>
    var searchTerm: string
    var filterEmployee: string
    var filterShift: string
    var stats: seq<EmployeeStats>

    constructor(records: seq<AttendanceRecord>, rotations: seq<Rotation>, stats: seq<EmployeeStats>)
      ensures this.records == records && this.rotations == rotations && this.stats == stats
      ensures searchTerm == "" && filterEmployee == All && filterShift == All
    {
      this.records := records;
      this.rotations := rotations;
      this.stats := stats;
      searchTerm := "";
      filterEmployee := All;
      filterShift := All;
    }

    method DeleteRecordWithId(id: string)
      modifies this`records
      ensures records == DeleteRecord(old(records), id)
    {
      records := DeleteRecord(records, id);
    }

    method DeleteRotationWithId(id: string)
      modifies this`rotations
      ensures rotations == DeleteRotation(old(rotations), id)
    {
      rotations := DeleteRotation(rotations, id);
    }

    method SetFilters(search: string, employee: string, shift: string)
      modifies this`searchTerm, this`filterEmployee, this`filterShift
      ensures searchTerm == search && filterEmployee == employee && filterShift == shift
    {
      searchTerm := search;
      filterEmployee := employee;
      filterShift := shift;
    }

    /** "Mejores Asistencias": sorts the shared summaries by attendance, best
        first, and shows the first four. */
    method BestAttendance() returns (top: seq<EmployeeStats>)
      modifies this`stats
      ensures stats == SortBy(old(stats), BetterAttendance())
      ensures top == Take(stats, 4)
      ensures multiset(stats) == multiset(old(stats))
      ensures forall i, j :: 0 <= i < j < |stats| ==> stats[i].attendancePercentage >= stats[j].attendancePercentage
      ensures TotalAbsences(stats) == TotalAbsences(old(stats)) && TotalLates(stats) == TotalLates(old(stats))
    {
      assert Total(BetterAttendance()) && Transitive(BetterAttendance());
      SortBySorted(stats, BetterAttendance());
      SortKeepsTotals(stats);
      stats := SortBy(stats, BetterAttendance());
      top := Take(stats, 4);
    }
  }
}
