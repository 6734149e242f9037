/** The production floor page: the machines with the SKU code, operator and
    packer assigned to each, the edit dialog, the quick edits of the
    validation table, the diagram columns, the table ordered by the number in
    the machine name, and the status counters. */
module PisoProduccion {
  import opened Wrappers
  import opened Seqs
  import opened Strings
  import opened Records

  /** A machine with its floor assignments; `None` is an absent field. */
  datatype MachineData = MachineData(
    id: string,
    name: string,
    status: MachineStatus,
    position: Position,
    code: Option<string>,
    operator: Option<string>,
    packer: Option<string>,
    production: Option<int>)

  /** `value || undefined`: the empty text is stored as an absent field. */
  function OrAbsent(value: string): (r: Option<string>)
    ensures r.None? <==> value == ""
    ensures r.Some? ==> r.value == value
  {
    if value == "" then None else Some(value)
  }

  /** A JavaScript truthiness test on an optional text field. */
  predicate Filled(o: Option<string>) {
    o.Some? && o.value != ""
  }

  /** The values drawn at random for one machine when the page loads or is
      reset: units produced, operator and packer. */
  datatype Draw = Draw(production: int, operator: Option<string>, packer: Option<string>)

  /** A registry machine with freshly drawn values and no SKU code. */
  function Seeded(m: Machine, d: Draw): (r: MachineData)
    ensures r.id == m.id && r.name == m.name && r.status == m.status && r.position == m.position
    ensures r.code.None?
  {
    MachineData(m.id, m.name, m.status, m.position, None, d.operator, d.packer, Some(d.production))
  }

  // ----- Patches -----

  /** A partial update: `None` leaves a field alone, `Some(v)` sets it to `v`
      (which may itself be absent, as `{ operator: undefined }` is). */
  datatype Patch = Patch(code: Option<Option<string>>, operator: Option<Option<string>>, packer: Option<Option<string>>)

  /** `{ ...m, ...patch }`. */
  function Merge(m: MachineData, p: Patch): (r: MachineData)
    ensures r.code == (if p.code.Some? then p.code.value else m.code)
    ensures r.operator == (if p.operator.Some? then p.operator.value else m.operator)
    ensures r.packer == (if p.packer.Some? then p.packer.value else m.packer)
    ensures r.(code := m.code, operator := m.operator, packer := m.packer) == m
  {
    m.(code := if p.code.Some? then p.code.value else m.code,
       operator := if p.operator.Some? then p.operator.value else m.operator,
       packer := if p.packer.Some? then p.packer.value else m.packer)
  }

  /** `handleQuickUpdate(id, patch)`: the patch is merged into the machines
      with that id; every other machine is unchanged. */
  function QuickUpdate(s: seq<MachineData>, id: string, p: Patch): (r: seq<MachineData>)
    ensures |r| == |s|
    ensures forall i :: 0 <= i < |s| ==> r[i] == if s[i].id == id then Merge(s[i], p) else s[i]
  {
    seq(|s|, i requires 0 <= i < |s| => if s[i].id == id then Merge(s[i], p) else s[i])
  }

  /** Merging a patch twice is merging it once. */
  lemma QuickUpdateIdempotent(s: seq<MachineData>, id: string, p: Patch)
    ensures QuickUpdate(QuickUpdate(s, id, p), id, p) == QuickUpdate(s, id, p)
  {
  }

  /** The patch of the dialog's save: empty inputs become absent fields. */
  function DialogPatch(code: string, operator: string, packer: string): (p: Patch)
    ensures p.code == Some(OrAbsent(code)) && p.operator == Some(OrAbsent(operator)) && p.packer == Some(OrAbsent(packer))
  {
    Patch(Some(OrAbsent(code)), Some(OrAbsent(operator)), Some(OrAbsent(packer)))
  }

  /** A row of the validation table is "OK" when SKU, operator and packer are
      all filled in. */
  predicate RowOk(m: MachineData) {
    Filled(m.code) && Filled(m.operator) && Filled(m.packer)
  }

  /** After the dialog saves non-empty inputs, the machine's row is OK; if any
      input is empty, it is not. */
  lemma DialogSaveMakesRowOk(m: MachineData, code: string, operator: string, packer: string)
    ensures RowOk(Merge(m, DialogPatch(code, operator, packer))) <==> code != "" && operator != "" && packer != ""
  {
  }

  // ----- Upper-cased codes -----

  predicate UpperCased(s: string) {
    ToUpper(s) == s
  }

  lemma ToUpperIsUpperCased(s: string)
    ensures UpperCased(ToUpper(s))
  {
    assert ToUpper(ToUpper(s)) == ToUpper(s);
  }

  /** Every SKU code stored is upper-cased. */
  ghost predicate CodesUpperCased(s: seq<MachineData>) {
    forall i :: 0 <= i < |s| && s[i].code.Some? ==> UpperCased(s[i].code.value)
  }

  // ----- Status counters and sorting -----

  function HasStatus(st: MachineStatus): MachineData -> bool {
    (m: MachineData) => m.status == st
  }

  function IsActiveOrWaiting(m: MachineData): bool {
    m.status == Active || m.status == Waiting
  }

  function HasCode(m: MachineData): bool {
    Filled(m.code)
  }

  /** Every machine has one of the three statuses, so the counters add up to
      the number of machines. */
  lemma StatusCountsPartition(s: seq<MachineData>)
    ensures |Filter(s, HasStatus(Active))| + |Filter(s, HasStatus(Waiting))| + |Filter(s, HasStatus(Inactive))| == |s|
  {
    FilterDisjointCount(s, HasStatus(Active), HasStatus(Waiting), IsActiveOrWaiting);
    FilterPartitionCount(s, IsActiveOrWaiting, HasStatus(Inactive));
  }

  /** The key `byNumericName` sorts on: the number in the name, or +Infinity. */
  datatype NumKey = Finite(n: nat) | Infinity

  /** How many characters precede the first digit. */
  function NonDigitPrefix(s: string): (k: nat)
    ensures k <= |s|
    ensures forall i :: 0 <= i < k ==> !IsDigit(s[i])
    ensures k < |s| ==> IsDigit(s[k])
  {
    if s == [] || IsDigit(s[0]) then 0 else 1 + NonDigitPrefix(s[1..])
  }

  /** `s[i..j]` is the first maximal run of digits in `s`. */
  ghost predicate FirstDigitRun(s: string, i: nat, j: nat) {
    && i < j <= |s|
    && (forall t :: 0 <= t < i ==> !IsDigit(s[t]))
    && (forall t :: i <= t < j ==> IsDigit(s[t]))
    && (j == |s| || !IsDigit(s[j]))
  }

  /** `byNumericName(name)`: the value of the first run of digits (`/\d+/`),
      or +Infinity when the name has no digit. */
  function ByNumericName(name: string): (r: NumKey)
    ensures r.Infinity? <==> forall t :: 0 <= t < |name| ==> !IsDigit(name[t])
    ensures r.Finite? ==> exists i: nat, j: nat :: FirstDigitRun(name, i, j) && AllDigits(name[i..j]) && r.n == DigitsValue(name[i..j])
  {
    var k := NonDigitPrefix(name);
    if k == |name| then Infinity
    else
      var d := LeadingDigits(name[k..]);
      assert name[k..][0] == name[k] && d != "";
      assert name[k..k + |d|] == d;
      assert FirstDigitRun(name, k, k + |d|);
      Finite(DigitsValue(d))
  }

  /** The comparator `byNumericName(a) - byNumericName(b)` as an order:
      two infinities subtract to NaN, which the sort treats as equal. */
  predicate KeyLe(a: NumKey, b: NumKey) {
    b.Infinity? || (a.Finite? && a.n <= b.n)
  }

  function NameOrder(): (MachineData, MachineData) -> bool {
    (a: MachineData, b: MachineData) => KeyLe(ByNumericName(a.name), ByNumericName(b.name))
  }

  /** `sortedMachines`: the machines ordered by the number in their name,
      machines without a number last. */
  function SortedMachines(s: seq<MachineData>): (r: seq<MachineData>)
    ensures multiset(r) == multiset(s)
    ensures forall i, j :: 0 <= i < j < |r| ==> KeyLe(ByNumericName(r[i].name), ByNumericName(r[j].name))
  {
    assert Total(NameOrder()) && Transitive(NameOrder());
    SortBySorted(s, NameOrder());
    SortBy(s, NameOrder())
  }

  /** In the sorted table every machine whose name has a number precedes
      every machine whose name has none. */
  lemma NumberedFirst(s: seq<MachineData>, i: nat, j: nat)
    requires i < |SortedMachines(s)| && j < |SortedMachines(s)|
    requires ByNumericName(SortedMachines(s)[i].name).Finite?
    requires ByNumericName(SortedMachines(s)[j].name).Infinity?
    ensures i < j
  {
  }

  // ----- Diagram columns -----

  function InColumn(c: int): MachineData -> bool {
    (m: MachineData) => m.position.col == c
  }

  function RowOrder(): (MachineData, MachineData) -> bool {
    (a: MachineData, b: MachineData) => a.position.row <= b.position.row
  }

  /** Column `c` of the diagram: the machines with `position.col == c`,
      ordered by row. */
  function Column(s: seq<MachineData>, c: int): (r: seq<MachineData>)
    ensures forall m :: m in r ==> m.position.col == c
    ensures forall m: MachineData :: m.position.col == c ==> multiset(r)[m] == multiset(s)[m]
    ensures forall i, j :: 0 <= i < j < |r| ==> r[i].position.row <= r[j].position.row
  {
    var inCol := Filter(s, InColumn(c));
    FilterCounts(s, InColumn(c));
    assert Total(RowOrder()) && Transitive(RowOrder());
    SortBySorted(inCol, RowOrder());
    var r := SortBy(inCol, RowOrder());
    assert forall m :: m in r ==> m in multiset(inCol);
    r
  }

  /** The five columns of the diagram. */
  function Columns(s: seq<MachineData>): (cols: seq<seq<MachineData>>)
    ensures |cols| == 5
    ensures forall c :: 0 <= c < 5 ==> cols[c] == Column(s, c)
  {
    seq(5, c requires 0 <= c < 5 => Column(s, c))
  }

  /** A machine appears in the diagram exactly in its own column, as often
      as it is in the list; one whose column is outside 0..4 is not drawn. */
  lemma ColumnsPlaceEachMachine(s: seq<MachineData>, m: MachineData)
    ensures forall c :: 0 <= c < 5 ==>
      multiset(Columns(s)[c])[m] == if m.position.col == c then multiset(s)[m] else 0
  {
    forall c | 0 <= c < 5
      ensures multiset(Columns(s)[c])[m] == if m.position.col == c then multiset(s)[m] else 0
    {
      assert Columns(s)[c] == Column(s, c);
    }
  }

  // ----- The page state -----

  class FloorPlan {
    const registry: seq<Machine>
    const operators: seq<string>
    const packers: seq<string>
    var machineData: seq<MachineData>
    var selectedMachine: Option<MachineData>
    var isDialogOpen: bool
    var focusedMachineId: Option<string>
    var codeInput: string
    var operatorInput: string
    var packerInput: string

    /** The stored codes and the code being typed are upper-cased. */
    ghost predicate Valid()
      reads this
    {
      CodesUpperCased(machineData) && UpperCased(codeInput)
    }

    /** The page at load: each registry machine with its random draw. The
        operator and packer lists are the names of the employees with those
        roles. */
    constructor(registry: seq<Machine>, employees: seq<Employee>, draws: seq<Draw>)
      requires |draws| == |registry|
      ensures Valid()
      ensures this.registry == registry
      ensures |machineData| == |registry| && forall i :: 0 <= i < |registry| ==> machineData[i] == Seeded(registry[i], draws[i])
      ensures operators == Names(Filter(employees, IsRole(Operador)))
      ensures packers == Names(Filter(employees, IsRole(Empacador)))
      ensures selectedMachine.None? && !isDialogOpen && focusedMachineId.None?
    {
      this.registry := registry;
      operators := Names(Filter(employees, IsRole(Operador)));
      packers := Names(Filter(employees, IsRole(Empacador)));
      machineData := seq(|registry|, i requires 0 <= i < |registry| => Seeded(registry[i], draws[i]));
      selectedMachine := None;
      isDialogOpen := false;
      focusedMachineId := None;
      codeInput := "";
      operatorInput := "";
      packerInput := "";
    }

    /** `handleMachineClick(machine)` on the machine at `i`: selects it and
        loads its fields into the inputs. */
    method MachineClick(i: nat)
      requires Valid() && i < |machineData|
      modifies this`selectedMachine, this`focusedMachineId, this`codeInput, this`operatorInput, this`packerInput, this`isDialogOpen
      ensures Valid()
      ensures selectedMachine == Some(machineData[i]) && focusedMachineId == Some(machineData[i].id) && isDialogOpen
      ensures codeInput == machineData[i].code.GetOr("")
      ensures operatorInput == machineData[i].operator.GetOr("") && packerInput == machineData[i].packer.GetOr("")
    {
      var m := machineData[i];
      selectedMachine := Some(m);
      focusedMachineId := Some(m.id);
      codeInput := m.code.GetOr("");
      operatorInput := m.operator.GetOr("");
      packerInput := m.packer.GetOr("");
      isDialogOpen := true;
    }

    /** Typing in the dialog's SKU field stores the text upper-cased. */
    method TypeCode(text: string)
      requires Valid()
      modifies this`codeInput
      ensures Valid() && codeInput == ToUpper(text)
    {
      ToUpperIsUpperCased(text);
      codeInput := ToUpper(text);
    }

    method ChooseOperator(name: string)
      modifies this`operatorInput
      ensures operatorInput == name
    {
      operatorInput := name;
    }

    method ChoosePacker(name: string)
      modifies this`packerInput
      ensures packerInput == name
    {
      packerInput := name;
    }

    /** `handleSave()`: with a machine selected, stores the inputs (empty ones
        as absent) on the machines with its id, closes the dialog and clears
        the inputs; with none selected, does nothing. */
    method Save()
      requires Valid()
      modifies this`machineData, this`isDialogOpen, this`selectedMachine, this`codeInput, this`operatorInput, this`packerInput
      ensures Valid()
      ensures old(selectedMachine).None? ==>
        machineData == old(machineData) && isDialogOpen == old(isDialogOpen) && codeInput == old(codeInput)
        && operatorInput == old(operatorInput) && packerInput == old(packerInput) && selectedMachine.None?
      ensures old(selectedMachine).Some? ==>
        && machineData == QuickUpdate(old(machineData), old(selectedMachine).value.id,
                                      DialogPatch(old(codeInput), old(operatorInput), old(packerInput)))
        && !isDialogOpen && selectedMachine.None?
        && codeInput == "" && operatorInput == "" && packerInput == ""
    {
      if selectedMachine.Some? {
        machineData := QuickUpdate(machineData, selectedMachine.value.id, DialogPatch(codeInput, operatorInput, packerInput));
        isDialogOpen := false;
        selectedMachine := None;
        codeInput := "";
        operatorInput := "";
        packerInput := "";
        assert UpperCased("");
      }
    }

    /** Editing a SKU in the table stores it upper-cased. */
    method QuickSetCode(id: string, text: string)
      requires Valid()
      modifies this`machineData
      ensures Valid()
      ensures machineData == QuickUpdate(old(machineData), id, Patch(Some(Some(ToUpper(text))), None, None))
    {
      ToUpperIsUpperCased(text);
      machineData := QuickUpdate(machineData, id, Patch(Some(Some(ToUpper(text))), None, None));
    }

    /** Choosing an operator in the table; the empty choice clears it. */
    method QuickSetOperator(id: string, name: string)
      requires Valid()
      modifies this`machineData
      ensures Valid()
      ensures machineData == QuickUpdate(old(machineData), id, Patch(None, Some(OrAbsent(name)), None))
    {
      machineData := QuickUpdate(machineData, id, Patch(None, Some(OrAbsent(name)), None));
    }

    /** Choosing a packer in the table; the empty choice clears it. */
    method QuickSetPacker(id: string, name: string)
      requires Valid()
      modifies this`machineData
      ensures Valid()
      ensures machineData == QuickUpdate(old(machineData), id, Patch(None, None, Some(OrAbsent(name))))
    {
      machineData := QuickUpdate(machineData, id, Patch(None, None, Some(OrAbsent(name))));
    }

    /** `handleReset()` with fresh draws: back to the registry, which drops
        every SKU code. */
    method Reset(draws: seq<Draw>)
      requires Valid() && |draws| == |registry|
      modifies this`machineData
      ensures Valid()
      ensures |machineData| == |registry| && forall i :: 0 <= i < |registry| ==> machineData[i] == Seeded(registry[i], draws[i])
      ensures forall i :: 0 <= i < |machineData| ==> machineData[i].code.None?
    {
      machineData := seq(|registry|, i requires 0 <= i < |registry| => Seeded(registry[i], draws[i]));
    }
  }

  /** The employees' names, in order (`map((e) => e.name)`). */
  function Names(s: seq<Employee>): (r: seq<string>)
    ensures |r| == |s| && forall i :: 0 <= i < |s| ==> r[i] == s[i].name
  {
    seq(|s|, i requires 0 <= i < |s| => s[i].name)
  }
}
