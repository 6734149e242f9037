/** Record shapes of the seed data that several pages share: the machine
    registry and the operators' production tally. */
module Records {

  datatype MachineStatus = Active | Waiting | Inactive

  /** Place of a machine in the floor diagram. */
  datatype Position = Position(row: int, col: int)

  datatype Machine = Machine(id: string, name: string, status: MachineStatus, position: Position)

  /** An operator's tally for the day: machine, product and units made. */
  datatype Operator = Operator(
    id: int,
    initials: string,
    name: string,
    machine: string,
    sku: string,
    units: int,
    percentage: int,
    isLeader: bool)

  datatype Role = Operador | Empacador

  /** An employee with the NFC tag used to clock in. */
  datatype Employee = Employee(id: string, name: string, role: Role, nfcId: string)

  /** The test `e.role === role` the pages filter employees by. */
  function IsRole(role: Role): Employee -> bool {
    (e: Employee) => e.role == role
  }
}
