/** Values shared by the SupplyChain ledger: addresses, the Role and Status
    enumerations with their numeric encodings, the closed vocabulary of revert
    messages, and the records the ledger stores. */
module Types {

  /** An account address: a 160-bit unsigned number, with 0 as the zero address. */
  const ADDRESS_LIMIT: nat := 0x1_0000_0000_0000_0000_0000_0000_0000_0000_0000_0000
  type Address = a: nat | a < ADDRESS_LIMIT
  const ZERO: Address := 0

  /** The roles an employee may hold. */
  datatype Role = Cook | DeliveryMan | Customer

  /** The textual tag by which a role is passed to addEmployee. */
  function RoleTag(r: Role): (tag: string)
    ensures |tag| > 0
    ensures forall i :: 0 <= i < |tag| ==> 'A' <= tag[i] <= 'Z' || tag[i] == '_'
  {
    match r
    case Cook => "COOK"
    case DeliveryMan => "DELIVERY_MAN"
    case Customer => "CUSTOMER"
  }

  /** Parses a role tag; any tag other than the three known ones is rejected
      with the EMPLOYEE_ROLE revert. */
  function ParseRole(tag: string): (r: Result<Role>)
    ensures r.Ok? ==> RoleTag(r.value) == tag
    ensures r.Err? ==> r.error == EmployeeRole && forall role :: RoleTag(role) != tag
  {
    if tag == "COOK" then Ok(Cook)
    else if tag == "DELIVERY_MAN" then Ok(DeliveryMan)
    else if tag == "CUSTOMER" then Ok(Customer)
    else Err(EmployeeRole)
  }

  /** Every role's own tag parses back to that role. */
  lemma ParseRoleTag(role: Role)
    ensures ParseRole(RoleTag(role)) == Ok(role)
  {
  }

  /** The number a role reads back as from the employees getter. Code 0 is
      what a missing record reads back as, so no role uses it. */
  function RoleCode(r: Role): (code: nat)
    ensures 1 <= code <= 3
  {
    match r
    case Cook => 1
    case DeliveryMan => 2
    case Customer => 3
  }

  /** Distinct roles read back as distinct codes. */
  lemma RoleCodeInjective(a: Role, b: Role)
    requires RoleCode(a) == RoleCode(b)
    ensures a == b
  {
  }

  /** The role code a missing employee record reads back as. */
  const NO_ROLE: nat := 0

  /** The life-cycle of an order. */
  datatype Status = NotExists | Placed | Preparing | Ready | Delivering | Completed

  /** The number a status reads back as from the orders getter. */
  function StatusCode(s: Status): (code: nat)
    ensures code <= 5
    ensures code == 0 <==> s == NotExists
  {
    match s
    case NotExists => 0
    case Placed => 1
    case Preparing => 2
    case Ready => 3
    case Delivering => 4
    case Completed => 5
  }

  /** The step of the forward path that follows `s`, if any. */
  function Successor(s: Status): (next: Option<Status>)
    ensures next.Some? ==> StatusCode(next.value) == StatusCode(s) + 1
    ensures next.None? <==> s == Completed
  {
    match s
    case NotExists => Some(Placed)
    case Placed => Some(Preparing)
    case Preparing => Some(Ready)
    case Ready => Some(Delivering)
    case Delivering => Some(Completed)
    case Completed => None
  }

  /** The reasons a call reverts. */
  datatype RevertMessage =
    | OnlyOwner
    | OnlyEmployee
    | EmployeeZeroAddress
    | CompanyWalletZeroAddress
    | PriceGreaterThanZero
    | OrderMustBePlaced
    | OrderMustBePreparing
    | OrderMustBeReady
    | OrderMustBeDelivering
    | OrderMustBeCompleted
    | OrderNotExists
    | EmployeeRole
    | EmployeeNotExists

  /** The revert string each reason is reported with. */
  function Message(e: RevertMessage): (m: string)
    ensures |m| > 0
  {
    match e
    case OnlyOwner => "Only owner can call this function"
    case OnlyEmployee => "Only employees can call this function"
    case EmployeeZeroAddress => "Employee address cannot be zero address"
    case CompanyWalletZeroAddress => "Company wallet address cannot be zero address"
    case PriceGreaterThanZero => "Price must be greater than 0"
    case OrderMustBePlaced => "Order must be in PLACED status"
    case OrderMustBePreparing => "Order must be in PREPARING status"
    case OrderMustBeReady => "Order must be in READY status"
    case OrderMustBeDelivering => "Order must be in DELIVERING status"
    case OrderMustBeCompleted => "Order must be in COMPLETED status"
    case OrderNotExists => "Order does not exist with this id"
    case EmployeeRole => "Employee role is not valid"
    case EmployeeNotExists => "Employee does not exist with this address"
  }

  /** A revert string stands for exactly one reason. The proof goes family
      by family, so that each step compares one group of strings with all
      the others. */
  lemma MessageInjective(a: RevertMessage, b: RevertMessage)
    requires Message(a) == Message(b)
    ensures a == b
  {
    if a == OnlyOwner || a == OnlyEmployee || a == CompanyWalletZeroAddress || a == PriceGreaterThanZero {
      MessageInjectiveGeneral(a, b);
    } else if a == EmployeeZeroAddress || a == EmployeeRole || a == EmployeeNotExists {
      MessageInjectiveEmployee(a, b);
    } else if a == OrderMustBePlaced || a == OrderMustBePreparing || a == OrderMustBeReady {
      MessageInjectiveStatus(a, b);
    } else {
      MessageInjectiveOrder(a, b);
    }
  }

  /** The caller, wallet and price messages are not the message of any other reason. */
  lemma MessageInjectiveGeneral(a: RevertMessage, b: RevertMessage)
    requires a == OnlyOwner || a == OnlyEmployee || a == CompanyWalletZeroAddress || a == PriceGreaterThanZero
    requires Message(a) == Message(b)
    ensures a == b
  {
  }

  /** The employee messages are not the message of any other reason. */
  lemma MessageInjectiveEmployee(a: RevertMessage, b: RevertMessage)
    requires a == EmployeeZeroAddress || a == EmployeeRole || a == EmployeeNotExists
    requires Message(a) == Message(b)
    ensures a == b
  {
  }

  /** The PLACED, PREPARING and READY messages are not the message of any other reason. */
  lemma MessageInjectiveStatus(a: RevertMessage, b: RevertMessage)
    requires a == OrderMustBePlaced || a == OrderMustBePreparing || a == OrderMustBeReady
    requires Message(a) == Message(b)
    ensures a == b
  {
  }

  /** The DELIVERING, COMPLETED and missing-order messages are not the message of any other reason. */
  lemma MessageInjectiveOrder(a: RevertMessage, b: RevertMessage)
    requires a == OrderMustBeDelivering || a == OrderMustBeCompleted || a == OrderNotExists
    requires Message(a) == Message(b)
    ensures a == b
  {
  }

  datatype Option<T> = None | Some(value: T)

  /** The outcome of a call: success with a value, or a revert. */
  datatype Result<T> = Ok(value: T) | Err(error: RevertMessage)

  /** A record of the employees mapping. */
  datatype Employee = Employee(account: Address, role: Role)

  /** A record of the orders mapping. An unassigned cook or delivery man is
      the zero address. */
  datatype Order = Order(customer: Address, price: nat, status: Status, cook: Address, deliveryMan: Address)

  /** The event emitted by each successful order transition. */
  datatype Event = OrderPlaced | OrderPreparing | OrderReady | OrderInDelivery
}
