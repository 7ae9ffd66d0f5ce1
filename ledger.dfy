/** The SupplyChain ledger as a value: its state, the invariant every
    reachable state keeps, the getters' read-back views, and one function per
    entry point giving the state after the call and the call's result. A call
    that reverts leaves the state exactly as it was. */
module Ledger {
  import opened Types

  datatype State = State(
    owner: Address,
    companyWallet: Address,
    employees: map<Address, Employee>,
    orders: map<nat, Order>,
    nextOrderId: nat,
    events: seq<Event>)

  /** The state after a call, and what the call returned or why it reverted. */
  datatype Outcome<T> = Outcome(post: State, result: Result<T>)

  /** What the orders getter reads back for an id that holds no order. */
  const NO_ORDER: Order := Order(ZERO, 0, NotExists, ZERO, ZERO)

  /** Which of cook and delivery man an order in each status has: both are
      unset while PLACED, the cook is set from PREPARING on, the delivery man
      from DELIVERING on. Only PLACED to DELIVERING are ever stored. */
  predicate Staffed(o: Order)
  {
    match o.status
    case Placed => o.cook == ZERO && o.deliveryMan == ZERO
    case Preparing => o.cook != ZERO && o.deliveryMan == ZERO
    case Ready => o.cook != ZERO && o.deliveryMan == ZERO
    case Delivering => o.cook != ZERO && o.deliveryMan != ZERO
    case _ => false
  }

  /** The invariant of every reachable ledger: employees are keyed by their
      own non-zero address, the stored order ids are exactly 1 up to (not
      including) the next id, and every stored order has a positive price
      and is staffed as its status requires. */
  ghost predicate Valid(s: State)
  {
    && 1 <= s.nextOrderId
    && (forall a :: a in s.employees ==> a != ZERO && s.employees[a].account == a)
    && (forall id :: id in s.orders <==> 1 <= id < s.nextOrderId)
    && (forall id :: id in s.orders ==> s.orders[id].price > 0 && Staffed(s.orders[id]))
  }

  predicate IsEmployee(s: State, a: Address)
  {
    a in s.employees
  }

  predicate OrderExists(s: State, id: nat)
  {
    id in s.orders
  }

  /** The orders getter: a missing id reads back as the all-zero record. */
  function OrderView(s: State, id: nat): (o: Order)
    ensures id !in s.orders ==> o == NO_ORDER
    ensures Valid(s) ==> (o.status == NotExists <==> id !in s.orders)
    ensures Valid(s) && o.status != NotExists ==> o.price > 0
  {
    if id in s.orders then s.orders[id] else NO_ORDER
  }

  /** The employees getter: the stored address and role code, or the zero
      address and role code 0 for an address that is not an employee. */
  function EmployeeView(s: State, a: Address): (v: (Address, nat))
    ensures v.1 == NO_ROLE <==> !IsEmployee(s, a)
    ensures Valid(s) ==> (v.0 == ZERO <==> !IsEmployee(s, a))
    ensures Valid(s) && IsEmployee(s, a) ==> v.0 == a
  {
    if a in s.employees then (s.employees[a].account, RoleCode(s.employees[a].role)) else (ZERO, NO_ROLE)
  }

  /** An order exists exactly when its status does not read back as
      NOT_EXISTS, and exactly when its id has already been handed out. */
  lemma OrderExistsIff(s: State, id: nat)
    requires Valid(s)
    ensures OrderExists(s, id) <==> OrderView(s, id).status != NotExists
    ensures OrderExists(s, id) <==> 1 <= id < s.nextOrderId
  {
  }

  /** `t` differs from `s` only in the record of order `id`, which becomes
      `o`, and in one more event `e`. */
  ghost predicate UpdatesOrder(s: State, t: State, id: nat, o: Order, e: Event)
  {
    && t == s.(orders := t.orders, events := t.events)
    && t.orders.Keys == s.orders.Keys
    && OrderView(t, id) == o
    && (forall j :: j != id ==> OrderView(t, j) == OrderView(s, j))
    && t.events == s.events + [e]
  }

  /** The freshly deployed ledger: owner and company wallet are the deployer,
      nobody is an employee, no order exists and the first id is 1. */
  function Init(deployer: Address): (s: State)
    ensures Valid(s)
    ensures s.owner == deployer && s.companyWallet == deployer
    ensures forall a :: EmployeeView(s, a) == (ZERO, NO_ROLE)
    ensures forall id :: OrderView(s, id) == NO_ORDER
    ensures s.nextOrderId == 1 && s.events == []
  {
    State(deployer, deployer, map[], map[], 1, [])
  }

  /** updateCompanyWalletAddress: owner only, and the new wallet must not be
      the zero address. */
  function UpdateCompanyWalletAddress(s: State, caller: Address, wallet: Address): (o: Outcome<()>)
    ensures o.result == Err(OnlyOwner) <==> caller != s.owner
    ensures o.result == Err(CompanyWalletZeroAddress) <==> caller == s.owner && wallet == ZERO
    ensures o.result.Ok? <==> caller == s.owner && wallet != ZERO
    ensures o.result.Err? ==> o.post == s
    ensures o.result.Ok? ==> o.post == s.(companyWallet := wallet)
    ensures Valid(s) ==> Valid(o.post)
  {
    if caller != s.owner then Outcome(s, Err(OnlyOwner))
    else if wallet == ZERO then Outcome(s, Err(CompanyWalletZeroAddress))
    else Outcome(s.(companyWallet := wallet), Ok(()))
  }

  /** addEmployee: owner only, the address must not be zero and the tag must
      name a role; the record is inserted, or overwritten if present. */
  function AddEmployee(s: State, caller: Address, account: Address, tag: string): (o: Outcome<()>)
    ensures o.result == Err(OnlyOwner) <==> caller != s.owner
    ensures o.result == Err(EmployeeZeroAddress) <==> caller == s.owner && account == ZERO
    ensures o.result == Err(EmployeeRole) <==> caller == s.owner && account != ZERO && ParseRole(tag).Err?
    ensures o.result.Ok? <==> caller == s.owner && account != ZERO && ParseRole(tag).Ok?
    ensures o.result.Err? ==> o.post == s
    ensures o.result.Ok? ==>
      && o.post == s.(employees := o.post.employees)
      && IsEmployee(o.post, account)
      && EmployeeView(o.post, account) == (account, RoleCode(ParseRole(tag).value))
      && (forall a :: a != account ==> EmployeeView(o.post, a) == EmployeeView(s, a))
    ensures Valid(s) ==> Valid(o.post)
  {
    if caller != s.owner then Outcome(s, Err(OnlyOwner))
    else if account == ZERO then Outcome(s, Err(EmployeeZeroAddress))
    else match ParseRole(tag)
      case Err(e) => Outcome(s, Err(e))
      case Ok(role) => Outcome(s.(employees := s.employees[account := Employee(account, role)]), Ok(()))
  }

  /** removeEmployee: owner only (checked first), the address must not be
      zero and must be an employee; the record is deleted. */
  function RemoveEmployee(s: State, caller: Address, account: Address): (o: Outcome<()>)
    ensures o.result == Err(OnlyOwner) <==> caller != s.owner
    ensures o.result == Err(EmployeeZeroAddress) <==> caller == s.owner && account == ZERO
    ensures o.result == Err(EmployeeNotExists) <==> caller == s.owner && account != ZERO && !IsEmployee(s, account)
    ensures o.result.Ok? <==> caller == s.owner && account != ZERO && IsEmployee(s, account)
    ensures o.result.Err? ==> o.post == s
    ensures o.result.Ok? ==>
      && o.post == s.(employees := o.post.employees)
      && !IsEmployee(o.post, account)
      && EmployeeView(o.post, account) == (ZERO, NO_ROLE)
      && (forall a :: a != account ==> EmployeeView(o.post, a) == EmployeeView(s, a))
    ensures Valid(s) ==> Valid(o.post)
  {
    if caller != s.owner then Outcome(s, Err(OnlyOwner))
    else if account == ZERO then Outcome(s, Err(EmployeeZeroAddress))
    else if account !in s.employees then Outcome(s, Err(EmployeeNotExists))
    else Outcome(s.(employees := s.employees - {account}), Ok(()))
  }

  /** placeOrder: anyone may call it with a positive value; the order gets the
      next id, the caller as customer, the value as price and status PLACED,
      and OrderPlaced is emitted. The call returns the new id. */
  function PlaceOrder(s: State, caller: Address, value: nat): (o: Outcome<nat>)
    ensures o.result.Err? <==> value == 0
    ensures o.result.Err? ==> o.result.error == PriceGreaterThanZero && o.post == s
    ensures o.result.Ok? ==>
      var id := o.result.value;
      && id == s.nextOrderId
      && o.post == s.(orders := o.post.orders, nextOrderId := id + 1, events := s.events + [OrderPlaced])
      && o.post.orders.Keys == s.orders.Keys + {id}
      && OrderView(o.post, id) == Order(caller, value, Placed, ZERO, ZERO)
      && (forall j :: j != id ==> OrderView(o.post, j) == OrderView(s, j))
      && (Valid(s) ==> !OrderExists(s, id))
    ensures Valid(s) ==> Valid(o.post)
  {
    if value == 0 then Outcome(s, Err(PriceGreaterThanZero))
    else
      var id := s.nextOrderId;
      var post := s.(orders := s.orders[id := Order(caller, value, Placed, ZERO, ZERO)],
                     nextOrderId := id + 1,
                     events := s.events + [OrderPlaced]);
      Outcome(post, Ok(id))
  }

  /** prepareOrder: employees only (checked first), the order must exist and
      be PLACED; it becomes PREPARING with the caller as cook, and
      OrderPreparing is emitted. */
  function PrepareOrder(s: State, caller: Address, id: nat): (o: Outcome<()>)
    ensures o.result == Err(OnlyEmployee) <==> !IsEmployee(s, caller)
    ensures o.result == Err(OrderNotExists) <==> IsEmployee(s, caller) && !OrderExists(s, id)
    ensures o.result == Err(OrderMustBePlaced) <==>
      IsEmployee(s, caller) && OrderExists(s, id) && OrderView(s, id).status != Placed
    ensures o.result.Ok? <==> IsEmployee(s, caller) && OrderView(s, id).status == Placed
    ensures o.result.Err? ==> o.post == s
    ensures o.result.Ok? ==>
      UpdatesOrder(s, o.post, id, OrderView(s, id).(status := Preparing, cook := caller), OrderPreparing)
    ensures Valid(s) ==> Valid(o.post)
  {
    if caller !in s.employees then Outcome(s, Err(OnlyEmployee))
    else if id !in s.orders then Outcome(s, Err(OrderNotExists))
    else if s.orders[id].status != Placed then Outcome(s, Err(OrderMustBePlaced))
    else
      var order := s.orders[id].(status := Preparing, cook := caller);
      Outcome(s.(orders := s.orders[id := order], events := s.events + [OrderPreparing]), Ok(()))
  }

  /** readyOrder: employees only (checked first), the order must exist and be
      PREPARING; it becomes READY and OrderReady is emitted. */
  function ReadyOrder(s: State, caller: Address, id: nat): (o: Outcome<()>)
    ensures o.result == Err(OnlyEmployee) <==> !IsEmployee(s, caller)
    ensures o.result == Err(OrderNotExists) <==> IsEmployee(s, caller) && !OrderExists(s, id)
    ensures o.result == Err(OrderMustBePreparing) <==>
      IsEmployee(s, caller) && OrderExists(s, id) && OrderView(s, id).status != Preparing
    ensures o.result.Ok? <==> IsEmployee(s, caller) && OrderView(s, id).status == Preparing
    ensures o.result.Err? ==> o.post == s
    ensures o.result.Ok? ==>
      UpdatesOrder(s, o.post, id, OrderView(s, id).(status := Ready), OrderReady)
    ensures Valid(s) ==> Valid(o.post)
  {
    if caller !in s.employees then Outcome(s, Err(OnlyEmployee))
    else if id !in s.orders then Outcome(s, Err(OrderNotExists))
    else if s.orders[id].status != Preparing then Outcome(s, Err(OrderMustBePreparing))
    else
      var order := s.orders[id].(status := Ready);
      Outcome(s.(orders := s.orders[id := order], events := s.events + [OrderReady]), Ok(()))
  }

  /** deliverOrder: employees only (checked first), the order must exist and
      be READY; it becomes DELIVERING with the caller as delivery man, and
      OrderInDelivery is emitted. */
  function DeliverOrder(s: State, caller: Address, id: nat): (o: Outcome<()>)
    ensures o.result == Err(OnlyEmployee) <==> !IsEmployee(s, caller)
    ensures o.result == Err(OrderNotExists) <==> IsEmployee(s, caller) && !OrderExists(s, id)
    ensures o.result == Err(OrderMustBeReady) <==>
      IsEmployee(s, caller) && OrderExists(s, id) && OrderView(s, id).status != Ready
    ensures o.result.Ok? <==> IsEmployee(s, caller) && OrderView(s, id).status == Ready
    ensures o.result.Err? ==> o.post == s
    ensures o.result.Ok? ==>
      UpdatesOrder(s, o.post, id, OrderView(s, id).(status := Delivering, deliveryMan := caller), OrderInDelivery)
    ensures Valid(s) ==> Valid(o.post)
  {
    if caller !in s.employees then Outcome(s, Err(OnlyEmployee))
    else if id !in s.orders then Outcome(s, Err(OrderNotExists))
    else if s.orders[id].status != Ready then Outcome(s, Err(OrderMustBeReady))
    else
      var order := s.orders[id].(status := Delivering, deliveryMan := caller);
      Outcome(s.(orders := s.orders[id := order], events := s.events + [OrderInDelivery]), Ok(()))
  }

  /** In a valid ledger, each successful order transition moves the order one
      step along the forward path and sets the cook or delivery man only where
      it was unset before. */
  lemma TransitionsFollowForwardPath(s: State, caller: Address, id: nat)
    requires Valid(s)
    ensures var o := PrepareOrder(s, caller, id);
      o.result.Ok? ==> Successor(OrderView(s, id).status) == Some(OrderView(o.post, id).status)
                       && OrderView(s, id).cook == ZERO && OrderView(o.post, id).cook != ZERO
    ensures var o := ReadyOrder(s, caller, id);
      o.result.Ok? ==> Successor(OrderView(s, id).status) == Some(OrderView(o.post, id).status)
    ensures var o := DeliverOrder(s, caller, id);
      o.result.Ok? ==> Successor(OrderView(s, id).status) == Some(OrderView(o.post, id).status)
                       && OrderView(s, id).deliveryMan == ZERO && OrderView(o.post, id).deliveryMan != ZERO
  {
  }
}
