/** The deployed SupplyChain contract: one object whose fields each entry
    point updates in place. Every entry point takes its sender as `caller`,
    returns either success or the reason it reverted, leaves the object
    untouched when it reverts, and otherwise does what the matching function
    of module Ledger says, so every lemma about Ledger and Transactions
    applies to the object. */
module Contract {
  import opened Types
  import Ledger

  class SupplyChain {
    var owner: Address
    var companyWallet: Address
    var employees: map<Address, Employee>
    var orders: map<nat, Order>
    var nextOrderId: nat
    var events: seq<Event>

    /** The fields, as a Ledger value. */
    function State(): Ledger.State
      reads this
    {
      Ledger.State(owner, companyWallet, employees, orders, nextOrderId, events)
    }

    ghost predicate Valid()
      reads this
    {
      Ledger.Valid(State())
    }

    /** Deployment: the deployer becomes owner and company wallet. */
    constructor (deployer: Address)
      ensures Valid()
      ensures State() == Ledger.Init(deployer)
      ensures owner == deployer && companyWallet == deployer
      ensures employees == map[] && orders == map[] && nextOrderId == 1 && events == []
    {
      owner := deployer;
      companyWallet := deployer;
      employees := map[];
      orders := map[];
      nextOrderId := 1;
      events := [];
    }

    method GetOwner() returns (a: Address)
      ensures a == owner
    {
      a := owner;
    }

    /** getCompanyWalletAddress, readable by the owner only. */
    method GetCompanyWalletAddress(caller: Address) returns (r: Result<Address>)
      ensures r.Ok? <==> caller == owner
      ensures r.Ok? ==> r.value == companyWallet
      ensures r.Err? ==> r.error == OnlyOwner
    {
      if caller != owner {
        return Err(OnlyOwner);
      }
      r := Ok(companyWallet);
    }

    /** The employees getter: a non-employee reads back as the zero address
        with role code 0. */
    method Employees(a: Address) returns (account: Address, role: nat)
      ensures a in employees ==> account == employees[a].account && role == RoleCode(employees[a].role)
      ensures a !in employees ==> account == ZERO && role == NO_ROLE
      ensures (account, role) == Ledger.EmployeeView(State(), a)
    {
      if a in employees {
        account, role := employees[a].account, RoleCode(employees[a].role);
      } else {
        account, role := ZERO, NO_ROLE;
      }
    }

    /** The orders getter: a missing id reads back as all zeros, status
        NOT_EXISTS included. */
    method Orders(id: nat) returns (customer: Address, price: nat, status: nat, cook: Address, deliveryMan: Address)
      ensures id in orders ==>
        && customer == orders[id].customer && price == orders[id].price
        && status == StatusCode(orders[id].status)
        && cook == orders[id].cook && deliveryMan == orders[id].deliveryMan
      ensures id !in orders ==>
        customer == ZERO && price == 0 && status == StatusCode(NotExists) && cook == ZERO && deliveryMan == ZERO
      ensures var o := Ledger.OrderView(State(), id);
        && customer == o.customer && price == o.price && status == StatusCode(o.status)
        && cook == o.cook && deliveryMan == o.deliveryMan
    {
      if id in orders {
        var o := orders[id];
        customer, price, status, cook, deliveryMan := o.customer, o.price, StatusCode(o.status), o.cook, o.deliveryMan;
      } else {
        customer, price, status, cook, deliveryMan := ZERO, 0, StatusCode(NotExists), ZERO, ZERO;
      }
    }

    method UpdateCompanyWalletAddress(caller: Address, wallet: Address) returns (r: Result<()>)
      requires Valid()
      modifies this
      ensures Valid()
      ensures Ledger.UpdateCompanyWalletAddress(old(State()), caller, wallet) == Ledger.Outcome(State(), r)
      ensures r.Err? ==> unchanged(this)
      ensures r.Ok? ==> companyWallet == wallet && State() == old(State()).(companyWallet := wallet)
    {
      if caller != owner {
        return Err(OnlyOwner);
      }
      if wallet == ZERO {
        return Err(CompanyWalletZeroAddress);
      }
      companyWallet := wallet;
      r := Ok(());
    }

    method AddEmployee(caller: Address, account: Address, tag: string) returns (r: Result<()>)
      requires Valid()
      modifies this
      ensures Valid()
      ensures Ledger.AddEmployee(old(State()), caller, account, tag) == Ledger.Outcome(State(), r)
      ensures r.Err? ==> unchanged(this)
      ensures r.Ok? ==>
        && employees == old(employees)[account := Employee(account, ParseRole(tag).value)]
        && State() == old(State()).(employees := employees)
    {
      if caller != owner {
        return Err(OnlyOwner);
      }
      if account == ZERO {
        return Err(EmployeeZeroAddress);
      }
      var parsed := ParseRole(tag);
      if parsed.Err? {
        return Err(parsed.error);
      }
      employees := employees[account := Employee(account, parsed.value)];
      r := Ok(());
    }

    method RemoveEmployee(caller: Address, account: Address) returns (r: Result<()>)
      requires Valid()
      modifies this
      ensures Valid()
      ensures Ledger.RemoveEmployee(old(State()), caller, account) == Ledger.Outcome(State(), r)
      ensures r.Err? ==> unchanged(this)
      ensures r.Ok? ==>
        && account in old(employees)
        && employees == old(employees) - {account}
        && State() == old(State()).(employees := employees)
    {
      if caller != owner {
        return Err(OnlyOwner);
      }
      if account == ZERO {
        return Err(EmployeeZeroAddress);
      }
      if account !in employees {
        return Err(EmployeeNotExists);
      }
      employees := employees - {account};
      r := Ok(());
    }

    /** placeOrder, with `value` the amount sent along with the call. */
    method PlaceOrder(caller: Address, value: nat) returns (r: Result<nat>)
      requires Valid()
      modifies this
      ensures Valid()
      ensures Ledger.PlaceOrder(old(State()), caller, value) == Ledger.Outcome(State(), r)
      ensures r.Err? ==> unchanged(this)
      ensures r.Ok? ==>
        && r.value == old(nextOrderId) && r.value !in old(orders)
        && orders == old(orders)[r.value := Order(caller, value, Placed, ZERO, ZERO)]
        && nextOrderId == old(nextOrderId) + 1
        && events == old(events) + [OrderPlaced]
        && owner == old(owner) && companyWallet == old(companyWallet) && employees == old(employees)
    {
      if value == 0 {
        return Err(PriceGreaterThanZero);
      }
      var id := nextOrderId;
      orders := orders[id := Order(caller, value, Placed, ZERO, ZERO)];
      nextOrderId := nextOrderId + 1;
      events := events + [OrderPlaced];
      r := Ok(id);
    }

    method PrepareOrder(caller: Address, id: nat) returns (r: Result<()>)
      requires Valid()
      modifies this
      ensures Valid()
      ensures Ledger.PrepareOrder(old(State()), caller, id) == Ledger.Outcome(State(), r)
      ensures r.Err? ==> unchanged(this)
      ensures r.Ok? ==>
        && id in old(orders) && old(orders)[id].status == Placed
        && orders == old(orders)[id := old(orders)[id].(status := Preparing, cook := caller)]
        && events == old(events) + [OrderPreparing]
        && State() == old(State()).(orders := orders, events := events)
    {
      if caller !in employees {
        return Err(OnlyEmployee);
      }
      if id !in orders {
        return Err(OrderNotExists);
      }
      var order := orders[id];
      if order.status != Placed {
        return Err(OrderMustBePlaced);
      }
      orders := orders[id := order.(status := Preparing, cook := caller)];
      events := events + [OrderPreparing];
      r := Ok(());
    }

    method ReadyOrder(caller: Address, id: nat) returns (r: Result<()>)
      requires Valid()
      modifies this
      ensures Valid()
      ensures Ledger.ReadyOrder(old(State()), caller, id) == Ledger.Outcome(State(), r)
      ensures r.Err? ==> unchanged(this)
      ensures r.Ok? ==>
        && id in old(orders) && old(orders)[id].status == Preparing
        && orders == old(orders)[id := old(orders)[id].(status := Ready)]
        && events == old(events) + [OrderReady]
        && State() == old(State()).(orders := orders, events := events)
    {
      if caller !in employees {
        return Err(OnlyEmployee);
      }
      if id !in orders {
        return Err(OrderNotExists);
      }
      var order := orders[id];
      if order.status != Preparing {
        return Err(OrderMustBePreparing);
      }
      orders := orders[id := order.(status := Ready)];
      events := events + [OrderReady];
      r := Ok(());
    }

    method DeliverOrder(caller: Address, id: nat) returns (r: Result<()>)
      requires Valid()
      modifies this
      ensures Valid()
      ensures Ledger.DeliverOrder(old(State()), caller, id) == Ledger.Outcome(State(), r)
      ensures r.Err? ==> unchanged(this)
      ensures r.Ok? ==>
        && id in old(orders) && old(orders)[id].status == Ready
        && orders == old(orders)[id := old(orders)[id].(status := Delivering, deliveryMan := caller)]
        && events == old(events) + [OrderInDelivery]
        && State() == old(State()).(orders := orders, events := events)
    {
      if caller !in employees {
        return Err(OnlyEmployee);
      }
      if id !in orders {
        return Err(OrderNotExists);
      }
      var order := orders[id];
      if order.status != Ready {
        return Err(OrderMustBeReady);
      }
      orders := orders[id := order.(status := Delivering, deliveryMan := caller)];
      events := events + [OrderInDelivery];
      r := Ok(());
    }
  }

  /** The "Should remove employee" test against the object: after the owner
      adds an employee as COOK it reads back as itself with code 1, and after
      the owner removes it the employees getter reads the zero address and
      code 0 back. */
  method RemovedEmployeeReadsZero(owner: Address, employee: Address)
    returns (added: (Address, nat), removed: (Address, nat))
    requires employee != ZERO
    ensures added == (employee, 1)
    ensures removed == (ZERO, NO_ROLE)
  {
    var c := new SupplyChain(owner);
    var r := c.AddEmployee(owner, employee, "COOK");
    assert r == Ok(());
    var a, role := c.Employees(employee);
    added := (a, role);
    r := c.RemoveEmployee(owner, employee);
    assert r == Ok(());
    a, role := c.Employees(employee);
    removed := (a, role);
  }
}
