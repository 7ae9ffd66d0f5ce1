/** Sequences of calls against the ledger. Each call is applied in turn, a
    reverted call leaving the state as it was, and the lemmas here state what
    holds across any such history: the invariant is kept, the owner never
    changes, an order's customer and price are fixed, its status only moves
    forward, its cook and delivery man are assigned once, ids are never
    reused and the event log only grows. */
module Transactions {
  import opened Types
  import L = Ledger

  /** One call to one entry point, with its sender. */
  datatype Tx =
    | UpdateCompanyWalletAddress(caller: Address, wallet: Address)
    | AddEmployee(caller: Address, account: Address, tag: string)
    | RemoveEmployee(caller: Address, account: Address)
    | PlaceOrder(caller: Address, value: nat)
    | PrepareOrder(caller: Address, id: nat)
    | ReadyOrder(caller: Address, id: nat)
    | DeliverOrder(caller: Address, id: nat)

  /** The state after one call, whether or not it reverted. */
  function Apply(s: L.State, tx: Tx): L.State
  {
    match tx
    case UpdateCompanyWalletAddress(c, w) => L.UpdateCompanyWalletAddress(s, c, w).post
    case AddEmployee(c, a, tag) => L.AddEmployee(s, c, a, tag).post
    case RemoveEmployee(c, a) => L.RemoveEmployee(s, c, a).post
    case PlaceOrder(c, v) => L.PlaceOrder(s, c, v).post
    case PrepareOrder(c, id) => L.PrepareOrder(s, c, id).post
    case ReadyOrder(c, id) => L.ReadyOrder(s, c, id).post
    case DeliverOrder(c, id) => L.DeliverOrder(s, c, id).post
  }

  /** The state after the calls `txs`, in order. */
  function Run(s: L.State, txs: seq<Tx>): L.State
    decreases |txs|
  {
    if txs == [] then s else Run(Apply(s, txs[0]), txs[1..])
  }

  /** What a later record of the same order keeps of an earlier one. */
  predicate Persists(before: Order, after: Order)
  {
    && after.customer == before.customer
    && after.price == before.price
    && StatusCode(before.status) <= StatusCode(after.status)
    && (before.cook != ZERO ==> after.cook == before.cook)
    && (before.deliveryMan != ZERO ==> after.deliveryMan == before.deliveryMan)
  }

  /** `t` can follow `s`: same owner, the id counter has not gone back, the
      event log of `s` is a prefix of that of `t`, and every order of `s` is
      still there and persists. */
  ghost predicate Evolves(s: L.State, t: L.State)
  {
    && t.owner == s.owner
    && s.nextOrderId <= t.nextOrderId
    && s.events <= t.events
    && forall id :: id in s.orders ==> id in t.orders && Persists(s.orders[id], t.orders[id])
  }

  /** One call keeps the invariant and evolves the state. */
  lemma ApplyEvolves(s: L.State, tx: Tx)
    requires L.Valid(s)
    ensures L.Valid(Apply(s, tx))
    ensures Evolves(s, Apply(s, tx))
  {
  }

  /** Any history keeps the invariant and evolves the state. */
  lemma {:induction false} RunEvolves(s: L.State, txs: seq<Tx>)
    requires L.Valid(s)
    ensures L.Valid(Run(s, txs))
    ensures Evolves(s, Run(s, txs))
    decreases |txs|
  {
    if txs != [] {
      var s1 := Apply(s, txs[0]);
      ApplyEvolves(s, txs[0]);
      RunEvolves(s1, txs[1..]);
    }
  }

  /** Every order that exists after a history from `s` but not before it has
      an id that `s` had not handed out yet: ids are never reused. */
  lemma {:induction false} NewOrdersHaveFreshIds(s: L.State, txs: seq<Tx>, id: nat)
    requires L.Valid(s)
    requires id in Run(s, txs).orders && id !in s.orders
    ensures s.nextOrderId <= id < Run(s, txs).nextOrderId
  {
    RunEvolves(s, txs);
  }

  /** The order history of the deliverOrder test: the owner hires a cook and a
      delivery man, a customer places an order, the cook prepares it and
      marks it ready, the delivery man takes it. Order 1 then is DELIVERING
      with that cook and delivery man, and the four events were emitted. */
  function Pipeline(owner: Address, customer: Address, cook: Address, deliveryMan: Address, price: nat): seq<Tx>
  {
    [ AddEmployee(owner, cook, "COOK"),
      AddEmployee(owner, deliveryMan, "DELIVERY_MAN"),
      PlaceOrder(customer, price),
      PrepareOrder(cook, 1),
      ReadyOrder(cook, 1),
      DeliverOrder(deliveryMan, 1) ]
  }

  lemma {:induction false} PipelineDelivers(owner: Address, customer: Address, cook: Address, deliveryMan: Address, price: nat)
    requires cook != ZERO && deliveryMan != ZERO && price > 0
    ensures var t := Run(L.Init(owner), Pipeline(owner, customer, cook, deliveryMan, price));
      && L.OrderView(t, 1) == Order(customer, price, Delivering, cook, deliveryMan)
      && t.events == [OrderPlaced, OrderPreparing, OrderReady, OrderInDelivery]
      && t.nextOrderId == 2
  {
    var txs := Pipeline(owner, customer, cook, deliveryMan, price);
    var s0 := L.Init(owner);
    var s2 := Hire(owner, cook, deliveryMan);
    OrderLifecycle(s2, customer, cook, deliveryMan, price);
    assert txs[2..] == Lifecycle(customer, cook, deliveryMan, price, 1);
    RunStep(L.AddEmployee(s0, owner, cook, "COOK").post, txs[1..]);
    RunStep(s0, txs);
  }

  /** The order calls of the deliverOrder test, for the order numbered `id`. */
  function Lifecycle(customer: Address, cook: Address, deliveryMan: Address, price: nat, id: nat): seq<Tx>
  {
    [PlaceOrder(customer, price), PrepareOrder(cook, id), ReadyOrder(cook, id), DeliverOrder(deliveryMan, id)]
  }

  /** In any valid ledger with a cook and a delivery man on staff, a new
      order placed with a positive price, then prepared and readied by the
      cook and taken by the delivery man, gets the next id and ends
      DELIVERING with that cook and delivery man. The four events are
      appended in order, and every other order is untouched. */
  lemma {:induction false} OrderLifecycle(s: L.State, customer: Address, cook: Address, deliveryMan: Address, price: nat)
    requires L.Valid(s) && L.IsEmployee(s, cook) && L.IsEmployee(s, deliveryMan) && price > 0
    ensures var t := Run(s, Lifecycle(customer, cook, deliveryMan, price, s.nextOrderId));
      && L.OrderView(t, s.nextOrderId) == Order(customer, price, Delivering, cook, deliveryMan)
      && (forall j :: j != s.nextOrderId ==> L.OrderView(t, j) == L.OrderView(s, j))
      && t.events == s.events + [OrderPlaced, OrderPreparing, OrderReady, OrderInDelivery]
      && t.nextOrderId == s.nextOrderId + 1
      && t.owner == s.owner && t.companyWallet == s.companyWallet && t.employees == s.employees
  {
    var id := s.nextOrderId;
    RunLifecycle(s, customer, cook, deliveryMan, price, id);
    PlaceThenPrepare(s, customer, cook, price);
    ReadyThenDeliver(L.PrepareOrder(L.PlaceOrder(s, customer, price).post, cook, id).post, cook, deliveryMan, id, customer, price);
  }

  /** The life-cycle calls, applied one after the other. */
  lemma {:induction false} RunLifecycle(s: L.State, customer: Address, cook: Address, deliveryMan: Address, price: nat, id: nat)
    ensures Run(s, Lifecycle(customer, cook, deliveryMan, price, id))
      == L.DeliverOrder(L.ReadyOrder(L.PrepareOrder(L.PlaceOrder(s, customer, price).post, cook, id).post, cook, id).post, deliveryMan, id).post
  {
    var txs := Lifecycle(customer, cook, deliveryMan, price, id);
    var s1 := Apply(s, txs[0]);
    var s2 := Apply(s1, txs[1]);
    var s3 := Apply(s2, txs[2]);
    RunStep(s3, txs[3..]);
    RunStep(s2, txs[2..]);
    RunStep(s1, txs[1..]);
    RunStep(s, txs);
  }

  /** The first half of the life-cycle: an order is placed and the cook
      starts preparing it. */
  lemma PlaceThenPrepare(s: L.State, customer: Address, cook: Address, price: nat)
    requires L.Valid(s) && L.IsEmployee(s, cook) && price > 0
    ensures var t := L.PrepareOrder(L.PlaceOrder(s, customer, price).post, cook, s.nextOrderId).post;
      && L.Valid(t)
      && L.OrderView(t, s.nextOrderId) == Order(customer, price, Preparing, cook, ZERO)
      && (forall j :: j != s.nextOrderId ==> L.OrderView(t, j) == L.OrderView(s, j))
      && t.events == s.events + [OrderPlaced, OrderPreparing]
      && t.nextOrderId == s.nextOrderId + 1
      && t.owner == s.owner && t.companyWallet == s.companyWallet && t.employees == s.employees
  {
  }

  /** The second half of the life-cycle: the cook marks a PREPARING order
      ready and the delivery man takes it. */
  lemma ReadyThenDeliver(s: L.State, cook: Address, deliveryMan: Address, id: nat, customer: Address, price: nat)
    requires L.Valid(s) && L.IsEmployee(s, cook) && L.IsEmployee(s, deliveryMan)
    requires L.OrderView(s, id) == Order(customer, price, Preparing, cook, ZERO)
    ensures var t := L.DeliverOrder(L.ReadyOrder(s, cook, id).post, deliveryMan, id).post;
      && L.OrderView(t, id) == Order(customer, price, Delivering, cook, deliveryMan)
      && (forall j :: j != id ==> L.OrderView(t, j) == L.OrderView(s, j))
      && t.events == s.events + [OrderReady, OrderInDelivery]
      && t.nextOrderId == s.nextOrderId
      && t.owner == s.owner && t.companyWallet == s.companyWallet && t.employees == s.employees
  {
  }

  /** The first two calls of the pipeline: the owner hires both employees. */
  function Hire(owner: Address, cook: Address, deliveryMan: Address): (s: L.State)
    requires cook != ZERO && deliveryMan != ZERO
    ensures L.Valid(s) && L.IsEmployee(s, cook) && L.IsEmployee(s, deliveryMan)
    ensures s.orders == map[] && s.nextOrderId == 1 && s.events == []
  {
    var s1 := L.AddEmployee(L.Init(owner), owner, cook, "COOK").post;
    L.AddEmployee(s1, owner, deliveryMan, "DELIVERY_MAN").post
  }

  /** Unfolds one call of a non-empty history. */
  lemma RunStep(s: L.State, txs: seq<Tx>)
    requires txs != []
    ensures Run(s, txs) == Run(Apply(s, txs[0]), txs[1..])
  {
  }

  /** The second test of "order is not in PLACED status": after the cook has
      prepared order 1, preparing it again reverts with ORDER_MUST_BE_PLACED
      and changes nothing. */
  lemma {:induction false} PrepareTwiceReverts(owner: Address, customer: Address, cook: Address, price: nat)
    requires cook != ZERO && price > 0
    ensures var t := Run(L.Init(owner), [AddEmployee(owner, cook, "COOK"), PlaceOrder(customer, price), PrepareOrder(cook, 1)]);
      L.PrepareOrder(t, cook, 1) == L.Outcome(t, Err(OrderMustBePlaced))
  {
    var txs := [AddEmployee(owner, cook, "COOK"), PlaceOrder(customer, price), PrepareOrder(cook, 1)];
    var s1 := Apply(L.Init(owner), txs[0]);
    var s2 := Apply(s1, txs[1]);
    var s3 := Apply(s2, txs[2]);
    assert L.IsEmployee(s3, cook) && L.OrderView(s3, 1).status == Preparing;
    assert Run(s3, txs[3..]) == s3;
    assert Run(s2, txs[2..]) == s3;
    assert Run(s1, txs[1..]) == s3;
  }
}
