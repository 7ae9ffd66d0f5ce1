# SupplyChain order ledger in Dafny

A model of the `SupplyChain` contract of pizza-block. The contract records food
orders as they move from customer to cook to delivery man. It keeps an owner, a
company wallet and a register of employees with roles. Orders follow the
numeric status path NOT_EXISTS(0), PLACED(1), PREPARING(2), READY(3),
DELIVERING(4), COMPLETED(5). Each entry point either succeeds or reverts with
one of a fixed set of messages, and a revert leaves the ledger exactly as it
was.

The contract's Solidity source is not part of this model. Its behaviour comes
from the Hardhat suite `hardhat/test/SupplyChain.ts`: its enums, its revert
messages, and one test group per entry point. Where the suite is silent, the
model makes its own assumptions, each listed under "Left out".

Modules:

- `Types` (types.dfy): 160-bit addresses with a zero address, `Role` and its
  textual tags and numeric codes, `Status` and its codes, the revert messages,
  and the employee, order and event records.
- `Ledger` (ledger.dfy): the ledger as a value, `State`. It has the invariant
  `Valid`, the getters' read-back views `EmployeeView` and `OrderView`, and one
  function per entry point. Each function returns the new state and the call's
  result.
- `Transactions` (runs.dfy): sequences of calls and what holds across every
  history. It also states two of the suite's multi-call tests for arbitrary
  addresses.
- `Contract` (contract.dfy): the class `SupplyChain`. Its fields are updated in
  place by one method per entry point. Each method's contract ties the new
  fields to the matching `Ledger` function, so everything proved about
  `Ledger` applies to the object.

The sender of a call (`msg.sender`) is an explicit `caller` parameter. The
value sent with `placeOrder` is the parameter `value`.

## Model

| member | source | states |
|---|---|---|
| `Types.RoleTag` | hardhat/test/SupplyChain.ts:7-11 | Every role is passed as a non-empty tag of capital letters and underscores. |
| `Types.ParseRole` | hardhat/test/SupplyChain.ts:7-11 | A tag that parses yields the role whose tag it is. Any other tag fails with EMPLOYEE_ROLE and matches no role's tag (the invalid-role test at 109-113). |
| `Types.ParseRoleTag` | hardhat/test/SupplyChain.ts:7-11 | Each of COOK, DELIVERY_MAN and CUSTOMER parses back to its own role. |
| `Types.RoleCode` | hardhat/test/SupplyChain.ts:84-92 | A role reads back as a code from 1 to 3, never 0, which is what a missing record reads as. COOK maps to 1, as the test reads back at line 91. |
| `Types.RoleCodeInjective` | hardhat/test/SupplyChain.ts:7-11 | Distinct roles read back as distinct codes. |
| `Types.StatusCode` | hardhat/test/SupplyChain.ts:13-20 | Status codes lie in 0..5, and 0 is exactly NOT_EXISTS. |
| `Types.Successor` | hardhat/test/SupplyChain.ts:13-20 | The forward path raises the status code by exactly one per step and ends at COMPLETED. |
| `Types.Message` | hardhat/test/SupplyChain.ts:22-35 | Each revert reason is reported with a non-empty string, the exact text of the suite's `RevertMessage` enum, and "Employee does not exist with this address" for the missing-employee case at line 147. |
| `Types.MessageInjective` | hardhat/test/SupplyChain.ts:22-35 | Distinct revert reasons are reported with distinct strings, so each test's expected revert string matches exactly one reason. |
| `Ledger.OrderView` | hardhat/test/SupplyChain.ts:160-164 | A missing id reads back as the all-zero record. In a valid ledger the status reads NOT_EXISTS exactly when no order exists, and an existing order has a positive price. |
| `Ledger.EmployeeView` | hardhat/test/SupplyChain.ts:87-91 | The role code reads 0 exactly for a non-employee. In a valid ledger the address reads as zero exactly for a non-employee, and an employee reads back as its own address. |
| `Ledger.Init` | hardhat/test/SupplyChain.ts:47-53 | A fresh ledger is valid. Owner and company wallet are the deployer. Every address reads back as no employee, every id as no order, and the first id is 1. |
| `Ledger.OrderExistsIff` | hardhat/test/SupplyChain.ts:199-205 | In a valid ledger an order exists iff its status does not read back as NOT_EXISTS, iff its id lies between 1 and the next id, exclusive. |
| `Ledger.UpdateCompanyWalletAddress` | hardhat/test/SupplyChain.ts:55-80 | ONLY_OWNER iff the caller is not the owner. COMPANY_WALLET_ZERO_ADDRESS iff the owner passes the zero address. Otherwise only the company wallet changes. A revert changes nothing, and validity is preserved. |
| `Ledger.AddEmployee` | hardhat/test/SupplyChain.ts:84-114 | ONLY_OWNER iff not the owner; EMPLOYEE_ZERO_ADDRESS iff the owner passes zero; EMPLOYEE_ROLE iff the tag does not parse. On success the address reads back as itself with the role's code. All other employees and all other fields are untouched. |
| `Ledger.RemoveEmployee` | hardhat/test/SupplyChain.ts:117-148 | The owner check comes first, so ONLY_OWNER iff not the owner, whether or not the employee exists. Then EMPLOYEE_ZERO_ADDRESS for zero, and "Employee does not exist" iff there is no such employee. On success the address reads back as the zero address with code 0, and nothing else changes. |
| `Ledger.PlaceOrder` | hardhat/test/SupplyChain.ts:151-172 | Reverts (PRICE_GREATER_THAN_ZERO) iff the value is 0. On success it returns the next id, never used before. That id reads back as (caller, value, PLACED, no cook, no delivery man). The counter goes up by one, OrderPlaced is appended, and no other order changes. |
| `Ledger.PrepareOrder` | hardhat/test/SupplyChain.ts:175-216 | ONLY_EMPLOYEE iff the caller is not an employee, with any role allowed. ORDER_NOT_EXISTS iff an employee names a missing id. ORDER_MUST_BE_PLACED iff the order is not PLACED. On success only that order changes: it becomes PREPARING with the caller as cook, and OrderPreparing is appended. |
| `Ledger.ReadyOrder` | hardhat/test/SupplyChain.ts:219-260 | The same three checks, with PREPARING required (ORDER_MUST_BE_PREPARING). On success only that order changes, to READY, and OrderReady is appended. |
| `Ledger.DeliverOrder` | hardhat/test/SupplyChain.ts:262-306 | The same three checks, with READY required (ORDER_MUST_BE_READY). On success only that order changes: it becomes DELIVERING with the caller as delivery man, and OrderInDelivery is appended. |
| `Ledger.TransitionsFollowForwardPath` | hardhat/test/SupplyChain.ts:13-20 | In a valid ledger, each successful prepare, ready or deliver moves the order to the successor of its status. Prepare sets a cook where there was none. Deliver sets a delivery man where there was none. |
| `Transactions.ApplyEvolves` | hardhat/test/SupplyChain.ts:55-306 | Any single call keeps the ledger valid. It keeps the owner, never lowers the id counter, only appends events, and keeps every order's customer and price. It never lowers an order's status and never reassigns its cook or delivery man. |
| `Transactions.RunEvolves` | hardhat/test/SupplyChain.ts:151-306 | The same holds from the start to the end of any sequence of calls. |
| `Transactions.NewOrdersHaveFreshIds` | hardhat/test/SupplyChain.ts:156-160 | An order created during any history has an id not yet handed out at its start, so ids are never reused. |
| `Transactions.PipelineDelivers` | hardhat/test/SupplyChain.ts:263-277 | Take any owner, customer, non-zero cook and delivery man, and positive price. Hiring both, placing, preparing, readying and delivering leaves order 1 as (customer, price, DELIVERING, cook, delivery man), with the four events in order. |
| `Transactions.OrderLifecycle` | hardhat/test/SupplyChain.ts:263-277 | In any valid ledger with a cook and a delivery man on staff, placing an order with a positive price, then preparing, readying and delivering it, gives it the next id. It ends DELIVERING with that cook and delivery man; the four events are appended in order; the counter goes up by one; no other order, employee, owner or wallet changes. |
| `Transactions.PlaceThenPrepare` | hardhat/test/SupplyChain.ts:176-189 | Placing an order and having an employee prepare it leaves it PREPARING with that cook and no delivery man. Two events are appended, and no other order changes. |
| `Transactions.ReadyThenDeliver` | hardhat/test/SupplyChain.ts:263-277 | A PREPARING order marked ready by its cook and taken by an employee ends DELIVERING with that delivery man. Two events are appended, and no other order changes. |
| `Transactions.PrepareTwiceReverts` | hardhat/test/SupplyChain.ts:207-216 | After one successful prepare, a second prepare by the cook reverts with ORDER_MUST_BE_PLACED and changes nothing. |
| `Contract.SupplyChain.constructor` | hardhat/test/SupplyChain.ts:40-53 | Deployment yields a valid ledger equal to `Ledger.Init` of the deployer: owner and company wallet are the deployer. |
| `Contract.SupplyChain.GetOwner` | hardhat/test/SupplyChain.ts:49 | Returns the owner. |
| `Contract.SupplyChain.GetCompanyWalletAddress` | hardhat/test/SupplyChain.ts:50-52 | The owner reads the company wallet. Any other caller gets ONLY_OWNER. |
| `Contract.SupplyChain.Employees` | hardhat/test/SupplyChain.ts:87-91 | An employee reads back as its stored address and role code. A non-employee reads back as the zero address and code 0. The result is `Ledger.EmployeeView` of the object's state. |
| `Contract.SupplyChain.Orders` | hardhat/test/SupplyChain.ts:160-164 | A stored order reads back field by field, with its status as a number. A missing id reads back as all zeros, status NOT_EXISTS. The result is `Ledger.OrderView` of the object's state, field by field. |
| `Contract.SupplyChain.UpdateCompanyWalletAddress` | hardhat/test/SupplyChain.ts:55-80 | The in-place update agrees with `Ledger.UpdateCompanyWalletAddress` and keeps the object valid. A revert leaves the object unchanged; success changes only the company wallet. |
| `Contract.SupplyChain.AddEmployee` | hardhat/test/SupplyChain.ts:84-114 | Agrees with `Ledger.AddEmployee`. A revert changes nothing. Success inserts or overwrites the record `(account, role)` and nothing else. |
| `Contract.SupplyChain.RemoveEmployee` | hardhat/test/SupplyChain.ts:117-148 | Agrees with `Ledger.RemoveEmployee`. A revert changes nothing. Success deletes an existing record and nothing else. |
| `Contract.SupplyChain.PlaceOrder` | hardhat/test/SupplyChain.ts:151-172 | Agrees with `Ledger.PlaceOrder`. A revert changes nothing. Success stores the new PLACED order under the old counter value, an unused id, then bumps the counter and appends OrderPlaced. |
| `Contract.SupplyChain.PrepareOrder` | hardhat/test/SupplyChain.ts:175-216 | Agrees with `Ledger.PrepareOrder`. A revert changes nothing. Success turns a PLACED order into PREPARING with the caller as cook, and appends OrderPreparing. |
| `Contract.SupplyChain.ReadyOrder` | hardhat/test/SupplyChain.ts:219-260 | Agrees with `Ledger.ReadyOrder`. A revert changes nothing. Success turns a PREPARING order into READY and appends OrderReady. |
| `Contract.SupplyChain.DeliverOrder` | hardhat/test/SupplyChain.ts:262-306 | Agrees with `Ledger.DeliverOrder`. A revert changes nothing. Success turns a READY order into DELIVERING with the caller as delivery man, and appends OrderInDelivery. |
| `Contract.RemovedEmployeeReadsZero` | hardhat/test/SupplyChain.ts:118-126 | On a freshly deployed object, after the owner adds a non-zero address as COOK, the employees getter reads it back as itself with code 1. After the owner removes it, the getter reads the zero address and code 0. |

## Left out

- `completeOrder` and `cancelOrder` are not modelled. No test calls either of them. The suite's enum also lists ORDER_MUST_BE_DELIVERING and ORDER_MUST_BE_COMPLETED (lines 31-32), two messages no test uses. So the COMPLETED status is never reached in this model, and no order is ever deleted.
- Payment custody is not modelled: contract balances, ether transfers, refunds and gas. `placeOrder`'s value is recorded only as the order's price.
- Events are modelled as an append-only log of tags. Their arguments are not given by the suite.
- Prices and order ids are unbounded naturals, so fixed-width overflow and any revert it would cause are not modelled.
- Only COOK's role code (1) is fixed by the suite. DELIVERY_MAN = 2 and CUSTOMER = 3 follow the declaration order of the roles. Code 0 is taken to be what a deleted record reads back as.
- Where no test separates two checks, the model assumes an order for them.
  - In `prepareOrder`, `readyOrder` and `deliverOrder`, a non-employee naming a missing id gets ONLY_EMPLOYEE: the model assumes authorization is checked before existence.
  - In `prepareOrder`, a non-employee naming an existing order that is not PLACED gets ONLY_EMPLOYEE: the model assumes authorization is checked before status. The test at lines 190-197 uses a PLACED order. The `readyOrder` and `deliverOrder` tests at lines 234-241 and 279-286 do separate the two checks.
  - In `addEmployee` and `removeEmployee`, the owner check comes before the zero-address check.
  - In `updateCompanyWalletAddress`, the owner check comes before the zero-address check. The tests at lines 65-80 never separate them.
  - In `addEmployee`, the zero-address check comes before the role check.
- `Ledger.AddEmployee`: re-adding an existing employee overwrites its record, so its role changes to the new one. No test re-adds an address (lines 84-114 only add new ones), so this is an assumption of the model.
- `GetCompanyWalletAddress`: the model assumes the getter is owner-only. The suite only reads it as the owner (lines 50-52).
- The order record's other fields, such as a stored id, are not modelled; the suite reads only customer, price, status, cook and delivery man.
- Deployment tooling, the browser wallet hook and the UI are outside this model.
