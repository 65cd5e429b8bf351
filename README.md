# Cargo shipment ledger in Dafny

The `cargo` contract keeps a ledger of shipments. The ledger holds a map from
an integer id to a shipment record `{location, receiver, shipper, status}` and
a counter holding the last id handed out. Its three operations are:

- create-new-shipment(location, receiver) always succeeds. It stores the record
  `{location, receiver, shipper = caller, status = "In Transit"}` under id
  `counter + 1`, advances the counter and answers
  `(ok "Shipment created successfully")`.
- update-shipment(id, location) answers `(err u100)` when the id is unknown.
  Otherwise it answers `(err u101)` when the caller is not the stored shipper.
  Otherwise it overwrites only the location and answers
  `(ok "Shipment updated successfully")`.
- get-shipment(id) is read-only and open to any caller. It answers `(ok tuple)`
  for a known id and `(err u100)` for an unknown one.

The contract's own source is not part of this model. Its behaviour is
reconstructed from the repository's tests, which pin it down:

- `cargo.dfy` (module `Cargo`) holds the ledger. `LedgerState` with `Create`,
  `Update` and `Get` is the specification. Class `Ledger` is the contract's
  mutable store, and each of its methods is proved to follow the matching
  function. Lemmas relate the operations to each other: ids are dense, and n
  creates number their shipments consecutively. Reads reflect creates and
  updates. Only the shipper may update. Unknown ids get u100 from both get and
  update.
- `command_model.dfy` (module `CargoCommandModel`) holds the reference model
  of the model-based tests. The `Principal`, `Uint` and `Ascii` wrappers are
  one-field datatypes, so each keeps its constructor argument unchanged.
  `ShipmentRecord` is the record the model remembers. Class `Model` is the
  mutable `{shipments, currentId}` state. `Agrees` couples the model to the
  contract.
- One module per model-based command: `create_shipment_command.dfy`,
  `update_shipment_command.dfy`, `update_others_shipment_command.dfy`,
  `get_shipment_command.dfy` and `get_unknown_shipment_command.dfy`. Each
  command is a class with read-only fields, a `Check` predicate over the model
  (the enabling condition, which only reads), and a `Run` method that sends
  the call to the contract and updates the model. Each `Run` is proved to get
  exactly the response the test expects, and to keep the model and the contract
  in agreement. So, from an empty start, a command sequence cannot fail an
  expectation, except through the id-0 case listed below.
- `coverage.dfy` (module `Coverage`) shows how the checks split the ids. The
  read and update checks use `shipId < currentId`, and the unknown-read check
  uses `shipId > currentId`. So the newest shipment (`id == currentId`)
  exists, but none of those four commands is ever enabled for it. The model
  keeps this comparison as written.
- `cargo_test.dfy` (module `CargoTest`) holds the five scenario tests. Each
  deploys a fresh ledger, sends its calls in order and ensures the response
  the test expects.

Get is a function of the state, and the `GetShipment` method has no `modifies`
clause. So repeated reads with no update in between return the same answer.

## Model

| member | source | states |
|---|---|---|
| Cargo.NewShipment | tests/model-based/CargoCreateShipmentCommand.ts:50-59 | the record a create stores has the given location and receiver, the caller as shipper and status "In Transit" |
| Cargo.Create | tests/model-based/CargoCreateShipmentCommand.ts:42-59 | create always answers ok "Shipment created successfully", advances the counter by one and stores the new record under the new counter; no other id changes; on a dense ledger it stays dense and the record count grows by exactly one |
| Cargo.Update | tests/cargo_test.ts:42-122 | err u100 exactly when the id is unknown, err u101 exactly when the id is known and the caller is not its shipper, otherwise ok "Shipment updated successfully"; an error leaves the state unchanged; success rewrites only the location of that id; ids, counter and every shipper are preserved |
| Cargo.Get | tests/model-based/CargoGetShipmentCommand.ts:26-41 | ok with the stored record exactly when the id is present, otherwise err u100; on a dense ledger, ok exactly for ids 1..counter |
| Cargo.CreateAllAdvancesCounter | tests/model-based/CargoCreateShipmentCommand.ts:49 | n creates on a dense ledger advance the counter by exactly n and keep the ids dense |
| Cargo.CreateAllKeepsEarlier | tests/model-based/CargoCreateShipmentCommand.ts:49-59 | creates never overwrite a record that is already stored |
| Cargo.CreateAllAssignsNextIds | tests/model-based/CargoCreateShipmentCommand.ts:49-50 | the i-th of n creates (from 0) is stored under counter + 1 + i with the record built from its own arguments |
| Cargo.CreatesFromEmptyNumberFromOne | tests/model-based/CargoCreateShipmentCommand.ts:49-50 | from the empty ledger, n creates occupy exactly ids 1..n in call order |
| Cargo.GetAfterCreate | tests/model-based/CargoGetShipmentCommand.ts:27-41 | reading the id a create just assigned returns ok with the given location, receiver, the caller as shipper and status "In Transit" |
| Cargo.GetAfterUpdate | tests/model-based/CargoUpdateShipmentCommand.ts:53 | after a successful update, get on that id returns the old record with only the location replaced, and get on every other id is unchanged |
| Cargo.UpdateAuthorization | tests/model-based/CargoUpdateOthersShipmentCommand.ts:27-50 | for an existing id, update succeeds if and only if the caller is the stored shipper; any other caller gets err u101 and the state is unchanged |
| Cargo.UnknownIdSymmetry | tests/model-based/CargoGetUnknownShipmentCommand.ts:21-33 | an id above the counter gets err u100 from get and from update, for any caller, and update then changes nothing |
| Cargo.Ledger.constructor | tests/cargo_test.ts:5-10 | a freshly deployed contract holds no shipments and a counter of 0 |
| Cargo.Ledger.CreateNewShipment | tests/model-based/CargoCreateShipmentCommand.ts:33-59 | the in-place create moves the store exactly as `Create` does and keeps ids dense |
| Cargo.Ledger.UpdateShipment | tests/model-based/CargoUpdateShipmentCommand.ts:37-53 | the in-place update moves the store and answers exactly as `Update` does and keeps ids dense |
| Cargo.Ledger.GetShipment | tests/model-based/CargoGetShipmentCommand.ts:28-34 | the read answers as `Get`, whatever the caller, and is ok exactly for ids 1..counter |
| CargoCommandModel.Model.constructor | tests/model-based/CargoCommandModel.ts:43-46 | the model starts with no shipments and currentId 0 |
| CargoCommandModel.InitialAgreement | tests/model-based/CargoCommandModel.ts:43-46 | an empty model agrees with a freshly deployed contract |
| CreateShipment.CargoCreateShipmentCommand.constructor | tests/model-based/CargoCreateShipmentCommand.ts:17-25 | the command keeps region, sender and giftee as given |
| CreateShipment.CargoCreateShipmentCommand.Run | tests/model-based/CargoCreateShipmentCommand.ts:27-59 | in every state the contract answers ok "Shipment created successfully"; the model's currentId grows by one and the record {region, "In Transit", sender, giftee} is stored under it, other ids untouched; model and contract still agree |
| UpdateShipment.CargoUpdateShipmentCommand.constructor | tests/model-based/CargoUpdateShipmentCommand.ts:17-25 | the command keeps shipId, region and sender as given |
| UpdateShipment.CargoUpdateShipmentCommand.Run | tests/model-based/CargoUpdateShipmentCommand.ts:27-53 | when enabled, the contract answers ok "Shipment updated successfully"; only the region of the target record changes in the model, currentId and the other records stay; model and contract still agree |
| UpdateOthersShipment.CargoUpdateOthersShipmentCommand.constructor | tests/model-based/CargoUpdateOthersShipmentCommand.ts:17-25 | the command keeps shipId, region and sender as given |
| UpdateOthersShipment.CargoUpdateOthersShipmentCommand.Run | tests/model-based/CargoUpdateOthersShipmentCommand.ts:27-50 | when enabled, the contract answers err u101 and its state is unchanged; the model is not written |
| GetShipment.CargoGetShipmentCommand.constructor | tests/model-based/CargoGetShipmentCommand.ts:15-19 | the command keeps shipId as given |
| GetShipment.CargoGetShipmentCommand.Run | tests/model-based/CargoGetShipmentCommand.ts:21-41 | when enabled, the record exists and the contract answers ok with location = region, receiver = giftee, shipper = sender, status = status of the model's record; nothing is written |
| GetUnknownShipment.CargoGetUnknownShipmentCommand.constructor | tests/model-based/CargoGetUnknownShipmentCommand.ts:13-19 | the command keeps shipId and sender as given |
| GetUnknownShipment.CargoGetUnknownShipmentCommand.Run | tests/model-based/CargoGetUnknownShipmentCommand.ts:21-33 | when the id is above currentId, the contract answers err u100 whoever the sender is; nothing is written |
| Coverage.UpdateChecksPartition | tests/model-based/CargoUpdateOthersShipmentCommand.ts:27-33 | for an id below currentId that has a record, exactly one of update-own and update-others is enabled, and update-own is the one exactly when the stored sender is the caller |
| Coverage.LatestShipmentIsUncovered | tests/model-based/CargoGetShipmentCommand.ts:22 | the shipment with id == currentId exists on the contract, yet the read, unknown-read, update-own and update-others checks are all disabled for it |
| Coverage.ReadChecksDisjoint | tests/model-based/CargoGetUnknownShipmentCommand.ts:21-24 | read and unknown-read are never both enabled, and an id the unknown-read check enables is unknown to the contract |
| CargoTest.CreatesShipment | tests/cargo_test.ts:10-21 | creating a shipment answers ok "Shipment created successfully" |
| CargoTest.UpdatesOwnShipment | tests/cargo_test.ts:30-54 | after one create, the shipper updating id 1 gets ok "Shipment updated successfully", so the first id is 1 |
| CargoTest.RejectsUpdateOfMissingShipment | tests/cargo_test.ts:63-87 | after one create, updating id 5 answers err u100 |
| CargoTest.RejectsUpdateByStranger | tests/cargo_test.ts:97-122 | a caller other than the shipper updating id 1 answers err u101 |
| CargoTest.ReadsShipment | tests/cargo_test.ts:131-151 | the receiver reading shipment 1 gets ok {location "Denver", receiver, shipper, status "In Transit"}, so reading is not restricted to the shipper |
| CargoTest.ReadsShipmentAsWritten | tests/cargo_test.ts:142-151 | reading id 3 after a single create, as the test does, answers err u100 rather than the tuple the test expects |

## Findings

| source | as written | input that shows it | evidently intended | confidence | as-written member | corrected member |
|---|---|---|---|---|---|---|
| tests/cargo_test.ts:145 | the read test calls get-shipment with `u3`, while its comment on line 141 says id 1 | a fresh chain, one create-new-shipment by wallet_1, then get-shipment `u3` as wallet_2: the ledger answers `(err u100)`, not the expected ok tuple | get-shipment `u1` | medium; not executed | CargoTest.ReadsShipmentAsWritten | CargoTest.ReadsShipment |

## Left out

- The contract's Clarity source is not part of this model; module `Cargo` is reconstructed from the tests' expectations.
- Test-network plumbing is left out: `chain.mineBlock`, `Tx.contractCall`, `callReadOnlyFn`, receipts and the `block.height` / receipt-count assertions. A contract call is a method call on `Ledger`, and the caller is an explicit parameter.
- The `clarityValue()` serialisation into Clarity literals is treated as the identity. The model and the contract compare raw strings.
- `toString`, `printInfo` and `console.log` are logging only and are left out.
- The fast-check generators in tests/model-based/CargoCommands.ts are left out. Only their id range 1..100 is used, as the lower bound in GetShipment's `Run`.
- GetShipment.CargoGetShipmentCommand.Run: requires `shipId >= 1`. The check `shipId < currentId` also enables id 0, which has no record. The source would then throw while reading `record.sender`. The generators never draw 0.
- UpdateShipment.CargoUpdateShipmentCommand.Check and UpdateOthersShipment.CargoUpdateOthersShipmentCommand.Check: for id 0 below the counter, the source reads `.sender` of a missing record and throws. The model treats that case as disabled.
- CargoCommandModel.Model.constructor: the initial model value is built by a test runner that is not part of this model. It is taken to be empty with `currentId` 0, which matches the tests' first id being 1.
- The update run in the source mutates the record object stored in the map. The model replaces the record value in the map instead, so aliasing of record objects is not captured.
- No length bound on location text and no status other than "In Transit" are modelled, because the shown code expresses neither.
