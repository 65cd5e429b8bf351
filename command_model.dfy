/**
 * The reference model the model-based tests keep beside the contract: the
 * value wrappers the commands carry, the record each shipment is remembered
 * as, and the mutable `Model` (a shipments map plus the `currentId` counter).
 */
module CargoCommandModel {
  import opened Cargo

  /** A principal (account address); the wrapper keeps its value unchanged. */
  datatype Principal = Principal(value: string)

  /** An unsigned integer argument; the wrapper keeps its value unchanged. */
  datatype Uint = Uint(value: nat)

  /** An ASCII string argument; the wrapper keeps its value unchanged. */
  datatype Ascii = Ascii(value: string)

  /** What the model remembers of a shipment. */
  datatype ShipmentRecord = ShipmentRecord(region: string, status: string, sender: string, giftee: string)

  /** The model's state, mutated by the commands' `Run` methods. */
  class Model {
    var shipments: map<nat, ShipmentRecord>
    var currentId: nat

    /** The state the test run starts from: no shipments, counter 0. */
    constructor ()
      ensures shipments == map[] && currentId == 0
    {
      shipments := map[];
      currentId := 0;
    }
  }

  /** The tuple get-shipment is expected to return for a remembered record. */
  function AsTuple(record: ShipmentRecord): Shipment
  {
    Shipment(location := record.region, receiver := record.giftee, shipper := record.sender, status := record.status)
  }

  /**
   * The model and the contract agree: the same counter, the same ids, and each
   * contract record is the tuple the model expects for that id.
   */
  ghost predicate Agrees(model: Model, contract: Ledger)
    reads model, contract
  {
    model.currentId == contract.lastId &&
    model.shipments.Keys == contract.shipments.Keys &&
    forall id :: id in model.shipments ==> contract.shipments[id] == AsTuple(model.shipments[id])
  }

  /** A fresh model agrees with a freshly deployed contract. */
  lemma InitialAgreement(model: Model, contract: Ledger)
    requires model.shipments == map[] && model.currentId == 0
    requires contract.State() == EMPTY
    ensures Agrees(model, contract)
  {
  }
}
