/** The model-based command that reads an id the contract never assigned. */
module GetUnknownShipment {
  import opened Cargo
  import opened CargoCommandModel

  class CargoGetUnknownShipmentCommand {
    const shipId: Uint
    const sender: Principal

    constructor (shipId: Uint, sender: Principal)
      ensures this.shipId == shipId && this.sender == sender
    {
      this.shipId := shipId;
      this.sender := sender;
    }

    /** Enabled for an id strictly above the model's counter. */
    predicate Check(model: Model)
      reads model
    {
      shipId.value > model.currentId
    }

    /** Reads the id as `sender`, whoever that is, and gets err u100. */
    method Run(model: Model, contract: Ledger) returns (r: Response<Shipment>)
      requires Check(model)
      requires contract.Valid() && Agrees(model, contract)
      ensures r == Err(100)
    {
      r := contract.GetShipment(shipId.value, sender.value);
    }
  }
}
