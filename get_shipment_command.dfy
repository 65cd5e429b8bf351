/** The model-based command that reads a shipment the model knows. */
module GetShipment {
  import opened Cargo
  import opened CargoCommandModel

  class CargoGetShipmentCommand {
    const shipId: Uint

    constructor (shipId: Uint)
      ensures this.shipId == shipId
    {
      this.shipId := shipId;
    }

    /** Enabled for an id strictly below the model's counter. */
    predicate Check(model: Model)
      reads model
    {
      shipId.value < model.currentId
    }

    /**
     * Reads the shipment as its sender and finds, in ok, exactly the tuple the
     * model remembers: location from region, receiver from giftee, shipper
     * from sender, status from status. The model is only read.
     */
    method Run(model: Model, contract: Ledger) returns (r: Response<Shipment>)
      requires Check(model) && 1 <= shipId.value
      requires contract.Valid() && Agrees(model, contract)
      ensures shipId.value in model.shipments
      ensures r == Ok(AsTuple(model.shipments[shipId.value]))
    {
      var record := model.shipments[shipId.value];
      r := contract.GetShipment(shipId.value, record.sender);
    }
  }
}
