/** The model-based command in which a caller tries to update someone else's shipment. */
module UpdateOthersShipment {
  import opened Cargo
  import opened CargoCommandModel

  class CargoUpdateOthersShipmentCommand {
    const shipId: Uint
    const region: Ascii
    const sender: Principal

    constructor (shipId: Uint, region: Ascii, sender: Principal)
      ensures this.shipId == shipId && this.region == region && this.sender == sender
    {
      this.shipId := shipId;
      this.region := region;
      this.sender := sender;
    }

    /**
     * Enabled for an id strictly below the model's counter whose record was
     * sent by someone other than this command's sender.
     */
    predicate Check(model: Model)
      reads model
    {
      if shipId.value < model.currentId then
        shipId.value in model.shipments && model.shipments[shipId.value].sender != sender.value
      else
        false
    }

    /**
     * Sends update-shipment as `sender`; the contract answers err u101 and
     * keeps its state. The model is not written at all.
     */
    method Run(model: Model, contract: Ledger) returns (r: Response<string>)
      requires Check(model)
      requires contract.Valid() && Agrees(model, contract)
      modifies contract
      ensures contract.Valid() && Agrees(model, contract)
      ensures r == Err(101)
      ensures contract.State() == old(contract.State())
    {
      r := contract.UpdateShipment(shipId.value, region.value, sender.value);
    }
  }
}
