/** The model-based command in which a shipper updates their own shipment. */
module UpdateShipment {
  import opened Cargo
  import opened CargoCommandModel

  class CargoUpdateShipmentCommand {
    const shipId: Uint
    const region: Ascii
    const sender: Principal

    constructor (shipId: Uint, region: Ascii, sender: Principal)
      ensures this.shipId == shipId && this.region == region && this.sender == sender
    {
      this.shipId := shipId;
      this.region := region;
      this.sender := sender;
    }

    /**
     * Enabled for an id strictly below the model's counter whose record was
     * sent by this command's sender. At or above the counter no record is
     * looked up.
     */
    predicate Check(model: Model)
      reads model
    {
      if shipId.value < model.currentId then
        shipId.value in model.shipments && model.shipments[shipId.value].sender == sender.value
      else
        false
    }

    /**
     * Sends update-shipment as `sender`; the contract answers ok with the
     * confirmation text, and only the region of the target record changes in
     * the model.
     */
    method Run(model: Model, contract: Ledger) returns (r: Response<string>)
      requires Check(model)
      requires contract.Valid() && Agrees(model, contract)
      modifies model, contract
      ensures contract.Valid() && Agrees(model, contract)
      ensures r == Ok("Shipment updated successfully")
      ensures model.currentId == old(model.currentId)
      ensures shipId.value in old(model.shipments)
      ensures model.shipments ==
                old(model.shipments)[shipId.value := old(model.shipments)[shipId.value].(region := region.value)]
    {
      r := contract.UpdateShipment(shipId.value, region.value, sender.value);
      model.shipments := model.shipments[shipId.value := model.shipments[shipId.value].(region := region.value)];
    }
  }
}
