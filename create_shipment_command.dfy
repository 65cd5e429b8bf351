/** The create-new-shipment command of the model-based tests. */
module CreateShipment {
  import opened Cargo
  import opened CargoCommandModel

  class CargoCreateShipmentCommand {
    const region: Ascii
    const sender: Principal
    const giftee: Principal

    constructor (region: Ascii, sender: Principal, giftee: Principal)
      ensures this.region == region && this.sender == sender && this.giftee == giftee
    {
      this.region := region;
      this.sender := sender;
      this.giftee := giftee;
    }

    /** A shipment can always be created. */
    predicate Check(model: Model)
    {
      true
    }

    /** The record the model remembers for this command's shipment. */
    function Record(): ShipmentRecord
    {
      ShipmentRecord(region := region.value, status := IN_TRANSIT, sender := sender.value, giftee := giftee.value)
    }

    /**
     * Sends create-new-shipment as `sender`; the contract answers ok with the
     * confirmation text, and the model advances its counter by one and stores
     * the new record under it, leaving every other id alone.
     */
    method Run(model: Model, contract: Ledger) returns (r: Response<string>)
      requires Check(model)
      requires contract.Valid() && Agrees(model, contract)
      modifies model, contract
      ensures contract.Valid() && Agrees(model, contract)
      ensures r == Ok("Shipment created successfully")
      ensures model.currentId == old(model.currentId) + 1
      ensures model.shipments == old(model.shipments)[model.currentId := Record()]
    {
      r := contract.CreateNewShipment(region.value, giftee.value, sender.value);
      model.currentId := model.currentId + 1;
      model.shipments := model.shipments[model.currentId := Record()];
    }
  }
}
