/**
 * How the enabling checks of the model-based commands divide the ids: the
 * read and update checks use `shipId < currentId` and the unknown-id check
 * uses `shipId > currentId`.
 */
module Coverage {
  import opened Cargo
  import opened CargoCommandModel
  import opened UpdateShipment
  import opened UpdateOthersShipment
  import opened GetShipment
  import opened GetUnknownShipment

  /**
   * For the same id and caller, below the counter and with a record, exactly
   * one of update-own and update-others is enabled.
   */
  lemma UpdateChecksPartition(model: Model, own: CargoUpdateShipmentCommand, others: CargoUpdateOthersShipmentCommand)
    requires own.shipId == others.shipId && own.sender == others.sender
    requires own.shipId.value < model.currentId && own.shipId.value in model.shipments
    ensures own.Check(model) <==> !others.Check(model)
    ensures own.Check(model) <==> model.shipments[own.shipId.value].sender == own.sender.value
  {
  }

  /**
   * The most recently created shipment (id == currentId) exists, yet none of
   * the read, unknown-read, update-own or update-others commands is enabled
   * for it.
   */
  lemma LatestShipmentIsUncovered(
    model: Model, contract: Ledger,
    get: CargoGetShipmentCommand, unknown: CargoGetUnknownShipmentCommand,
    own: CargoUpdateShipmentCommand, others: CargoUpdateOthersShipmentCommand)
    requires contract.Valid() && Agrees(model, contract) && 1 <= model.currentId
    requires get.shipId.value == model.currentId && unknown.shipId.value == model.currentId
    requires own.shipId.value == model.currentId && others.shipId.value == model.currentId
    ensures model.currentId in model.shipments
    ensures Get(contract.State(), model.currentId).Ok?
    ensures !get.Check(model) && !unknown.Check(model) && !own.Check(model) && !others.Check(model)
  {
  }

  /**
   * Whatever the counter, the unknown-read check and the read check are never
   * enabled together, and an id enabled for the unknown-read check is unknown
   * to the contract.
   */
  lemma ReadChecksDisjoint(model: Model, contract: Ledger, get: CargoGetShipmentCommand, unknown: CargoGetUnknownShipmentCommand)
    requires contract.Valid() && Agrees(model, contract)
    requires get.shipId == unknown.shipId
    ensures !(get.Check(model) && unknown.Check(model))
    ensures unknown.Check(model) ==> Get(contract.State(), unknown.shipId.value) == Err(ERR_UNKNOWN_SHIPMENT)
  {
  }
}
