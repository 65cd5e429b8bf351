/**
 * The scenario tests: each deploys a fresh contract, sends its transactions
 * one after another and states the response the test expects.
 */
module CargoTest {
  import opened Cargo

  /** A user creates a shipment and gets the confirmation text. */
  method CreatesShipment(shipper: string, receiver: string) returns (r: Response<string>)
    ensures r == Ok("Shipment created successfully")
  {
    var chain := new Ledger();
    r := chain.CreateNewShipment("Denver", receiver, shipper);
  }

  /** After one create, its shipper updates id 1: the first id handed out is 1. */
  method UpdatesOwnShipment(shipper: string, receiver: string) returns (r: Response<string>)
    ensures r == Ok("Shipment updated successfully")
  {
    var chain := new Ledger();
    var created := chain.CreateNewShipment("Denver", receiver, shipper);
    r := chain.UpdateShipment(1, "Phoenix", shipper);
  }

  /** After one create, updating id 5 fails with err u100. */
  method RejectsUpdateOfMissingShipment(shipper: string, receiver: string) returns (r: Response<string>)
    ensures r == Err(100)
  {
    var chain := new Ledger();
    var created := chain.CreateNewShipment("Denver", receiver, shipper);
    r := chain.UpdateShipment(5, "Phoenix", shipper);
  }

  /** A stranger updating someone else's shipment fails with err u101. */
  method RejectsUpdateByStranger(shipper: string, receiver: string, stranger: string) returns (r: Response<string>)
    requires stranger != shipper
    ensures r == Err(101)
  {
    var chain := new Ledger();
    var created := chain.CreateNewShipment("Denver", receiver, shipper);
    r := chain.UpdateShipment(1, "Phoenix", stranger);
  }

  /**
   * The receiver reads shipment 1 and gets the tuple given at creation with
   * status "In Transit": reading is not restricted to the shipper.
   */
  method ReadsShipment(shipper: string, receiver: string) returns (r: Response<Shipment>)
    ensures r == Ok(Shipment(location := "Denver", receiver := receiver, shipper := shipper, status := "In Transit"))
  {
    var chain := new Ledger();
    var created := chain.CreateNewShipment("Denver", receiver, shipper);
    r := chain.GetShipment(1, receiver);
  }

  /**
   * The read test as it stands asks for id 3 after a single create; on the
   * ledger that id is unknown, so the answer is err u100, not the expected
   * tuple.
   */
  method ReadsShipmentAsWritten(shipper: string, receiver: string) returns (r: Response<Shipment>)
    ensures r == Err(100)
    ensures r != Ok(Shipment(location := "Denver", receiver := receiver, shipper := shipper, status := "In Transit"))
  {
    var chain := new Ledger();
    var created := chain.CreateNewShipment("Denver", receiver, shipper);
    r := chain.GetShipment(3, receiver);
  }
}
