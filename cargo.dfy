/**
 * The `cargo` shipment ledger: a store of shipment records keyed by an
 * integer id, plus the last id handed out. Its three public operations are
 * create-new-shipment, update-shipment and get-shipment.
 *
 * `LedgerState` and the functions `Create`, `Update` and `Get` are the
 * specification; class `Ledger` is the contract's mutable store, whose
 * methods are proved to follow them.
 */
module Cargo {

  /** A tagged response: `(ok value)` or `(err uN)`. */
  datatype Response<T> = Ok(value: T) | Err(code: nat)

  /** The record stored for a shipment, and the tuple get-shipment returns. */
  datatype Shipment = Shipment(location: string, receiver: string, shipper: string, status: string)

  /** A create-new-shipment call: its two arguments and the caller. */
  datatype CreateRequest = CreateRequest(location: string, receiver: string, caller: string)

  const ERR_UNKNOWN_SHIPMENT: nat := 100
  const ERR_SHIPPER_ONLY: nat := 101
  const IN_TRANSIT: string := "In Transit"
  const CREATED_MESSAGE: string := "Shipment created successfully"
  const UPDATED_MESSAGE: string := "Shipment updated successfully"

  /** The ledger's whole state: the shipments map and the last id assigned. */
  datatype LedgerState = LedgerState(shipments: map<nat, Shipment>, lastId: nat)

  const EMPTY: LedgerState := LedgerState(map[], 0)

  /** Ids are dense: exactly 1..lastId are present. */
  ghost predicate Dense(s: LedgerState) {
    forall id: nat :: id in s.shipments <==> 1 <= id <= s.lastId
  }

  /** The record create-new-shipment stores for a request. */
  function NewShipment(req: CreateRequest): (r: Shipment)
    ensures r.status == IN_TRANSIT && r.shipper == req.caller
    ensures r.location == req.location && r.receiver == req.receiver
  {
    Shipment(req.location, req.receiver, req.caller, IN_TRANSIT)
  }

  /** create-new-shipment: always succeeds; stores the record under lastId + 1. */
  function Create(s: LedgerState, req: CreateRequest): (r: (LedgerState, Response<string>))
    ensures r.1 == Ok(CREATED_MESSAGE)
    ensures r.0.lastId == s.lastId + 1
    ensures r.0.lastId in r.0.shipments && r.0.shipments[r.0.lastId] == NewShipment(req)
    ensures forall id :: id in s.shipments && id != r.0.lastId ==>
              id in r.0.shipments && r.0.shipments[id] == s.shipments[id]
    ensures Dense(s) ==> Dense(r.0) && |r.0.shipments| == |s.shipments| + 1
  {
    var id := s.lastId + 1;
    assert Dense(s) ==> id !in s.shipments;
    (LedgerState(s.shipments[id := NewShipment(req)], id), Ok(CREATED_MESSAGE))
  }

  /**
   * update-shipment: err u100 for an unknown id, then err u101 when the caller
   * is not the stored shipper; otherwise only the location is overwritten.
   */
  function Update(s: LedgerState, id: nat, location: string, caller: string): (r: (LedgerState, Response<string>))
    ensures r.1 == Ok(UPDATED_MESSAGE) || r.1 == Err(ERR_UNKNOWN_SHIPMENT) || r.1 == Err(ERR_SHIPPER_ONLY)
    ensures r.1 == Err(ERR_UNKNOWN_SHIPMENT) <==> id !in s.shipments
    ensures r.1 == Err(ERR_SHIPPER_ONLY) <==> id in s.shipments && s.shipments[id].shipper != caller
    ensures r.1.Err? ==> r.0 == s
    ensures r.1.Ok? ==>
              id in s.shipments && r.0.shipments == s.shipments[id := s.shipments[id].(location := location)]
    ensures r.0.shipments.Keys == s.shipments.Keys && r.0.lastId == s.lastId
    ensures forall k :: k in s.shipments ==> r.0.shipments[k].shipper == s.shipments[k].shipper
  {
    if id !in s.shipments then (s, Err(ERR_UNKNOWN_SHIPMENT))
    else if s.shipments[id].shipper != caller then (s, Err(ERR_SHIPPER_ONLY))
    else (s.(shipments := s.shipments[id := s.shipments[id].(location := location)]), Ok(UPDATED_MESSAGE))
  }

  /** get-shipment: the stored record, or err u100. Any caller may read. */
  function Get(s: LedgerState, id: nat): (r: Response<Shipment>)
    ensures r.Ok? <==> id in s.shipments
    ensures r.Ok? ==> r.value == s.shipments[id]
    ensures r.Err? ==> r.code == ERR_UNKNOWN_SHIPMENT
    ensures Dense(s) ==> (r.Ok? <==> 1 <= id <= s.lastId)
  {
    if id in s.shipments then Ok(s.shipments[id]) else Err(ERR_UNKNOWN_SHIPMENT)
  }

  /** Runs a sequence of create-new-shipment calls in order. */
  function CreateAll(s: LedgerState, reqs: seq<CreateRequest>): LedgerState
    decreases |reqs|
  {
    if reqs == [] then s else CreateAll(Create(s, reqs[0]).0, reqs[1..])
  }

  /** n creates on a dense ledger keep it dense and advance the counter by n. */
  lemma {:induction false} CreateAllAdvancesCounter(s: LedgerState, reqs: seq<CreateRequest>)
    requires Dense(s)
    ensures Dense(CreateAll(s, reqs)) && CreateAll(s, reqs).lastId == s.lastId + |reqs|
    decreases |reqs|
  {
    if reqs != [] {
      CreateAllAdvancesCounter(Create(s, reqs[0]).0, reqs[1..]);
    }
  }

  /** Creates on a dense ledger never overwrite a record that is already there. */
  lemma {:induction false} CreateAllKeepsEarlier(s: LedgerState, reqs: seq<CreateRequest>, id: nat)
    requires Dense(s) && id in s.shipments
    ensures id in CreateAll(s, reqs).shipments && CreateAll(s, reqs).shipments[id] == s.shipments[id]
    decreases |reqs|
  {
    if reqs != [] {
      CreateAllKeepsEarlier(Create(s, reqs[0]).0, reqs[1..], id);
    }
  }

  /**
   * n creates starting from a dense ledger assign the ids lastId+1 .. lastId+n
   * in call order.
   */
  lemma {:induction false} CreateAllAssignsNextIds(s: LedgerState, reqs: seq<CreateRequest>, i: nat)
    requires Dense(s) && i < |reqs|
    ensures s.lastId + 1 + i in CreateAll(s, reqs).shipments
    ensures CreateAll(s, reqs).shipments[s.lastId + 1 + i] == NewShipment(reqs[i])
    decreases |reqs|
  {
    var s1 := Create(s, reqs[0]).0;
    if i == 0 {
      CreateAllKeepsEarlier(s1, reqs[1..], s.lastId + 1);
    } else {
      CreateAllAssignsNextIds(s1, reqs[1..], i - 1);
      assert reqs[1..][i - 1] == reqs[i];
    }
  }

  /** From the empty ledger, the k-th create (counting from 1) is stored under id k. */
  lemma {:induction false} CreatesFromEmptyNumberFromOne(reqs: seq<CreateRequest>)
    ensures CreateAll(EMPTY, reqs).lastId == |reqs|
    ensures forall id :: id in CreateAll(EMPTY, reqs).shipments <==> 1 <= id <= |reqs|
    ensures forall i :: 0 <= i < |reqs| ==> CreateAll(EMPTY, reqs).shipments[i + 1] == NewShipment(reqs[i])
  {
    CreateAllAdvancesCounter(EMPTY, reqs);
    forall i | 0 <= i < |reqs|
      ensures CreateAll(EMPTY, reqs).shipments[i + 1] == NewShipment(reqs[i])
    {
      CreateAllAssignsNextIds(EMPTY, reqs, i);
    }
  }

  /** A freshly created shipment reads back with the values given and status "In Transit". */
  lemma GetAfterCreate(s: LedgerState, req: CreateRequest)
    ensures Get(Create(s, req).0, s.lastId + 1) == Ok(Shipment(req.location, req.receiver, req.caller, IN_TRANSIT))
  {
  }

  /** After a successful update, get reflects the new location and nothing else changed. */
  lemma GetAfterUpdate(s: LedgerState, id: nat, location: string, caller: string)
    requires Update(s, id, location, caller).1.Ok?
    ensures Get(Update(s, id, location, caller).0, id) == Ok(s.shipments[id].(location := location))
    ensures forall k :: k != id ==> Get(Update(s, id, location, caller).0, k) == Get(s, k)
  {
  }

  /** On a dense ledger, an existing shipment can be updated exactly by its shipper. */
  lemma UpdateAuthorization(s: LedgerState, id: nat, location: string, caller: string)
    requires Dense(s) && 1 <= id <= s.lastId
    ensures Update(s, id, location, caller).1.Ok? <==> caller == s.shipments[id].shipper
    ensures caller != s.shipments[id].shipper ==>
              Update(s, id, location, caller) == (s, Err(ERR_SHIPPER_ONLY))
  {
  }

  /** An id above the counter is unknown to both get and update, for any caller. */
  lemma UnknownIdSymmetry(s: LedgerState, id: nat, location: string, caller: string)
    requires Dense(s) && id > s.lastId
    ensures Get(s, id) == Err(ERR_UNKNOWN_SHIPMENT)
    ensures Update(s, id, location, caller) == (s, Err(ERR_UNKNOWN_SHIPMENT))
  {
  }

  /** The contract's store, updated in place by each transaction. */
  class Ledger {
    var shipments: map<nat, Shipment>
    var lastId: nat

    ghost predicate Valid()
      reads this
    {
      Dense(State())
    }

    function State(): LedgerState
      reads this
    {
      LedgerState(shipments, lastId)
    }

    /** A freshly deployed contract: no shipments, counter 0. */
    constructor ()
      ensures Valid() && State() == EMPTY
    {
      shipments := map[];
      lastId := 0;
    }

    method CreateNewShipment(location: string, receiver: string, caller: string) returns (r: Response<string>)
      requires Valid()
      modifies this
      ensures Valid()
      ensures (State(), r) == Create(old(State()), CreateRequest(location, receiver, caller))
    {
      var id := lastId + 1;
      shipments := shipments[id := Shipment(location, receiver, caller, IN_TRANSIT)];
      lastId := id;
      r := Ok(CREATED_MESSAGE);
    }

    method UpdateShipment(id: nat, location: string, caller: string) returns (r: Response<string>)
      requires Valid()
      modifies this
      ensures Valid()
      ensures (State(), r) == Update(old(State()), id, location, caller)
    {
      if id !in shipments {
        return Err(ERR_UNKNOWN_SHIPMENT);
      }
      var shipment := shipments[id];
      if shipment.shipper != caller {
        return Err(ERR_SHIPPER_ONLY);
      }
      shipments := shipments[id := shipment.(location := location)];
      r := Ok(UPDATED_MESSAGE);
    }

    /** Read-only; the caller is not consulted. */
    method GetShipment(id: nat, caller: string) returns (r: Response<Shipment>)
      requires Valid()
      ensures r == Get(State(), id)
      ensures r.Ok? <==> 1 <= id <= lastId
    {
      if id in shipments {
        r := Ok(shipments[id]);
      } else {
        r := Err(ERR_UNKNOWN_SHIPMENT);
      }
    }
  }
}
