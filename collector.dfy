/**
 * The data collector as the object it is: its fields are updated in place.
 * Each method performs one operation as a single atomic step, and says both
 * what every field holds afterwards and which step of CollectorModel it
 * performs. AddPackets and Drain each merge sections the source locks
 * separately (the append and the signal; the claim and the registry snapshot).
 */
module Collector {
  import opened CollectorModel

  /** A collector of packets of type P that notifies callbacks of type C. */
  class DataCollector<P, C> {
    var data: seq<P>
    var newData: seq<P>
    /** The "data changed" channel of capacity 1: true when its slot is full. */
    var signalPending: bool
    var callbacks: map<nat, C>
    var lastID: nat

    /** The deltas handed out by drain steps since the last Clear, in order. */
    ghost var drained: seq<seq<P>>
    /** Every handle minted so far. */
    ghost var issued: set<nat>

    /** The history is the claimed deltas followed by the pending one, pending
        packets always have a signal waiting, the minted handles are exactly
        1..lastID, and only minted handles are registered. */
    ghost predicate Valid()
      reads this
    {
      && data == Concat(drained) + newData
      && (newData != [] ==> signalPending)
      && (forall h :: h in issued <==> 0 < h <= lastID)
      && callbacks.Keys <= issued
    }

    /** The collector's state as a value of the model. */
    function Abstract(): State<P, C>
      reads this
    {
      State(data, newData, signalPending, callbacks, lastID)
    }

    lemma ValidIsInv()
      requires Valid()
      ensures Inv(Abstract())
    {
    }

    constructor ()
      ensures Valid()
      ensures data == [] && newData == [] && !signalPending
      ensures callbacks == map[] && lastID == 0
      ensures drained == [] && issued == {}
      ensures Abstract() == Init()
    {
      data, newData, signalPending := [], [], false;
      callbacks, lastID := map[], 0;
      drained, issued := [], {};
    }

    /** Appends to the history and the pending delta, then offers a signal:
        it is dropped when the slot is already full, so adds coalesce. */
    method AddPackets(packets: seq<P>)
      requires Valid()
      modifies this
      ensures Valid()
      ensures data == old(data) + packets && newData == old(newData) + packets
      ensures signalPending
      ensures callbacks == old(callbacks) && lastID == old(lastID)
      ensures drained == old(drained) && issued == old(issued)
      ensures Abstract() == Step(old(Abstract()), Op.AddPackets(packets))
    {
      newData := newData + packets;
      data := data + packets;
      if !signalPending {
        signalPending := true;
      }
    }

    /** The whole history since creation or the last Clear. */
    method Packets() returns (r: seq<P>)
      requires Valid()
      ensures r == data
      ensures r == Concat(drained) + newData
    {
      r := data;
    }

    /** Empties the history and the pending delta; deltas already claimed are
        not affected, and neither are the registry and the counter. */
    method Clear()
      requires Valid()
      modifies this
      ensures Valid()
      ensures data == [] && newData == []
      ensures signalPending == old(signalPending)
      ensures callbacks == old(callbacks) && lastID == old(lastID)
      ensures drained == [] && issued == old(issued)
      ensures Abstract() == Step(old(Abstract()), Op.Clear)
    {
      data := [];
      newData := [];
      drained := [];
    }

    /** One wake-up of the dispatcher: consumes the signal, claims the pending
        delta (leaving an empty one) and snapshots the registry it fans out to. */
    method Drain() returns (chunk: seq<P>, snapshot: map<nat, C>)
      requires Valid() && signalPending
      modifies this
      ensures Valid()
      ensures chunk == old(newData) && newData == [] && !signalPending
      ensures data == old(data)
      ensures snapshot == callbacks == old(callbacks) && lastID == old(lastID)
      ensures drained == old(drained) + [chunk] && issued == old(issued)
      ensures Abstract() == Step(old(Abstract()), Op.Drain)
    {
      signalPending := false;
      chunk := newData;
      newData := [];
      snapshot := callbacks;
      drained := drained + [chunk];
      ConcatSnoc(old(drained), chunk);
    }

    /** Registers a callback under a freshly minted handle, one above the last. */
    method AddCallback(cb: C) returns (id: nat)
      requires Valid()
      modifies this
      ensures Valid()
      ensures id == old(lastID) + 1 && lastID == id
      ensures id !in old(issued) && issued == old(issued) + {id}
      ensures callbacks == old(callbacks)[id := cb]
      ensures data == old(data) && newData == old(newData) && signalPending == old(signalPending)
      ensures drained == old(drained)
      ensures Abstract() == Step(old(Abstract()), Op.AddCallback(cb))
    {
      lastID := lastID + 1;
      callbacks := callbacks[lastID := cb];
      id := lastID;
      issued := issued + {id};
    }

    /** Unregisters a handle; an unknown handle leaves the registry as it is. */
    method RemoveCallback(id: nat)
      requires Valid()
      modifies this
      ensures Valid()
      ensures callbacks == old(callbacks) - {id}
      ensures id !in old(callbacks) ==> callbacks == old(callbacks)
      ensures lastID == old(lastID) && issued == old(issued)
      ensures data == old(data) && newData == old(newData) && signalPending == old(signalPending)
      ensures drained == old(drained)
      ensures Abstract() == Step(old(Abstract()), Op.RemoveCallback(id))
    {
      if id in callbacks {
        callbacks := callbacks - {id};
      }
    }
  }
}
