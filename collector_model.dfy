/**
 * A value-level model of the telemetry data collector: its five pieces of
 * state, one transition per public operation or dispatcher step, runs over
 * traces of operations, and the properties that hold of every run.
 *
 * The imperative class in module Collector is specified against `Step`.
 */
module CollectorModel {

  /** The collector's state: the packet history since the last Clear, the
      pending delta not yet claimed by the dispatcher, the one-slot
      "data changed" signal, the callback registry and the handle counter. */
  datatype State<P, C> = State(
    data: seq<P>,
    newData: seq<P>,
    signalPending: bool,
    callbacks: map<nat, C>,
    lastID: nat)

  /** What one dispatch cycle hands out: the claimed delta and the handles of
      the callbacks it is fanned out to. */
  datatype Cycle<P> = Cycle(chunk: seq<P>, observers: set<nat>)

  /** The operations that change the collector, plus the dispatcher's drain step. */
  datatype Op<P, C> =
    | AddPackets(packets: seq<P>)
    | Clear
    | Drain
    | AddCallback(cb: C)
    | RemoveCallback(id: nat)

  /** A freshly created collector. */
  function Init<P, C>(): State<P, C>
  {
    State([], [], false, map[], 0)
  }

  /** One atomic step. A Drain with no pending signal is a step the
      dispatcher cannot take (it is blocked on the channel): the state stays. */
  function Step<P, C>(s: State<P, C>, op: Op<P, C>): State<P, C>
  {
    match op
    case AddPackets(ps) =>
      s.(data := s.data + ps, newData := s.newData + ps, signalPending := true)
    case Clear =>
      s.(data := [], newData := [])
    case Drain =>
      if s.signalPending then s.(newData := [], signalPending := false) else s
    case AddCallback(cb) =>
      s.(callbacks := s.callbacks[s.lastID + 1 := cb], lastID := s.lastID + 1)
    case RemoveCallback(id) =>
      if id in s.callbacks then s.(callbacks := s.callbacks - {id}) else s
  }

  /** The state after performing `ops` in order, starting from `s`. */
  function Run<P, C>(s: State<P, C>, ops: seq<Op<P, C>>): State<P, C>
    decreases |ops|
  {
    if ops == [] then s else Step(Run(s, ops[..|ops| - 1]), ops[|ops| - 1])
  }

  /** The dispatch cycles of a run, in order: one per Drain that found a signal. */
  function Cycles<P, C>(s: State<P, C>, ops: seq<Op<P, C>>): seq<Cycle<P>>
    decreases |ops|
  {
    if ops == [] then []
    else
      var front := ops[..|ops| - 1];
      var t := Run(s, front);
      Cycles(s, front)
        + if ops[|ops| - 1].Drain? && t.signalPending
          then [Cycle(t.newData, t.callbacks.Keys)] else []
  }

  /** The deltas claimed by dispatch cycles since the last Clear of the run. */
  function Delivered<P, C>(s: State<P, C>, ops: seq<Op<P, C>>): seq<seq<P>>
    decreases |ops|
  {
    if ops == [] then []
    else
      var front := ops[..|ops| - 1];
      var t := Run(s, front);
      match ops[|ops| - 1]
      case Clear => []
      case Drain => if t.signalPending then Delivered(s, front) + [t.newData] else Delivered(s, front)
      case _ => Delivered(s, front)
  }

  /** Every packet passed to AddPackets since the last Clear of the run, in call order. */
  function Appended<P, C>(ops: seq<Op<P, C>>): seq<P>
    decreases |ops|
  {
    if ops == [] then []
    else
      var front := ops[..|ops| - 1];
      match ops[|ops| - 1]
      case AddPackets(ps) => Appended(front) + ps
      case Clear => []
      case _ => Appended(front)
  }

  /** Whether the run contains a Clear. */
  predicate HasClear<P, C>(ops: seq<Op<P, C>>)
    decreases |ops|
  {
    ops != [] && (ops[|ops| - 1].Clear? || HasClear(ops[..|ops| - 1]))
  }

  /** The handles returned by the AddCallback steps of a run, in order. */
  function Issued<P, C>(s: State<P, C>, ops: seq<Op<P, C>>): seq<nat>
    decreases |ops|
  {
    if ops == [] then []
    else
      var front := ops[..|ops| - 1];
      Issued(s, front) + if ops[|ops| - 1].AddCallback? then [Run(s, front).lastID + 1] else []
  }

  /** A burst of AddPackets calls, one per batch. */
  function Adds<P, C>(batches: seq<seq<P>>): (ops: seq<Op<P, C>>)
    ensures |ops| == |batches|
    ensures forall i :: 0 <= i < |ops| ==> ops[i] == AddPackets(batches[i])
    decreases |batches|
  {
    if batches == [] then []
    else Adds(batches[..|batches| - 1]) + [AddPackets(batches[|batches| - 1])]
  }

  /** The concatenation of a sequence of batches. */
  function Concat<T>(chunks: seq<seq<T>>): seq<T>
    decreases |chunks|
  {
    if chunks == [] then [] else Concat(chunks[..|chunks| - 1]) + chunks[|chunks| - 1]
  }

  lemma ConcatSnoc<T>(chunks: seq<seq<T>>, chunk: seq<T>)
    ensures Concat(chunks + [chunk]) == Concat(chunks) + chunk
  {
    assert (chunks + [chunk])[..|chunks|] == chunks;
  }

  ghost predicate IsSuffix<T>(suffix: seq<T>, s: seq<T>)
  {
    |suffix| <= |s| && s[|s| - |suffix|..] == suffix
  }

  /** What every state reachable by atomic steps satisfies: the pending delta is the tail of
      the history, pending packets always have a wake-up signal waiting, and
      every registered handle has been minted by the counter. */
  ghost predicate Inv<P, C>(s: State<P, C>)
  {
    && IsSuffix(s.newData, s.data)
    && (s.newData != [] ==> s.signalPending)
    && (forall id :: id in s.callbacks ==> 0 < id <= s.lastID)
  }

  lemma InitSatisfiesInv<P, C>()
    ensures Inv(Init<P, C>())
    ensures Init<P, C>().data == [] && Init<P, C>().newData == []
    ensures !Init<P, C>().signalPending && Init<P, C>().callbacks == map[] && Init<P, C>().lastID == 0
  {
  }

  lemma StepPreservesInv<P, C>(s: State<P, C>, op: Op<P, C>)
    requires Inv(s)
    ensures Inv(Step(s, op))
  {
  }

  lemma {:induction false} RunPreservesInv<P, C>(s: State<P, C>, ops: seq<Op<P, C>>)
    requires Inv(s)
    ensures Inv(Run(s, ops))
    decreases |ops|
  {
    if ops != [] {
      RunPreservesInv(s, ops[..|ops| - 1]);
      StepPreservesInv(Run(s, ops[..|ops| - 1]), ops[|ops| - 1]);
    }
  }

  /** Packets() after a run returns exactly what was appended since the last
      Clear (or, with no Clear, the starting history followed by it). */
  lemma {:induction false} HistoryIsAppendedSinceClear<P, C>(s: State<P, C>, ops: seq<Op<P, C>>)
    ensures Run(s, ops).data == (if HasClear(ops) then [] else s.data) + Appended(ops)
    decreases |ops|
  {
    if ops != [] {
      HistoryIsAppendedSinceClear(s, ops[..|ops| - 1]);
    }
  }

  /** Every packet appended since the last Clear was claimed by exactly one
      dispatch cycle or is still pending, and in arrival order. */
  lemma {:induction false} DeliveredThenPendingIsAppended<P, C>(s: State<P, C>, ops: seq<Op<P, C>>)
    ensures Concat(Delivered(s, ops)) + Run(s, ops).newData
         == (if HasClear(ops) then [] else s.newData) + Appended(ops)
    decreases |ops|
  {
    if ops != [] {
      var front := ops[..|ops| - 1];
      DeliveredThenPendingIsAppended(s, front);
      var t := Run(s, front);
      var d := Delivered(s, front);
      match ops[|ops| - 1]
      case AddPackets(ps) =>
        assert Delivered(s, ops) == d;
        var base := if HasClear(front) then [] else s.newData;
        calc {
          Concat(d) + Run(s, ops).newData;
          Concat(d) + (t.newData + ps);
          (Concat(d) + t.newData) + ps;
          (base + Appended(front)) + ps;
          base + Appended(ops);
        }
      case Clear =>
      case Drain =>
        if t.signalPending {
          assert Delivered(s, ops) == d + [t.newData];
          ConcatSnoc(d, t.newData);
        }
      case AddCallback(_) =>
      case RemoveCallback(_) =>
    }
  }

  /** In a run without Clear, the deltas counted by `Delivered` are exactly the
      chunks of the dispatch cycles, one for one and in order: each cycle fans
      its chunk out to the handles registered when it began. */
  lemma {:induction false} DeliveredAreCycleChunks<P, C>(s: State<P, C>, ops: seq<Op<P, C>>)
    requires !HasClear(ops)
    ensures |Delivered(s, ops)| == |Cycles(s, ops)|
    ensures forall i :: 0 <= i < |Cycles(s, ops)| ==> Delivered(s, ops)[i] == Cycles(s, ops)[i].chunk
    decreases |ops|
  {
    if ops != [] {
      var front := ops[..|ops| - 1];
      DeliveredAreCycleChunks(s, front);
      var t := Run(s, front);
      if ops[|ops| - 1].Drain? && t.signalPending {
        assert Delivered(s, ops) == Delivered(s, front) + [t.newData];
        assert Cycles(s, ops) == Cycles(s, front) + [Cycle(t.newData, t.callbacks.Keys)];
      } else {
        assert Delivered(s, ops) == Delivered(s, front);
        assert Cycles(s, ops) == Cycles(s, front);
      }
    }
  }

  /** Later operations only add dispatch cycles: a delta already claimed, and
      the handles it goes to, are never taken back, not even by Clear. */
  lemma {:induction false} CyclesOnlyGrow<P, C>(s: State<P, C>, ops: seq<Op<P, C>>, more: seq<Op<P, C>>)
    ensures Cycles(s, ops) <= Cycles(s, ops + more)
    decreases |more|
  {
    if more != [] {
      var front := more[..|more| - 1];
      CyclesOnlyGrow(s, ops, front);
      var all := ops + more;
      assert all[..|all| - 1] == ops + front;
    } else {
      assert ops + more == ops;
    }
  }

  /** A Clear starts no cycle and cancels none. */
  lemma ClearKeepsCycles<P, C>(s: State<P, C>, ops: seq<Op<P, C>>)
    ensures Cycles(s, ops + [Clear]) == Cycles(s, ops)
  {
    assert (ops + [Clear])[..|ops|] == ops;
  }

  /** From a new collector, the history is the claimed deltas followed by the
      pending one; in particular the pending delta is a suffix of the history. */
  lemma HistoryIsDeliveredThenPending<P, C>(ops: seq<Op<P, C>>)
    ensures Run(Init<P, C>(), ops).data == Concat(Delivered(Init<P, C>(), ops)) + Run(Init<P, C>(), ops).newData
    ensures IsSuffix(Run(Init<P, C>(), ops).newData, Run(Init<P, C>(), ops).data)
  {
    HistoryIsAppendedSinceClear(Init<P, C>(), ops);
    DeliveredThenPendingIsAppended(Init<P, C>(), ops);
  }

  /** Once a dispatch cycle has claimed the delta, everything appended since
      the last Clear has been handed to some cycle. */
  lemma DrainClaimsAllAppended<P, C>(ops: seq<Op<P, C>>)
    requires ops != [] && ops[|ops| - 1].Drain?
    requires Run(Init<P, C>(), ops[..|ops| - 1]).signalPending
    ensures Concat(Delivered(Init<P, C>(), ops)) == Appended(ops) == Run(Init<P, C>(), ops).data
  {
    var s0 := Init<P, C>();
    HistoryIsAppendedSinceClear(s0, ops);
    DeliveredThenPendingIsAppended(s0, ops);
    var t := Run(s0, ops[..|ops| - 1]);
    assert Run(s0, ops).newData == [];
    assert Concat(Delivered(s0, ops)) + [] == [] + Appended(ops);
    assert Run(s0, ops).data == [] + Appended(ops) == Appended(ops);
  }

  /** AddPackets calls made before the dispatcher runs coalesce: they leave a
      single pending signal, no cycle, and one merged delta in call order. */
  lemma {:induction false} BurstCoalesces<P, C>(s: State<P, C>, batches: seq<seq<P>>)
    requires batches != []
    ensures var t := Run(s, Adds<P, C>(batches));
      && t.signalPending
      && t.newData == s.newData + Concat(batches)
      && t.data == s.data + Concat(batches)
      && t.callbacks == s.callbacks && t.lastID == s.lastID
    ensures Cycles(s, Adds<P, C>(batches)) == []
    decreases |batches|
  {
    var ops := Adds<P, C>(batches);
    var front := batches[..|batches| - 1];
    assert ops[..|ops| - 1] == Adds<P, C>(front);
    if front != [] {
      BurstCoalesces<P, C>(s, front);
    }
  }

  /** A burst followed by one drain step is delivered as exactly one cycle
      carrying every packet of the burst, in order, after which no signal is
      left pending (the coalesced sends do not cause a second cycle). */
  lemma BurstThenDrainIsOneCycle<P, C>(s: State<P, C>, batches: seq<seq<P>>)
    requires batches != []
    ensures Cycles(s, Adds<P, C>(batches) + [Drain])
         == [Cycle(s.newData + Concat(batches), s.callbacks.Keys)]
    ensures !Run(s, Adds<P, C>(batches) + [Drain]).signalPending
    ensures Run(s, Adds<P, C>(batches) + [Drain]).newData == []
  {
    var ops := Adds<P, C>(batches) + [Drain];
    assert ops[..|ops| - 1] == Adds<P, C>(batches);
    BurstCoalesces<P, C>(s, batches);
  }

  /** Handles handed out over a run strictly increase and all exceed the
      counter's starting value, so none is handed out twice. */
  lemma {:induction false} IssuedHandlesIncrease<P, C>(s: State<P, C>, ops: seq<Op<P, C>>)
    ensures var hs := Issued(s, ops);
      forall i, j :: 0 <= i < j < |hs| ==> hs[i] < hs[j]
    ensures var hs := Issued(s, ops);
      forall i :: 0 <= i < |hs| ==> s.lastID < hs[i] <= Run(s, ops).lastID
    ensures s.lastID <= Run(s, ops).lastID
    decreases |ops|
  {
    if ops != [] {
      var front := ops[..|ops| - 1];
      IssuedHandlesIncrease(s, front);
      var t := Run(s, front);
      assert t.lastID <= Run(s, ops).lastID;
      if !ops[|ops| - 1].AddCallback? {
        assert Issued(s, ops) == Issued(s, front);
      } else {
        var hs := Issued(s, front);
        var hs' := Issued(s, ops);
        assert hs' == hs + [t.lastID + 1];
        assert Run(s, ops).lastID == t.lastID + 1;
        assert forall i :: 0 <= i < |hs| ==> hs'[i] == hs[i] < t.lastID + 1;
      }
    }
  }

  /** A handle at or below the counter that is not registered never comes
      back: no later step registers it and no later cycle fans out to it. */
  lemma {:induction false} AbsentHandleStaysAbsent<P, C>(s: State<P, C>, ops: seq<Op<P, C>>, id: nat)
    requires id <= s.lastID && id !in s.callbacks
    ensures id <= Run(s, ops).lastID && id !in Run(s, ops).callbacks
    ensures forall i :: 0 <= i < |Cycles(s, ops)| ==> id !in Cycles(s, ops)[i].observers
    decreases |ops|
  {
    if ops != [] {
      var front := ops[..|ops| - 1];
      AbsentHandleStaysAbsent(s, front, id);
      var t := Run(s, front);
      var cs := Cycles(s, front);
      if ops[|ops| - 1].Drain? && t.signalPending {
        assert Cycles(s, ops) == cs + [Cycle(t.newData, t.callbacks.Keys)];
      } else {
        assert Cycles(s, ops) == cs;
        assert forall i :: 0 <= i < |cs| ==> id !in cs[i].observers;
      }
    }
  }

  /** After RemoveCallback(id) of a handle the collector issued, no dispatch
      cycle that begins later fans out to that handle. */
  lemma RemovedCallbackGetsNoLaterCycle<P, C>(s: State<P, C>, id: nat, ops: seq<Op<P, C>>)
    requires id <= s.lastID
    ensures var cs := Cycles(Step(s, RemoveCallback(id)), ops);
      forall i :: 0 <= i < |cs| ==> id !in cs[i].observers
  {
    AbsentHandleStaysAbsent(Step(s, RemoveCallback(id)), ops, id);
  }
}
