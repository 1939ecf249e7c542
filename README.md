# Telemetry data collector, modelled in Dafny

The ground-station's data collector (`data/collector/collector.go`) keeps every
telemetry packet received since start-up or since the last `Clear`, and a
pending delta of the packets not yet handed to the listeners. `AddPackets`
appends to both and offers a wake-up on a channel of capacity one. The send is
non-blocking and dropped when the slot is full, so a burst of adds becomes one
wake-up. The background `run` loop waits for that signal, claims the pending
delta, resets it, and fans the delta out to every callback in the registry.
Callbacks are registered under handles minted by an incrementing counter.

The project has two modules.

- `CollectorModel` (`collector_model.dfy`) describes the collector as a value.
  `State` holds the five pieces of state and `Step` performs one operation:
  `AddPackets`, `Clear`, `AddCallback`, `RemoveCallback`, or `Drain`, the
  dispatcher's wake-up. `Run` replays a trace of operations. `Cycles`,
  `Delivered`, `Appended` and `Issued` read what a trace produced. The lemmas
  state what holds of every run: the delivery order, coalescing, and handle
  uniqueness.
- `Collector` (`collector.dfy`) is the object itself. `DataCollector` has the
  source's fields and one method per operation, each taken as one atomic step.
  Each method states every field's new value and the model step it performs.
  The source runs `AddPackets` and the dispatcher's wake-up as several
  separately locked sections; "## Left out" says what merging them hides.
  Two ghost fields record the deltas claimed since the last `Clear` and the
  handles minted so far. `Valid()` ties them to the real fields.

Packets and callbacks are opaque type parameters `P` and `C`. A batch is a
`seq<P>`, and Go's `nil` slice is the empty sequence. The channel's single
slot is the boolean `signalPending`. The dispatcher blocks on the channel, so
`Drain` requires a pending signal. In a trace, a `Drain` with no signal is a
step the dispatcher cannot take, and it leaves the state as it is.

## Model

| member | source | states |
|---|---|---|
| `Collector.DataCollector.constructor` | data/collector/collector.go:43-47 | A new collector has empty history and pending delta, an empty signal slot, an empty registry and counter 0; it is the model's `Init` |
| `Collector.DataCollector.AddPackets` | data/collector/collector.go:80-90 | History and pending delta both become their old value followed by the packets, in order. The signal slot is full afterwards, whether or not it was before. Registry and counter are unchanged. Zero packets leave both batches as they were but still raise the signal |
| `Collector.DataCollector.Packets` | data/collector/collector.go:93-97 | Returns exactly the history, changes nothing. The history equals the deltas claimed since the last Clear followed by the pending delta |
| `Collector.DataCollector.Clear` | data/collector/collector.go:100-105 | History and pending delta become empty, so a following Packets returns the empty sequence. The signal slot, registry and counter are untouched |
| `Collector.DataCollector.Drain` | data/collector/collector.go:60-68 | One dispatcher wake-up: consumes the signal and returns the old pending delta, which is reset to empty. The history is unchanged. Returns the registry as it stands, which is the set of callbacks the delta goes to |
| `Collector.DataCollector.AddCallback` | data/collector/collector.go:108-114 | Returns the old counter plus one, which is also the new counter. The handle was never minted before. The callback is stored under it and every other entry is unchanged |
| `Collector.DataCollector.RemoveCallback` | data/collector/collector.go:117-123 | Deletes the handle if present. An unknown handle leaves the registry as it is. The counter and the packet state are unaffected |
| `Collector.DataCollector.ValidIsInv` | data/collector/collector.go:34-40 | The object invariant implies the model invariant `Inv`: the pending delta is a suffix of the history, pending packets have a signal waiting, and registered handles lie in 1..lastID |
| `CollectorModel.InitSatisfiesInv` | data/collector/collector.go:43-47 | The new collector's state is empty everywhere and satisfies `Inv` |
| `CollectorModel.StepPreservesInv` | data/collector/collector.go:60-123 | Every operation and every drain step preserves `Inv` |
| `CollectorModel.RunPreservesInv` | data/collector/collector.go:60-123 | Every run from a state satisfying `Inv` ends in a state satisfying it |
| `CollectorModel.HistoryIsAppendedSinceClear` | data/collector/collector.go:79-105 | After any run, the history is every packet appended since the last Clear, in call order. If the run has no Clear, it is the starting history followed by those packets |
| `CollectorModel.DeliveredThenPendingIsAppended` | data/collector/collector.go:60-105 | The deltas claimed since the last Clear, concatenated and followed by the pending delta, are exactly the packets appended since the last Clear. So each packet is claimed by exactly one cycle or is still pending, and arrival order is kept |
| `CollectorModel.DeliveredAreCycleChunks` | data/collector/collector.go:60-74 | In a run without Clear, the claimed deltas are exactly the chunks of the dispatch cycles, one for one and in order, so the exactly-once, in-order result holds for what each cycle fans out to its registered handles |
| `CollectorModel.CyclesOnlyGrow` | data/collector/collector.go:60-123 | Later operations only append dispatch cycles: a delta already claimed, with the handles it goes to, is never taken back, Clear included |
| `CollectorModel.ClearKeepsCycles` | data/collector/collector.go:100-105 | A Clear starts no dispatch cycle and cancels none that already claimed a delta |
| `CollectorModel.HistoryIsDeliveredThenPending` | data/collector/collector.go:60-105 | From a new collector, the history always equals the claimed deltas followed by the pending delta. In particular the pending delta is a suffix of the history |
| `CollectorModel.DrainClaimsAllAppended` | data/collector/collector.go:60-64 | Right after a drain step, every packet appended since the last Clear has been handed to some cycle, and they equal the history |
| `CollectorModel.BurstCoalesces` | data/collector/collector.go:80-89 | Any number of adds leave exactly one pending signal, no cycle, and a pending delta of the old delta followed by all the batches in call order |
| `CollectorModel.BurstThenDrainIsOneCycle` | data/collector/collector.go:60-89 | A burst followed by one drain step gives exactly one cycle. That cycle carries the whole burst in order, to the registered handles, and leaves no signal behind |
| `CollectorModel.IssuedHandlesIncrease` | data/collector/collector.go:108-114 | The handles returned over a run strictly increase and all exceed the starting counter, so no handle is returned twice |
| `CollectorModel.AbsentHandleStaysAbsent` | data/collector/collector.go:108-123 | A handle at or below the counter that is not registered never becomes registered again. No later cycle fans out to it |
| `CollectorModel.RemovedCallbackGetsNoLaterCycle` | data/collector/collector.go:117-123 | After RemoveCallback of a minted handle, no dispatch cycle that starts later delivers to that handle |

## Left out

- `New`'s error path: the dispatcher is started with `ants.Submit` on a foreign goroutine pool (data/collector/collector.go:48-50). That call's failure is outside the model, and the constructor always succeeds.
- Locks and goroutines. The two `sync.RWMutex` locks, the per-callback goroutines and the `sync.WaitGroup` join exist for concurrency. Each operation is one atomic method here, and the fan-out is the registry snapshot that `Drain` returns.
- Collector.DataCollector.Drain: in the source, the dispatcher takes the signal off the channel before it takes the data lock (data/collector/collector.go:60-62). An `AddPackets` that runs between the two leaves its packets in the claimed delta and the signal set again, so the next cycle gets an empty delta. `Drain` performs both in one atomic step, so this interleaving is not a reachable state of the model. Empty cycles still occur in the model after a zero-packet add, or after a `Clear` while a signal is pending. The registry snapshot is a further section of its own under the callbacks read lock (data/collector/collector.go:66-74), taken after the data lock is released at line 64. A callback added or removed between those two sections is, or is not, sent a delta that was claimed before the change. `Drain` claims the delta and snapshots the registry in the same step, so that ordering is not captured.
- Collector.DataCollector.AddPackets: the source appends under the data lock and offers the signal only after releasing it (data/collector/collector.go:84 and 86-89). In between, pending packets can sit beside an empty signal slot, and the dispatcher may claim them on an earlier signal. `AddPackets` does both in one step. So the invariant that pending packets always have a signal waiting (`Inv` and `Valid`) holds at the boundaries of the atomic methods, not at every instant of the source.
- The `run` loop itself never terminates, because the channel is never closed. It is represented by its body, one `Drain` step per wake-up. There is no teardown.
- Calling the callbacks: they are opaque user code. The source has no `recover` around `cb(chunk)` (data/collector/collector.go:69-72). A panicking callback therefore ends the process rather than being isolated from the others. The model claims no failure isolation.
- Collector.DataCollector.AddCallback: `lastID` is a `nat`. Go's `uint` wrap-around after 2^64 registrations, which would reuse handles, is not modelled.
- Slice aliasing: `Packets()` returns the collector's own slice (data/collector/collector.go:96). Batches are immutable sequences here.
- `data/persistence/csv.go` is not part of this model. It is a CSV encoder and decoder over library calls and file I/O, with no logic of its own.
