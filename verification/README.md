# A verified model of simengine's power engine

simengine simulates the power infrastructure of a data centre. Assets (outlets, PDUs, UPSes, servers
with power supplies, lamps and other static devices) form a graph. A change of the mains, a pressed
power button or an SNMP signal starts a power iteration, which pushes voltage events down the graph
and load events up until both are exhausted. This project models that engine and the cores around
it in Dafny and proves what they keep, over all topologies and all runs.

Where the original changes objects step by step the model is a class whose methods are proved equal
to functions on values; the run theorems are about those functions. Volts and amperes are `real`,
and `math.isclose` is read as equality.

## The parts

| files | what they hold |
|---|---|
| Events, Topology, Iteration, Engine, Reports | events, the power graph as the engine sees it, `PowerIteration` and the event loop, with the hardware's answers left open; what a report sends to whom |
| Accounting, Termination, LoadForks | branch accounting, the termination measure, exactly-once completion and the topologies on which it is certain |
| Assets, Network, AtRest, Conservation, StoredLoads, PowerSafety, Recovery, Requests, Startup | outlets, PDUs and static devices in a running network: it comes to rest, conserves load, keeps power safety, recovers from an outage, obeys requests; the first power-up |
| IterationConsumer | the worker thread, its queue and its flag |
| Ups, UpsTransfer, UpsLoad, UpsFeed, Battery, BatteryThreads | the transfer state machine, what it shows upstream, alone and in the engine, battery arithmetic, drain and charge threads |
| Server, ServerLoad, ServerReturn, ServerPair, SupplyOut, SupplyIn, SupplyMoves, ServerButton, ServerRuns, RestoredTogether | redistribution of load between power supplies, each at a voltage of its own |
| SystemModeler, ModelledRuns | edits of the power graph, and iterations over every graph they can build |
| RedisKeys, Storcli, Thermal, Recording, ActionSlices | OID keys, RAID states, saturating thermal steps, the action recorder and its ranges |

## Where the code falls short of its intent

Each of these is a lemma with the exact condition or a concrete run.

- A load event that forks leaks its branch: an iteration completes if and only if none forked
  (`Termination.CompletionExactly`), and that is certain if and only if every asset that powers something has
  at most one source (`LoadForks.AlwaysCompletesExactly`). The modeler's degree limits see to it
  (`ModelledRuns.LoadNeverForks`).
- `link_assets` accepts power loops, a self-link included (`SystemModeler.LinkKeepsLoopFree`,
  `SystemModeler.SelfLinkIsAccepted`).
- An asset that is marked on, has no input yet and finds its first voltage too low, or is not plugged in at all,
  has nothing to announce, so what it powers stays on (`Startup.FirstPowerUpIsCoherent`).
- A `queue_iteration` that looked before the worker took an iteration and sets the flag afterwards breaks the
  worker's assertion (`IterationConsumer.StepKeepsOneAtATime`, `LateSignalBreaksTheAssertion`); completing
  inside the launch callback strands a queued iteration (`IterationConsumer.OnlyLateClearLosesTheSignal`).
- A UPS asked to take a rise that ends below its range, or to return from a sag by a drop, ends on
  the wrong side (`UpsTransfer.VoltageUpSettles`, `VoltageDownSettles`); events with a stale starting
  voltage cause it (`UpsTransfer.StaleInputBreaksTheLaw`).
- The UPS skips its own load update when the new idle draw happens to equal its stored load, so an
  outage that ends at another voltage can leave the feeding outlet wrong
  (`UpsLoad.ReturnAtAnotherVoltageBreaksTheLaw`). It reports a change of its idle draw when the input rises
  out of range, even on battery, and its outlet ignores changes that another UPS below has marked; the exact
  conditions are `UpsLoad.MainsKeepsCarried` and `ChildKeepsCarried`. A PDU above it does not heed marks
  (`UpsLoad.PduAboveIsMisled`).
- A device, a supply or a UPS that is powered up from a brownout stores its usage at the old voltage as
  well (`StoredLoads.DevicesStoreTheirDraw`, `SupplyIn.RestoringExactly`, `UpsTransfer.OffUpsReturns`).
- A drain thread that read the line-fail cause just before a charge launch can write it back
  afterwards; the engine thread then waits in the launcher's `join` until the battery is empty
  (`BatteryThreads.ChargeLaunchIsReleased`, `EngineCanBeBlocked`).
- With three or more supplies a lost share is handed to every alternative, so load is created
  (`ServerLoad.LossMovesTheShare`). A supply switched off by its button reports its idle usage
  upstream twice (`ServerRuns.StepKeepsShared`); one that is off and is fed is given load
  (`SupplyMoves.OffSupplyExactly`); one whose input falls to another voltage it works at loses its idle usage
  (`SupplyMoves.FallingExactly`); supplies at different voltages hand over and give back the wrong
  parts (`SupplyOut.LosingExactly`, `SupplyIn.RestoringExactly`); two restored in one wave count a part
  twice (`RestoredTogether.RestoredTogetherExactly`). The exact condition over whole runs is
  `ServerRuns.AlwaysSharedExactly`.
- The controller page of the storcli emulator judges every virtual drive by all drives of the
  controller, and error counters start at -1 (`Storcli.AllDegradedOrNone`, `Storcli.ShippedStates`).
- A replay inside a replay unlocks the recorder (`Recording.NestedReplayUnlocks`); nested recorded
  calls are replayed twice (`Recording.ReplayRepeatsTheCallExactly`); a date bound no action
  satisfies is dropped (`ActionSlices.DateRangeIsExact`); a dry run slices twice
  (`ActionSlices.DryRunShowsTheReplay`).

Where documentation and code differ the model follows the code: the server's `detect_input_voltage`
is described as running last, but its priority makes it run first; `format_as_redis_key` is described
as padding with zeros, but pads the numbers with spaces.

## Model

| member | source | states |
|---|---|---|
| Iteration.RemoveFirstMultiset | enginecore/enginecore/state/engine/iteration.py:75-78 | list.remove takes exactly one occurrence of the branch out, whatever is left. |
| Iteration.BranchTracker.CompleteBranch | enginecore/enginecore/state/engine/iteration.py:75-78 | The branch leaves the active list and joins the done list; removing an absent branch would raise, so the caller must know it is active. |
| Iteration.BranchTracker.AddBranch | enginecore/enginecore/state/engine/iteration.py:80-82 | One branch is appended to the active list. |
| Iteration.BranchTracker.Extend | enginecore/enginecore/state/engine/iteration.py:84-86 | Several branches are appended to the active list, in order. |
| Iteration.PowerIteration.Launch | enginecore/enginecore/state/engine/iteration.py:207-214 | Starts an iteration: one voltage branch per mains outlet, or a single one for a button or an SNMP signal. |
| Iteration.PowerIteration.StreamedLoadEvents | enginecore/enginecore/state/engine/iteration.py:323-333 | Only streamed updates that changed something become load events, in order, each with its own branch. |
| Iteration.PowerIteration.StartLoadBranches | enginecore/enginecore/state/engine/iteration.py:321-340 | Upstream half of a power report: streamed loads, else one load event per parent if the load changed. |
| Iteration.PowerIteration.ProcessPowerEvent | enginecore/enginecore/state/engine/iteration.py:298-364 | Whole handler: load branches start, the voltage branch ends, passes on, or forks. |
| Iteration.PowerIteration.ProcessLoadEvent | enginecore/enginecore/state/engine/iteration.py:235-263 | A load branch ends at a root, follows an only parent, or is replaced by one branch per parent while staying active. |
| Reports.StreamedUpdatesAreSent | enginecore/enginecore/state/engine/iteration.py:323-333 | Every streamed update that changed something gets exactly one load event: to its key, with its change, in order, unmarked, on a fresh branch of its own; nothing else is sent. |
| Reports.LoadIsSent | enginecore/enginecore/state/engine/iteration.py:334-340 | Without streamed updates every source hears the change of the load, if there is one, once. |
| Reports.VoltageGoesDown | enginecore/enginecore/state/engine/iteration.py:342-364 | Every asset that is powered hears a change of the output voltage from its source, once and in order, and nobody hears anything else. |
| Reports.LoadGoesUp | enginecore/enginecore/state/engine/iteration.py:248-263 | A load report goes to exactly the sources of the asset, with its change and its mark. |
| Reports.ReportIsDelivered | enginecore/enginecore/state/engine/iteration.py:323-333 | Once the load events of a server's report are handled every supply is left as the streamed updates say, which ties the server theorems to the engine. |
| Reports.ClimbExactly | enginecore/enginecore/state/hardware/outlet_asset.py:34-51 | On the way to the wall a load change is added to every asset; one marked by a UPS on battery is added to the PDUs below the next outlet only. |
| Engine.Engine.UnfreezeTaskQueue | enginecore/enginecore/state/engine/iteration_consumer.py:66-77 | The current iteration is dropped; its assertion that a current iteration exists is the precondition every caller is proved to meet. |
| Engine.Engine.MarkLoadBranchesDone | enginecore/enginecore/state/engine/engine.py:129-136 | Announces the end of the load branches once, and releases the queue when the voltage branches are done too. |
| Engine.Engine.ChainPowerEvents | enginecore/enginecore/state/engine/engine.py:138-156 | Queues the events of a power report and announces what completed with it. |
| Engine.Engine.ChainLoadEvents | enginecore/enginecore/state/engine/engine.py:158-170 | Queues the events of a load report and announces what completed with it. |
| Engine.Engine.LaunchIteration | enginecore/enginecore/state/engine/engine.py:200-220 | A launched iteration puts its first events in the queue. |
| Engine.Engine.HandleNext | enginecore/enginecore/state/engine/engine.py:317-331 | One turn of the event loop, proved equal to the step the run theorems quantify over. |
| Accounting.InFlightAppend | enginecore/enginecore/state/engine/iteration.py:298-364 | The branches of in-flight events add up over the queue. |
| Accounting.CompleteBalanced | enginecore/enginecore/state/engine/iteration.py:75-78 | Completing a branch keeps active branches and in-flight events in bijection. |
| Accounting.ExtendBalanced | enginecore/enginecore/state/engine/iteration.py:84-86 | New branches with their new events keep the bijection, and stay distinct. |
| Accounting.UpstreamInFlight | enginecore/enginecore/state/engine/iteration.py:321-340 | The load events of a report run on exactly the fresh branches added for them. |
| Accounting.DownstreamInFlight | enginecore/enginecore/state/engine/iteration.py:342-359 | The voltage events of a report run on the inherited branch or exactly on the fresh ones. |
| Accounting.HeadIsTracked | enginecore/enginecore/state/engine/iteration.py:75-78 | Whatever event is next, its branch is active: complete_branch never removes an absent branch. |
| Accounting.LaunchAccounted | enginecore/enginecore/state/engine/iteration.py:265-296 | Every launch starts in the invariant: active voltage branches = voltage-side events, no load branches. |
| Accounting.PowerStepAccounted | enginecore/enginecore/state/engine/engine.py:138-156 | The invariant survives any answer to a voltage-side event, completion included; unfreeze_task_queue is only reached with a current iteration. |
| Accounting.LoadStepAccounted | enginecore/enginecore/state/engine/engine.py:158-170 | The same for a load event; a fork leaks exactly the replaced branch. |
| Accounting.StepAccounted | enginecore/enginecore/state/engine/engine.py:129-170 | Over every step: active branches are in bijection with in-flight events, up to the load branches leaked by forks; each completion is announced once; the assertion in unfreeze_task_queue never fails. |
| Termination.UpstreamWeight | enginecore/enginecore/state/engine/iteration.py:321-340 | Load events of a report weigh less than the voltage event it answers. |
| Termination.DownstreamWeight | enginecore/enginecore/state/engine/iteration.py:342-359 | Voltage events of a report weigh exactly the children of the asset. |
| Termination.StepDescends | enginecore/enginecore/state/engine/iteration.py:235-364 | With L(n) = 1 + sum of L over parents and V(n) = 1 + sums over parents and children, every processed event makes the total weight in flight strictly smaller. |
| Termination.IterationTerminates | enginecore/enginecore/state/engine/iteration.py:235-364 | On every acyclic topology, whatever the hardware answers, the queue is empty after a number of events known at launch. |
| Termination.CompletionExactly | enginecore/enginecore/state/engine/engine.py:129-170 | When the queue is empty the iteration is complete, both completions announced once and the task queue released, if and only if no load event was forked. |
| Termination.NothingForked | enginecore/enginecore/state/engine/iteration.py:250-257 | On topologies where an asset that powers something has at most one source, no run forks a load event (one direction of LoadForks.NeverForksExactly). |
| LoadForks.ForkIsReached | enginecore/enginecore/state/engine/iteration.py:250-257 | When an asset has a source with several sources itself, hardware exists for which switching it on forks a load event. |
| LoadForks.NeverForksExactly | enginecore/enginecore/state/engine/iteration.py:250-257 | On any topology no run of any hardware ever forks a load event if and only if every asset that powers something has at most one source. |
| Termination.IterationCompletes | enginecore/enginecore/state/engine/engine.py:129-170 | Acyclic and without load forks: every iteration ends in the released state with each completion announced exactly once. |
| LoadForks.AlwaysCompletesExactly | enginecore/enginecore/state/engine/engine.py:129-170 | On any acyclic topology every iteration of any hardware completes, announcing each side once, if and only if every asset that powers something has at most one source. |
| Assets.Asset.constructor | enginecore/enginecore/state/state_initializer.py:106-111 | An asset starts as the store marks it: on, without input voltage and load. |
| Assets.Asset.PowerOff | enginecore/enginecore/state/hardware/asset.py:68-80 | power_off of the asset and of its state manager, zeroing the load of a static device. |
| Assets.Asset.PowerUp | enginecore/enginecore/state/hardware/asset.py:53-66 | power_up through _parents_available, storing the usage of a static device. |
| Assets.Asset.ProcessParentVoltE | enginecore/enginecore/state/hardware/asset.py:107-149 | The threshold decision, the re-set output voltage and the load bookkeeping, equal to the specification used by the network laws. |
| Assets.Asset.OnInputVoltage | enginecore/enginecore/state/hardware/asset.py:194-228 | Reaction first, input voltage stored after it. |
| Assets.Asset.OnPowerButton | enginecore/enginecore/state/hardware/asset.py:173-191 | The state is stored before it is reported, and the report computes the load from the output voltage. |
| Assets.Asset.OnSignal | enginecore/enginecore/state/hardware/outlet_asset.py:53-89 | All OIDs of the outlet are set alike, then it powers up or off. |
| Assets.Asset.OnChildLoadUpdate | enginecore/enginecore/state/hardware/asset.py:151-166 | The load difference is added and clamped at zero; an outlet ignores it while a UPS below is on battery. |
| Conservation.DeviceReports | enginecore/enginecore/state/hardware/asset.py:107-149 | What a static device or lamp reports is exactly the change of its draw, power / input voltage, over thresholds, buttons and restorations. |
| Conservation.InnerReports | enginecore/enginecore/state/hardware/asset.py:107-149 | An outlet or PDU reports no load of its own and keeps its stored load. |
| Conservation.TurnConserves | enginecore/enginecore/state/hardware/asset.py:107-166 | The conservation invariant survives every turn of the event loop. |
| Conservation.AskConserves | enginecore/enginecore/state/engine/engine.py:200-275 | ... and every mains change, button press and outlet signal. |
| Conservation.ExecConserves | enginecore/enginecore/state/hardware/asset.py:107-166 | Over every run from a conserving state. |
| Conservation.StartUpConserves | enginecore/enginecore/state/state_initializer.py:106-111 | A network as created is conserving. |
| Conservation.LoadIsConserved | enginecore/enginecore/state/hardware/asset.py:107-166 | At every step of every run over trees of outlets and PDUs: an inner node's load plus the child load deltas in flight to it equals its inner children's loads plus its lit leaves' draw. |
| Conservation.InFlightByChild | enginecore/enginecore/state/engine/events.py:617-633 | What is in flight to a node is the sum over its children of what each has in flight. |
| Conservation.Telescopes | enginecore/enginecore/state/engine/events.py:582-603 | The deltas in flight on one edge telescope from the value the parent has seen to the child's own. |
| Conservation.ClampNeverBinds | enginecore/enginecore/state/api/state.py:195-198 | The clamps at 0 never bind on any run: every load event that is handled leaves a non-negative sum. |
| Conservation.QuiescentLoad | enginecore/enginecore/state/hardware/asset.py:151-166 | In a conserving network at rest a node's load is the total draw of the lit leaves below it. |
| AtRest.TurnDescends | enginecore/enginecore/state/engine/iteration.py:235-364 | In a running network every turn of the loop lowers the weight in flight, whatever the assets answer. |
| AtRest.ComesToRest | enginecore/enginecore/state/engine/engine.py:317-331 | From every state of every run the network comes to rest: it is idle after n turns if and only if n is at least a number bounded by the weight in flight, and then in the settled state. |
| Conservation.SettledLoadIsDraw | enginecore/enginecore/state/hardware/asset.py:107-166 | After every run, as soon as the events in flight are handled, an outlet's load is the total draw of the lit leaves below it. |
| StoredLoads.VoltageKeepsBooks | enginecore/enginecore/state/api/static.py:9-29 | Handling a voltage, the load stored for a device stays its draw if and only if the device does not come back from a brownout; power_up then books its usage at the old voltage as well. |
| StoredLoads.OutageClearsTheBooks | enginecore/enginecore/state/api/static.py:17-22 | Whatever was stored, a device that goes off for lack of voltage stores nothing. |
| StoredLoads.TurnBooksExactly | enginecore/enginecore/state/hardware/asset.py:107-228 | A turn of the loop keeps the stored loads of all devices right under exactly that condition. |
| StoredLoads.DevicesStoreTheirDraw | enginecore/enginecore/state/hardware/asset.py:107-228 | Over every run from creation every device stores what it draws in every state on the way if and only if no device is powered up from a brownout. |
| PowerSafety.ReactionTells | enginecore/enginecore/state/hardware/asset.py:107-149 | A reaction tells the children: the new output when the asset puts a voltage out and something changed, zero when it stops. |
| PowerSafety.ChildFollows | enginecore/enginecore/state/hardware/asset.py:107-149 | A child's edge to its parent survives the parent's turn when it is told. |
| PowerSafety.HandlesLit | enginecore/enginecore/state/hardware/asset.py:107-149 | Handling the oldest voltage in flight keeps a child in step with a lit source. |
| PowerSafety.HandlesDark | enginecore/enginecore/state/api/state.py:272-303 | ... and below a source that puts nothing out an asset goes off and cannot power up. |
| PowerSafety.TurnSafe | enginecore/enginecore/state/hardware/asset.py:107-149 | The edge invariant survives every turn. |
| PowerSafety.AskSafe | enginecore/enginecore/state/engine/engine.py:200-275 | ... and every request made between iterations. |
| PowerSafety.ExecSafe | enginecore/enginecore/state/hardware/asset.py:107-149 | Over every run. |
| PowerSafety.CoherentIsSafe | enginecore/enginecore/state/api/state.py:272-303 | Between iterations the invariant is exactly coherence: children have the voltage their parent puts out, and lit assets have a lit parent above their minimum. |
| PowerSafety.NothingLitUnderDeadParent | enginecore/enginecore/state/api/state.py:272-303 | On any network, plugged in or not: from a coherent start, after any sequence of mains changes, button presses and outlet signals, the network is coherent as soon as the events in flight are handled. |
| Recovery.OffReacts | enginecore/enginecore/state/hardware/asset.py:107-149 | An asset that is off lights up on a voltage exactly when it tries to and its supply is available, and passes the voltage on unless it tried in vain. |
| Recovery.OutageIsDark | enginecore/enginecore/state/api/state.py:272-303 | From a coherent network at rest, everything the wall feeds is off once an outage has settled. |
| Recovery.RecoveryIsExact | enginecore/enginecore/state/hardware/asset.py:121-139 | When the mains return an asset is lit again if and only if, before the outage, its user had not left it turned off, it is set to power on with AC, the voltage is above its minimum, its OIDs are on and its source comes back; the input voltage gets exactly as far as stated. |
| Requests.OffUntilAskedFor | enginecore/enginecore/state/hardware/asset.py:168-182 | An asset switched off by its button or its OIDs stays off over every run without a request to switch it on. |
| Requests.PressTakesEffect | enginecore/enginecore/state/hardware/asset.py:168-191 | A press that the state interface lets through leaves the asset as pressed once the network is at rest, any other changes nothing. |
| Requests.SwitchTakesEffect | enginecore/enginecore/state/hardware/outlet_asset.py:53-89 | A signal leaves an outlet off, or lit if and only if it was or its source is live. |
| Startup.WaveSettles | enginecore/enginecore/state/hardware/asset.py:107-149 | An asset as created settles on its first voltage and passes it on exactly when it stays on. |
| Startup.TurnStaysWaking | enginecore/enginecore/state/hardware/asset.py:107-149 | During the first wave every asset below an awake source is settled or about to be, every other one untouched. |
| Startup.FirstPowerUpIsCoherent | enginecore/enginecore/state/hardware/asset.py:107-149 | The first power-up ends coherent if and only if every asset that powers something works at the mains voltage and has a supply; otherwise something stays marked as on below an asset that is off or has no input. |
| Startup.CoherentFromTheStart | enginecore/enginecore/state/api/state.py:272-303 | So every run from creation and such a first power-up leaves the network coherent. |
| IterationConsumer.EngineIterationConsumer.QueueIteration | enginecore/enginecore/state/engine/iteration_consumer.py:55-64 | The iteration joins the queue; the flag is set when none is current. |
| IterationConsumer.EngineIterationConsumer.CompleteTask | enginecore/enginecore/state/engine/iteration_consumer.py:73-77 | The current iteration is dropped, then the flag is set. |
| IterationConsumer.EngineIterationConsumer.TakeNext | enginecore/enginecore/state/engine/iteration_consumer.py:79-95 | The worker takes the oldest iteration; its assertion that none is current is proved. |
| IterationConsumer.EngineIterationConsumer.EndLaunch | enginecore/enginecore/state/engine/iteration_consumer.py:95-100 | After the launch callback the flag is cleared. |
| IterationConsumer.StepKeepsOrder | enginecore/enginecore/state/engine/iteration_consumer.py:55-100 | No step loses, repeats or reorders an iteration: queued = launched + held + waiting. |
| IterationConsumer.StepKeepsOneAtATime | enginecore/enginecore/state/engine/iteration_consumer.py:55-100 | A step of either thread keeps the protocol invariant if and only if it is not a late signal: queue_iteration looked when no iteration was current and sets the flag now that one is, with the worker waiting for its end. |
| IterationConsumer.WorkerAssertionHolds | enginecore/enginecore/state/engine/iteration_consumer.py:79-100 | After every run without a late signal the worker's assertion holds, and after every run at all launches are a prefix of what was queued. |
| IterationConsumer.AtomicQueueingSendsNone | enginecore/enginecore/state/engine/iteration_consumer.py:55-64 | A queue_iteration that is never interrupted sends no late signal. |
| IterationConsumer.LateSignalBreaksTheAssertion | enginecore/enginecore/state/engine/iteration_consumer.py:79-95 | After any late signal the worker reaches its assertion with an iteration still current as soon as another one is queued. |
| IterationConsumer.InterruptedQueueingBreaksTheAssertion | enginecore/enginecore/state/engine/iteration_consumer.py:55-64 | A concrete interleaving inside queue_iteration reaches the worker with an iteration still current. |
| IterationConsumer.OnlyLateClearLosesTheSignal | enginecore/enginecore/state/engine/iteration_consumer.py:73-100 | A step of either thread, interrupted or not, leaves a waiting worker without anyone to release it if and only if it clears the flag after the iteration was already done. |
| IterationConsumer.NeverStranded | enginecore/enginecore/state/engine/iteration_consumer.py:73-100 | If completion always follows the clear, no queued iteration is stranded behind a cleared flag. |
| IterationConsumer.EarlyCompletionStrands | enginecore/enginecore/state/engine/iteration_consumer.py:73-100 | A concrete run in which an iteration that completes in its own launch strands the next one. |
| IterationConsumer.QueueingRescues | enginecore/enginecore/state/engine/iteration_consumer.py:55-64 | Queueing another iteration releases a stranded worker, which goes on with the oldest one. |
| IterationConsumer.HalvesMakeTheWhole | enginecore/enginecore/state/engine/iteration_consumer.py:55-64 | The two halves of queue_iteration, taken together, are the whole. |
| IterationConsumer.CompletesAlike | enginecore/enginecore/state/engine/iteration_consumer.py:73-77 | Whichever thread completes an iteration, none is current afterwards and the flag is set. |
| Ups.UpsAsset.IncreaseTransferSeverity | enginecore/enginecore/state/hardware/ups_asset.py:112-129 | Momentary sags become brownout or blackout; other causes stay. |
| Ups.UpsAsset.LaunchBatteryDrain | enginecore/enginecore/state/hardware/ups_asset.py:223-251 | A running drain only gets a severer cause; otherwise the cause is set and a drain starts. |
| Ups.UpsAsset.LaunchBatteryCharge | enginecore/enginecore/state/hardware/ups_asset.py:253-281 | Nothing while charging; otherwise back on line, drain over, charge started. |
| Ups.UpsAsset.OnInputVoltageUp | enginecore/enginecore/state/hardware/ups_asset.py:347-386 | The whole up handler, then the input voltage. |
| Ups.UpsAsset.OnInputVoltageDown | enginecore/enginecore/state/hardware/ups_asset.py:388-423 | The whole down handler, then the input voltage. |
| Ups.UpsAsset.OnChildLoadUpdate | enginecore/enginecore/state/hardware/ups_asset.py:332-345 | On battery the load is stored but the report is marked and carries the child's own value. |
| UpsTransfer.VoltageUpSettles | enginecore/enginecore/state/hardware/ups_asset.py:347-386 | The up handler keeps "on battery exactly out of range" if and only if it is not asked to take a rise that ends below the range; the same for what it forwards. |
| UpsTransfer.VoltageDownSettles | enginecore/enginecore/state/hardware/ups_asset.py:388-423 | The down handler keeps it if and only if it is not asked to return from a sag; what it forwards is always usable. |
| UpsTransfer.FirstPowerSettles | enginecore/enginecore/state/hardware/ups_asset.py:347-423 | First power in range establishes the invariant. |
| UpsTransfer.InputSettles | enginecore/enginecore/state/hardware/internal_state.py:188-256 | Events that tell the truth about the input keep the invariant, forward only 120 V or a voltage in range, report exactly the change of the output, and start the thread of the side the UPS transfers to. |
| UpsTransfer.StaleInputBreaksTheLaw | enginecore/enginecore/state/hardware/ups_asset.py:347-386 | An up event that starts from a stale voltage leaves the UPS on line at 50 V and forwards it. |
| UpsTransfer.OnBatteryExactlyOutOfRange | enginecore/enginecore/state/hardware/ups_asset.py:347-423 | Over every run of input moves, battery thread steps and child loads: on battery exactly outside (low, high), the running thread matches, and every forwarded voltage is 120 or in range. |
| UpsTransfer.CauseTellsTheDrop | enginecore/enginecore/state/hardware/internal_state.py:188-256 | Over every run the cause of a transfer on a drop is a deep sag or a blackout if and only if the drop went below the rated threshold, and a brownout or a blackout if and only if it was not momentary. |
| UpsTransfer.OffUpsReturns | enginecore/enginecore/state/hardware/ups_asset.py:366-384 | A UPS that went off on battery comes back with its input if and only if its battery is not empty; its idle draw is then stored once unless some input voltage was left. |
| UpsTransfer.EmptyUpsStaysOnLine | enginecore/enginecore/state/hardware/ups_asset.py:405-421 | With an empty battery a sag is not transferred but passed on. |
| UpsLoad.ChildKeepsCarried | enginecore/enginecore/state/hardware/outlet_asset.py:34-51 | A child load change, on battery or not, keeps the outlet's account if and only if it is not one marked by another UPS below while this one is on line. |
| UpsLoad.DeliveryKeepsCarried | enginecore/enginecore/state/hardware/outlet_asset.py:34-51 | Delivering an event keeps it; marked events are ignored. |
| UpsLoad.MainsKeepsCarried | enginecore/enginecore/state/hardware/ups_asset.py:317-423 | A move of the mains to any voltage keeps outlet load + in flight = UPS load (0 on battery) if and only if it is not a coincidence of the idle draw with the stored load, does not sink the load below zero and is not a rise out of range that the UPS reports on battery. |
| UpsLoad.AlwaysCarriedExactly | enginecore/enginecore/state/hardware/ups_asset.py:317-423 | Over every run of mains moves, child changes and deliveries, the outlet's account is right in every state on the way if and only if no step on the way is such a one, told from the state before. |
| UpsLoad.OutletCarriesUps | enginecore/enginecore/state/hardware/ups_asset.py:317-345 | Over every such run of a UPS as created the feeding outlet carries nothing on battery and the UPS load otherwise, whatever voltage the mains return at. |
| UpsLoad.ReturnAtTheSameVoltage | enginecore/enginecore/state/hardware/ups_asset.py:381-384 | Mains that return at the voltage they left at never make such a move, across child changes made on battery. |
| UpsLoad.ReturnAtAnotherVoltageBreaksTheLaw | enginecore/enginecore/state/hardware/ups_asset.py:381-384 | 126 V, outage, 107 V, 126 V: the outlet ends with less than the UPS load. |
| UpsLoad.PduAboveIsMisled | enginecore/enginecore/state/hardware/ups_asset.py:332-345 | A PDU between a UPS on battery and its outlet is left without load if and only if children draw no more than the UPS had stored. |
| UpsFeed.StepMatches | enginecore/enginecore/state/engine/engine.py:317-331 | In the engine, with any network around, every step is one action of the UPS and its outlet or does not concern them. |
| UpsFeed.AlwaysCarriedExactly | enginecore/enginecore/state/engine/iteration.py:235-263 | Over every run of the engine the outlet's account is right all the way if and only if no step is harmful. |
| UpsFeed.OutletCarriesUpsInTheEngine | enginecore/enginecore/state/hardware/outlet_asset.py:34-51 | Over every such run the outlet's load plus the unmarked load in flight to it is 0 on battery and the UPS load otherwise. |
| Battery.Closest | enginecore/enginecore/state/hardware/ups_asset.py:85 | min over the runtime graph: a nearest wattage, the first of equals. |
| Battery.DischargeBounded | enginecore/enginecore/state/hardware/ups_asset.py:78-110 | Discharge per turn is at least a positive constant of the graph, for every wattage and input voltage. |
| Battery.DrainEnds | enginecore/enginecore/state/hardware/ups_asset.py:131-175 | A level still above zero after n turns means n is below a bound computed from the graph. |
| Battery.DrainBattery | enginecore/enginecore/state/hardware/ups_asset.py:140-169 | The drain loop ends within that bound, after exactly the turns that take the level to zero. |
| Battery.BatteryLasts | enginecore/enginecore/state/hardware/ups_asset.py:78-110 | At any constant wattage and input voltage, from any level and at any speed, the battery is above zero after n turns if and only if wattage * n * speed * 1000 < level * minutes * watts * 60 of the closest point, stretched by 1 + input / threshold when some input is left. |
| Battery.DrainGoesOn | enginecore/enginecore/state/hardware/ups_asset.py:131-175 | A drain goes on from where it got to, so stretches of constant readings compose. |
| Battery.FullBatteryLasts | enginecore/enginecore/state/hardware/ups_asset.py:78-110 | In particular on a graph point a full battery is empty after n turns if and only if n >= minutes * 60. |
| Battery.ChargeBattery | enginecore/enginecore/state/hardware/ups_asset.py:177-221 | A charge takes exactly the turns in which the missing part of the level is made up at full charge in the configured hours; a UPS to be powered up comes on after the first turn above its minimum level. |
| BatteryThreads.StepKeepsExclusive | enginecore/enginecore/state/hardware/ups_asset.py:223-281 | Every step of launchers and threads keeps drain and charge apart and the stored level in 0..1000. |
| BatteryThreads.StepMovesLevel | enginecore/enginecore/state/hardware/internal_state.py:64-80 | A drain step never raises the stored level, a charge step never lowers it, nothing else touches it. |
| BatteryThreads.ThreadsExclude | enginecore/enginecore/state/hardware/ups_asset.py:131-281 | Over every interleaving: never both threads, and the level in 0..1000. |
| BatteryThreads.LevelFallsThroughDrain | enginecore/enginecore/state/hardware/ups_asset.py:131-175 | While a drain thread is alive the stored level never rises, however launches, the other thread and the power state interleave. |
| BatteryThreads.LevelRisesThroughCharge | enginecore/enginecore/state/hardware/ups_asset.py:177-221 | While a charge thread is alive it never falls. |
| BatteryThreads.ExclusiveFromCreation | enginecore/enginecore/state/hardware/ups_asset.py:37-70 | In particular over every run of a UPS as it is created. |
| BatteryThreads.JoinedThreadRunsOut | enginecore/enginecore/state/hardware/ups_asset.py:240-281 | While a launcher is blocked every step of the joined thread uses up one of its last steps. |
| BatteryThreads.AtMostOneMoreTurn | enginecore/enginecore/state/hardware/ups_asset.py:240-281 | However the threads interleave, a blocked launcher sees at most one more loop turn. |
| BatteryThreads.DrainLaunchIsReleased | enginecore/enginecore/state/hardware/ups_asset.py:223-251 | A drain launch always waits for a charge thread that leaves its loop. |
| BatteryThreads.ChargeLaunchIsReleased | enginecore/enginecore/state/hardware/ups_asset.py:253-281 | A charge launch is released if and only if the drain thread is not about to write a cause it read before the launch. |
| BatteryThreads.StaleCauseBlocksTheEngine | enginecore/enginecore/state/hardware/ups_asset.py:112-129 | After such a write the launcher stays blocked over every run that neither switches the UPS off nor empties its battery. |
| BatteryThreads.StaleCauseIsReachable | enginecore/enginecore/state/hardware/ups_asset.py:223-281 | A UPS as created gets there by losing its input for a moment: six steps. |
| BatteryThreads.EngineCanBeBlocked | enginecore/enginecore/state/hardware/ups_asset.py:112-129 | So over every run that goes on from there without switching the UPS off or draining a full battery the engine thread is blocked and the UPS on battery. |
| BatteryThreads.LaunchesAgree | enginecore/enginecore/state/hardware/ups_asset.py:223-281 | A launch does to cause and threads what the handlers of the UPS take it to do, and the end of its join nothing more. |
| BatteryThreads.OffStopsTheDrain | enginecore/enginecore/state/hardware/ups_asset.py:140-148 | A UPS that is off takes at most the drain turn it was in, however often a drain is launched. |
| BatteryThreads.EmptyStopsTheDrain | enginecore/enginecore/state/hardware/ups_asset.py:140-148 | So does one whose battery is empty, unless it is charged. |
| BatteryThreads.FullStopsTheCharge | enginecore/enginecore/state/hardware/ups_asset.py:190-197 | A full battery takes at most the charge turn it was in, unless it is drained. |
| Server.StreamsUp | enginecore/enginecore/state/hardware/server_asset.py:165-197 | The loop over the supplies on a voltage rise: give back, take over, or nothing. |
| Server.StreamsOn | enginecore/enginecore/state/hardware/server_asset.py:118-138 | The two loops of power-on: own shares, then the offline share spread evenly. |
| Server.ServerAsset.FirstPsuOutput | enginecore/enginecore/state/hardware/server_asset.py:54-61 | Output of the first supply that is on. |
| Server.ServerAsset.DetectInputVoltage | enginecore/enginecore/state/hardware/server_asset.py:140-145 | Input voltage is the larger of that output and the event's. |
| Server.ServerAsset.OnInputVoltageUp | enginecore/enginecore/state/hardware/server_asset.py:147-216 | Whole up handler: redistribution, boot, load. |
| Server.ServerAsset.OnInputVoltageDown | enginecore/enginecore/state/hardware/server_asset.py:218-289 | Whole down handler: hand-over to every alternative, or power off. |
| Server.ServerAsset.OnPowerButtonOn | enginecore/enginecore/state/hardware/server_asset.py:104-138 | Whole power-on handler. |
| Server.ServerAsset.OnPowerButtonOff | enginecore/enginecore/state/hardware/server_asset.py:80-102 | Whole power-off handler. |
| ServerLoad.LossMovesTheShare | enginecore/enginecore/state/hardware/server_asset.py:218-289 | Any number of supplies: the lost share goes to every supply that is on, the server keeps its state and load, and the total is kept if and only if exactly one supply takes it or the share is zero. |
| ServerLoad.ButtonOnSpreadsTheLoad | enginecore/enginecore/state/hardware/server_asset.py:104-138 | Any number of supplies with at least one on and draws summing to 1: power-on raises the supplies by a total of exactly the server's load. |
| ServerLoad.ButtonOffRestoresIdle | enginecore/enginecore/state/hardware/server_asset.py:80-102 | A following power-off leaves every live supply at its idle usage; on-then-off restores all supplies if and only if they were idle. |
| ServerReturn.ReturnMovesTheShare | enginecore/enginecore/state/hardware/server_asset.py:147-216 | Any number of supplies: when one comes back to a running server together they gain what it takes less what every holder of extra load gives back; with all supplies on the total is kept if and only if exactly one holder gives back or there is nothing to give. |
| ServerReturn.BootSpreadsTheLoad | enginecore/enginecore/state/hardware/server_asset.py:147-216 | Any number of supplies with draws summing to 1: a server that boots raises them by a total of exactly its load. |
| ServerLoad.VmComesBackExactly | enginecore/enginecore/state/api/server.py:57-70 | A virtual machine that is down in a server that is on is started by the next rise of a supply if and only if the server is set to boot. |
| SupplyOut.LosingExactly | enginecore/enginecore/state/hardware/server_asset.py:218-289 | The input of a supply falls to a voltage it cannot work at: the loads stay where they belong if and only if the other supply is off, the server is off, or the load stored for the server and the part handed over are those at the other supply's voltage. |
| SupplyOut.PressingOffExactly | enginecore/enginecore/state/hardware/server_asset.py:218-289 | The same for the supply's button; its idle usage is reported upstream a second time. |
| SupplyIn.RestoringExactly | enginecore/enginecore/state/hardware/server_asset.py:147-216 | A supply comes back at any voltage: right if and only if the other one is off or has the same voltage, or no part moves, and nothing is left of its own usage, which it would store twice. |
| SupplyIn.PressingOnExactly | enginecore/enginecore/state/api/server.py:388-404 | The same for the supply's button, which books its usage once. |
| SupplyMoves.OffSupplyIsGivenLoad | enginecore/enginecore/state/hardware/asset.py:107-149 | A supply that is off forwards the voltage it is fed, and a server that is on or boots hands it its part, or everything when no supply is on. |
| SupplyMoves.OffSupplyExactly | enginecore/enginecore/state/hardware/server_asset.py:147-216 | Feeding a supply that stays off is right if and only if the server stays off, uses nothing, or has the same voltage from the other supply and no part for this one. |
| SupplyMoves.RisingExactly | enginecore/enginecore/state/hardware/server_asset.py:147-216 | A rise from one working voltage to another is right if and only if the server is on or tolerates it as above; a server that boots on it takes the change of a part for the part. |
| SupplyMoves.FallingExactly | enginecore/enginecore/state/hardware/server_asset.py:218-289 | A fall from one working voltage to another is right if and only if the supply uses nothing itself and the server uses nothing, or is on with nobody else's part on this supply. |
| ServerButton.ServerOffExactly | enginecore/enginecore/state/hardware/server_asset.py:80-102 | Switching the server off leaves every supply at its idle usage. |
| ServerButton.ServerOnExactly | enginecore/enginecore/state/hardware/server_asset.py:104-138 | Switching it on is right if and only if every supply that is going to carry something has the voltage stored for the server. |
| ServerRuns.StepKeepsShared | enginecore/enginecore/state/hardware/server_asset.py:80-289 | Every action, with the supplies at any voltages of their own, keeps each supply at its idle usage plus its part at its own voltage if and only if the condition of that action holds before; upstream reports then equal load changes except for one excess. |
| ServerRuns.RiseMovesOneSupply | enginecore/enginecore/state/hardware/server_asset.py:196-208 | A running server: a live supply that rises from v to w ends at its usage and its part at w and reports that change, the other supply keeps its load. |
| ServerRuns.AlwaysSharedExactly | enginecore/enginecore/state/hardware/server_asset.py:80-289 | Over every run the loads are right in every state on the way if and only if every step on the way is right. |
| ServerRuns.LoadsFollowPower | enginecore/enginecore/state/hardware/server_asset.py:80-289 | Over every such run of a dual-supply server loads depend only on what is on and at which voltage. |
| ServerRuns.FailoverAndFailback | enginecore/enginecore/state/hardware/server_asset.py:147-289 | At one voltage, losing one of two supplies moves exactly its part with the server load unchanged, and restoring it gives back the original state. |
| RestoredTogether.RestoredTogetherExactly | enginecore/enginecore/state/hardware/server_asset.py:147-216 | Both supplies idle at voltages of their own and the server hears of both before its loads are delivered, in either order: the second one is handed its part twice if and only if the server was off, is set to boot and the part is not zero; all other loads are right. |
| SystemModeler.ComponentKeysDiffer | enginecore/enginecore/model/system_modeler.py:56 | Components of one asset get different keys, none its own. |
| SystemModeler.ComponentKeysCollide | enginecore/enginecore/model/system_modeler.py:56 | Two assets ask for the same component key if and only if the longer component number ends in the shorter one and the digits before it complete one owner's key to the other's. |
| SystemModeler.Modeler.CreateAsset | enginecore/enginecore/model/system_modeler.py:175-192 | A lone asset, an outlet or a static one. |
| SystemModeler.Modeler.CreateHub | enginecore/enginecore/model/system_modeler.py:668-682 | A PDU or UPS with its outlets, one by one. |
| SystemModeler.Modeler.CreateServer | enginecore/enginecore/model/system_modeler.py:568-579 | A server with its supplies, one by one. |
| SystemModeler.Modeler.LinkAssets | enginecore/enginecore/model/system_modeler.py:109-172 | The checks in order, their verdicts, and the link only when all pass. |
| SystemModeler.Modeler.RemoveLink | enginecore/enginecore/model/system_modeler.py:90-107 | Exactly one edge goes. |
| SystemModeler.Modeler.DeleteAsset | enginecore/enginecore/model/system_modeler.py:855-868 | The asset, its components and every edge at them go. |
| SystemModeler.LinkIsAcceptedExactly | enginecore/enginecore/model/system_modeler.py:109-172 | A link is accepted if and only if the source powers nothing and can, the destination has no source and takes one, and the source is no part of it; a refusal gives a reason that holds. |
| SystemModeler.UnlinkUndoesLink | enginecore/enginecore/model/system_modeler.py:90-107 | Removing an accepted link restores the model. |
| SystemModeler.DeleteUndoesCreate | enginecore/enginecore/model/system_modeler.py:855-868 | Deleting what was just created, with all its components and edges, restores the model. |
| SystemModeler.NewHubIsUsable | enginecore/enginecore/model/system_modeler.py:668-682 | A new PDU or UPS is powered through itself and powers through its outlets only. |
| SystemModeler.NewServerIsUsable | enginecore/enginecore/model/system_modeler.py:568-579 | A new server is powered through its supplies only and powers nothing. |
| SystemModeler.EditKeepsShape | enginecore/enginecore/model/system_modeler.py:109-172 | Every edit with fresh keys keeps the degree limits. |
| SystemModeler.EveryModelIsWellShaped | enginecore/enginecore/model/system_modeler.py:109-172 | Over every sequence of creates with fresh keys, links, unlinks and deletes: only servers have several sources, servers power nothing, only PDUs and UPSes power several assets. |
| SystemModeler.LinkKeepsLoopFree | enginecore/enginecore/model/system_modeler.py:109-172 | An accepted link keeps the model free of power loops if and only if its destination does not already power its source at any distance. |
| SystemModeler.SelfLinkIsAccepted | enginecore/enginecore/model/system_modeler.py:147-155 | An outlet can be linked to itself. |
| SystemModeler.CarefulModelsAreLoopFree | enginecore/enginecore/model/system_modeler.py:109-172 | Without such links every model is loop free. |
| SystemModeler.PresentedModelHasNoLoadFork | enginecore/enginecore/model/graph_reference.py:299-335 | Any presentation of such a model to the engine meets the degree limits the iteration relies on. |
| SystemModeler.PresentedModelIsRanked | enginecore/enginecore/model/graph_reference.py:299-335 | ... and has the rank the termination proof asks for. |
| ModelledRuns.LoadNeverForks | enginecore/enginecore/state/engine/iteration.py:250-257 | Over every model that can be built and every hardware behaviour, process_load_event never takes its fork branch. |
| ModelledRuns.EveryIterationCompletes | enginecore/enginecore/state/engine/engine.py:129-170 | ... and when no link closes a loop, every iteration completes with each completion announced once. |
| RedisKeys.FormatAsRedisKey | enginecore/enginecore/tools/utils.py:4-23 | The printer's loop builds the padded key. |
| RedisKeys.FormatRoundTrip | enginecore/enginecore/state/redis_state_handler.py:90-101 | Parsing a printed key returns the asset key and the identifier, for every identifier without dashes and spaces, zero-filled or not. |
| RedisKeys.KeysAreDistinct | enginecore/enginecore/tools/utils.py:4-23 | Different objects never share a key. |
| RedisKeys.KeysAreOrderedLikeOids | enginecore/enginecore/state/state_initializer.py:141-143 | For numbers of at most ten digits, string order of the keys of one asset is exactly the lexicographic order of object identifiers. |
| RedisKeys.KeysAreOrderedByAsset | enginecore/enginecore/tools/utils.py:4-18 | Zero-filled keys sort by asset first, whatever the identifiers. |
| RedisKeys.FieldsAreOrdered | enginecore/enginecore/tools/utils.py:19-21 | Right-justified numbers of one width compare like numbers. |
| Storcli.CheckVdState | enginecore/enginecore/state/agent/storcli_emu.py:208-227 | The loop adds every drive to the counters. |
| Storcli.GetStateFromConfig | enginecore/enginecore/state/agent/storcli_emu.py:544-561 | The scan returns the last state with a property at or above its threshold, the optimal one if there is none. |
| Storcli.ControllerStatus | enginecore/enginecore/state/agent/storcli_emu.py:311-379 | The controller page: degraded virtual drives counted, then the controller's own state. |
| Storcli.LastHitIsMonotone | enginecore/enginecore/state/agent/storcli_emu.py:544-561 | Raising properties never moves the scan to an earlier state. |
| Storcli.WorseDrivesNeverImproveStates | enginecore/enginecore/state/agent/storcli_emu.py:208-227 | More errors or more drives out never move a virtual drive or the controller to an earlier state, through summation, scan and degraded count. |
| Storcli.AllDegradedOrNone | enginecore/enginecore/state/agent/storcli_emu.py:311-328 | The controller page judges each virtual drive by all drives, so all are degraded or none is. |
| Storcli.ControllerPageIsNoBetter | enginecore/enginecore/state/agent/storcli_emu.py:562-605 | It never shows a virtual drive in an earlier state than the drive's own page. |
| Storcli.ShippedStates | enginecore/enginecore/model/presets/storage_states.json:1-37 | With the shipped thresholds: degraded from two drives out or from eleven predictive errors, because counters start at -1. |
| Storcli.CountedTotals | enginecore/enginecore/state/agent/storcli_emu.py:208-227 | Every counter ends at its start plus the total of the drives; rebuilding drives are not counted as such. |
| Storcli.LastHitIsLast | enginecore/enginecore/state/agent/storcli_emu.py:544-561 | The state found is the last one that is not the optimal one and has a property at or above a threshold in force. |
| Storcli.RebuildTakesItsTime | enginecore/enginecore/state/agent/storcli_emu.py:222-227 | A drive put back at time t counts as out for exactly its rebuild time. |
| Storcli.TimeNeverHurts | enginecore/enginecore/state/agent/storcli_emu.py:208-227 | As time goes by and nothing else happens no virtual drive and no controller moves to a later state. |
| Thermal.TargetSensor | enginecore/enginecore/state/sensor/sensor.py:378-434 | One pass of a sensor thread over its target. |
| Thermal.KeepChangingTemp | enginecore/enginecore/state/hardware/room.py:111-138 | The room's loop: as many turns as the room was in the awaited condition. |
| Thermal.StaysInEnvelope | enginecore/enginecore/state/sensor/sensor.py:399-434 | However heating and cooling passes interleave, the value stays between the lowest cooling limit in force and the highest heating limit. |
| Thermal.PassActsExactly | enginecore/enginecore/state/sensor/sensor.py:378-434 | A pass moves its target if and only if the source is as its event says and the target is not at the limit, and then towards it by at most a step; cooling stops at the higher of its limit and room temperature. |
| Thermal.DistanceAfter | enginecore/enginecore/state/hardware/room.py:111-138 | After n turns the distance to the limit has shrunk by n steps, or is used up. |
| Thermal.ReachesLimitExactly | enginecore/enginecore/state/hardware/room.py:111-138 | A rule with a positive step is at its limit exactly from turn ceil(distance / step) on. |
| Recording.Recorder.Call | enginecore/enginecore/tools/recorder.py:44-58 | The wrapper records before the call, if enabled and listened to; the call runs once. |
| Recording.Recorder.ReplayRange | enginecore/enginecore/tools/recorder.py:231-256 | Recording off and locked, the slice run in order, status restored. |
| Recording.Recorder.EraseRange | enginecore/enginecore/tools/recorder.py:220-225 | A slice of the history is deleted. |
| Recording.ReplayChangesNothing | enginecore/enginecore/tools/recorder.py:231-256 | A replay leaves history and status as they were, whatever the replayed methods record or toggle. |
| Recording.ReplaysLeaveNoTrace | enginecore/enginecore/tools/recorder.py:44-73 | Over any run the replays can be left out without changing the recorder's final state. |
| Recording.NestedReplayUnlocks | enginecore/enginecore/tools/recorder.py:231-256 | A replay inside a replay unlocks the recorder while the outer one still runs. |
| Recording.ReplayRepeatsTheCallExactly | enginecore/enginecore/tools/recorder.py:44-58 | Replaying the history of a recorded call repeats it exactly if and only if its method calls nothing that is recorded too. |
| Recording.ReplayRepeatsInOrder | enginecore/enginecore/tools/recorder.py:231-256 | Replaying the history of any sequence of calls that record nothing else repeats them in their order. |
| Recording.LastToggleCounts | enginecore/enginecore/tools/recorder.py:44-73 | After a call the recorder is as it was last switched within it, and as before inside a replay. |
| Recording.SliceSelects | enginecore/enginecore/tools/recorder.py:220-225 | Slice bounds count from the end when negative and stay within the list. |
| Recording.EraseKeepsTheRest | enginecore/enginecore/tools/recorder.py:220-225 | What is erased and what is kept are together every action once, and the kept ones keep their order. |
| ActionSlices.DateRangeIsExact | enginecore/enginecore/cli/actions.py:56-117 | For ordered times a date range selects exactly its actions if and only if the history is empty or both dates have actions on their side. |
| ActionSlices.NumberRangeIsExact | enginecore/enginecore/cli/actions.py:56-117 | Numbers select as slices do; a negative one counts only next to another number. |
| ActionSlices.DryRunShowsTheReplay | enginecore/enginecore/cli/actions.py:120-128 | A dry run slices twice; it shows what a replay would run if and only if the range is empty, or starts at the front or from the end and does not end from the end. |

## Left out

- UpsLoad.OutletCarriesUps: excludes runs with a harmful step, because the law is false on exactly those (UpsLoad.AlwaysCarriedExactly); the first voltage a UPS gets is in range, because the up handler leaves it on line otherwise (UpsTransfer.VoltageUpSettles).
- UpsFeed.OutletCarriesUpsInTheEngine: the outlet has no minimum voltage of its own, feeds the UPS only and is, like the UPS, not asked for anything itself.
- ServerRuns.LoadsFollowPower: excludes steps that are not right, because the law is false on exactly those runs (ServerRuns.AlwaysSharedExactly); each action settles before the next, and no supply is fed a voltage it works at but the server does not.
- Recovery.RecoveryIsExact: one outage of a network at rest; of an asset whose tree is in no wall it says nothing.
- Battery.BatteryLasts: wattage and input voltage stay as they are for a stretch; stretches compose (Battery.DrainGoesOn), and for any readings the drain has the bound of Battery.DrainEnds.
- PowerSafety.NothingLitUnderDeadParent: networks of outlets, PDUs and static devices; of an asset that is in no wall and has no parent it says nothing, because nothing ever sets its input.
- Conservation.LoadIsConserved: a leaf is accounted by its draw, power over input voltage; when the load stored for it is that draw, StoredLoads.DevicesStoreTheirDraw says.
- Termination.IterationTerminates: takes a rank, an acyclic graph; link_assets does not enforce one (SystemModeler.LinkKeepsLoopFree).
- Network.Ask: a request made during an iteration is dropped; the source checks a press when it is made, queues it, and carries it out later unchecked, so a stale button-off after a brownout would report a draw that is already gone.
- IterationConsumer.WorkerAssertionHolds: excludes late signals, because the assertion fails after each of them (IterationConsumer.LateSignalBreaksTheAssertion); stop() and the None that ends the worker are not modelled.
- BatteryThreads.ThreadsExclude: a launch up to its join is one step, and the stop event is never set.
- Battery.ChargeBattery: the UPS can be powered up whenever its level allows it; the readings are reals, the store keeps the level truncated to an integer.
- Storcli.WorseDrivesNeverImproveStates: both states are taken at the same time; a rebuild that ends lets a drive back in.
- Recording.ReplaysLeaveNoTrace: replays do not overlap and replayed methods do not erase history.
- RedisKeys.FormatRoundTrip: int() on anything but digits is a parse failure here.
- Redis, Neo4j, libvirt, snmpsim, ipmi_sim and websockets: states are fields and maps, Cypher queries are set comprehensions over the power edges; error texts and logging are dropped.
- circuits: one FIFO queue and one reaction per event; of the handler priorities only the order of reaction and input voltage is kept.
- Thermal iterations, ambient events, storage temperatures, the randomizer, the dashboard, agents, templates, the C plugin and table formatting.
- Reboot signals, which have no success handler, and delayed or graceful signals, power-up and power-off delays and momentary sleeps.
- The UPS power button and its signal-down handler, which treats an integer as an event; the API's forced power-off of a UPS.
- BMC servers: sensors, IPMI agent and CPU load; a server's virtual machine is a flag.
- The GUI load pair of a server event, which plays no part once streamed updates are set.
- The recovery of the battery status OID, whose old level is already the new one.
- The three-way grouping of get_affected_assets for servers with more than two supplies: the engine is given each neighbour once.
- Assets that several handlers share events with: events are values, so a handler cannot alter another's event.
- Attribute checks of create_* (missing consumption, unknown domain), sensor and storage nodes, saving and loading actions to files.
