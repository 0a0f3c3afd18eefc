# Models and proofs of fastactor's OTP layer

fastactor brings Erlang's OTP to Python: processes with mailboxes, links and monitors,
supervisors, state machines with postponement and timers, a registry, and GenStage, a
demand-driven pipeline protocol. This project models the parts where state is spread over
several objects or several messages and proves what they promise over every run.
`dafny verify dfyconfig.toml` checks all of it.

Each part comes in two layers. Where the source updates objects in place there is a class
with the source's own fields, whose methods and loops are proved to do exactly what a
function on values says. The theorems are about those functions: about one call, about
every reachable state, or about whole runs.

| part | files |
|---|---|
| GenStage | `Tables`, `Dispatch`, `Outlets`, `OutletRuns`, `BroadcastRuns`, `PartitionLoop`, `DemandRuns`, `Network`, `Credit`, `CreditRuns`, `Handlers`, `Cancellations`, `Pipeline`, `Lines`; classes in `Dispatchers`, `Stages` |
| GenStateMachine | `MachineModel`, `MachineRuns`, `MachineHistory`, `MachineLimits`, `MachineTimers`, `MachineStops`, `MachineEvents`; class in `Machines` |
| Process | `Links`, `Cascade`, `CascadeRuns`, `Monitors`, `MonitorRuns`, `MonitorFlush`, `MonitorTables`, `Calls`; class in `Processes` |
| Supervisor | `Strategies`, `StrategyRuns`, `StrategyRounds`, `StrategyDrain`, `Terminations`; classes in `Intensity`, `Supervisors` |
| Registry and names | `Registries`, `ReverseEntries`, `Names`; class in `Runtimes` |
| shared | `Identifiers`, `Seqs`, `Sets`, `Wrappers` |

**GenStage.** A system is any number of stages with any mix of dispatchers; a step connects
or cancels a subscription, delivers the oldest message of one stage, or kills a stage.
Callbacks are inputs: what `handle_demand` and `handle_events` answer is part of the step.

**GenStateMachine.** A step delivers a message, ends a timer task, or lets the loop take one
turn, in which the callback's answer is an input. Events are numbered when they are taken
from the mailbox or injected, and the run records every handling.

**Process.** A teardown is cut at its awaits, the sends of Down and Exit among them, so
teardowns, links, monitors and demonitors of any number of processes interleave freely.
`Cascade` follows one exit along links, with the waits of teardowns for each other;
`Monitors` follows links and monitors while processes come, go and change their minds;
`Calls` follows the tables shared by one caller's calls.

**Supervisor.** Restart intensity is the deque as the source keeps it, against the full
history of restarts. Group restart is one loop iteration at a time, with children failing
at any moment between; a supervisor may begin to terminate at any of these moments.

**Registry.** The forward and reverse tables are compared with one plain relation between
registry, key and process, built by operations that know nothing of tables.

What the proofs rely on: generated ids and refs are new, the clock never runs backwards,
mailboxes deliver to running processes in order and without loss, and a handler runs to its
end before its process takes the next message.

Some promises hold only under a condition, which is then part of the theorem:

- `demonitor(ref, flush=True)` keeps the Down message away, except when the monitor was still
  in force while the teardown of the monitored process had already listed it: nothing is put
  on the ignore list and the Down still arrives (`FlushKeepsDownAway`, `FlushCanMiss`).
- Names and processes are inverse to each other, except that a process registered under the
  empty name keeps it, renamed or dead, until that name itself is given up or taken
  (`RegisteringKeepsInverse`, `DeathFreesName`, `EmptyNameStays`, `EmptyNameOutlives`); over a
  run they are inverse at every moment exactly as long as no such process is renamed
  (`InverseExactlyWhen`).
- A monitor yields its Down if it is in force when the teardown of its target lists its
  monitors (`ListedMonitorsAreTold`); one entered after that, before the target has stopped,
  never yields any (`LateMonitorsAreNotTold`).
- Under the broadcast dispatcher each subscription is sent a stretch of what the stage
  produced, in order and without a gap, exactly as long as a middle stage dispatches nothing
  while events wait although every subscriber has demand, as they can after a cancel
  (`BroadcastFifoExactlyWhen`, `OvertakenFromStart`); a Producer never does
  (`BroadcastFifoOfProducers`).
- Events are held strictly in the order they entered, each once, exactly as long as no turn
  postpones its event twice (`OrderExactlyWhen`, `PostponedTwice`); after that the order is
  still never reversed (`EventsStayInLine`). Enter entries stand only at the head of the queue
  exactly as long as none is postponed (`EnterEntries`, `EnterPostponed`).
- The demand loop of a producer with a partition dispatcher makes at most as many calls as
  there is pending demand and answers that nobody can take (`LoopIsBounded`), and never ends
  if and only if from some call on all answers are of that kind (`LoopNeverEnds`,
  `StuckFromStart`).
- A process that tells a neighbour to stop waits until it has stopped, unless the wait times
  out (`WaitsForTold`).
- `Registry.keys` lists just the keys under which `lookup` finds the process as long as no
  registry is taken down and only living processes register (`KeysTellTheTruth`); a registry
  taken down and created again leaves stale keys (`KeysCanBeStale`). In every run it lists what
  was registered and since neither unregistered nor dead (`ReverseEntriesAreNotes`).

Where code and documentation differ, the model follows the code. `one_for_all` is documented
as restarting all siblings; when the child that stopped is not to be restarted, the code
shuts all siblings down and starts none of them (`OneForAllDrops`, `SiblingIsLeftStopped`).

## Model

| member | source | states |
|---|---|---|
| Dispatch.DemandDispatchCutsInput | src/fastactor/otp/gen_stage.py:63-77 | the slices routed, in serving order, followed by the leftover are exactly the input: nothing lost, repeated or reordered |
| Dispatch.DemandDispatchAmount | src/fastactor/otp/gen_stage.py:67-76 | the number of events routed is the smaller of the input's length and the subscribers' total positive demand |
| Dispatch.DemandDispatchOrder | src/fastactor/otp/gen_stage.py:67-73 | each subscriber is chosen at most once, for a non-empty slice, and in order of non-increasing demand, ties by subscription order |
| Dispatch.DemandDispatchAccounts | src/fastactor/otp/gen_stage.py:73-77 | every subscriber is charged exactly the length of its batch, others keep their entry, and a leftover means nobody has demand left |
| Dispatch.DemandBatchIsOneSlice | src/fastactor/otp/gen_stage.py:66-74 | the batch of each chosen subscriber is one contiguous stretch of the input, at the place where its slice lies |
| Dispatch.BroadcastDispatchAgrees | src/fastactor/otp/gen_stage.py:105-117 | every subscriber gets the same batch, as long as the least demand allows; batch and leftover make up the input; the least demand falls by exactly the batch length |
| Dispatch.PartitionDispatchAccounts | src/fastactor/otp/gen_stage.py:155-171 | each subscriber is charged one per event and never below zero |
| Dispatch.PartitionClosed | src/fastactor/otp/gen_stage.py:161-170 | a partition nobody can take events of gets none of them routed, and stays so |
| Dispatch.PartitionDispatchCutsPartition | src/fastactor/otp/gen_stage.py:158-171 | for each partition, its events routed followed by its events left over are its events in the input; some left over means nobody can take more |
| Dispatch.PartitionDispatchRoutesHome | src/fastactor/otp/gen_stage.py:162-168 | an event is routed only to the subscriber its partition is mapped to |
| Dispatchers.DemandDispatcher.Dispatch | src/fastactor/otp/gen_stage.py:63-77 | the loop over shrinking `remaining` computes leftover, batches and new demands of the slice-by-slice dispatch, and ends |
| Dispatchers.DemandDispatcher.Ask | src/fastactor/otp/gen_stage.py:56-58 | what is returned is the growth of the total pending demand |
| Dispatchers.DemandDispatcher.TotalPending | src/fastactor/otp/gen_stage.py:60-61 | the sum of all entries |
| Dispatchers.BroadcastDispatcher.Ask | src/fastactor/otp/gen_stage.py:96-100 | for a known subscription and a non-negative count what is returned is the growth of the least demand; otherwise never less than 0 |
| Dispatchers.BroadcastDispatcher.TotalPending | src/fastactor/otp/gen_stage.py:102-103 | the least entry, 0 for none |
| Dispatchers.BroadcastDispatcher.Dispatch | src/fastactor/otp/gen_stage.py:105-117 | the loop over subscribers gives each the common batch and charges each for it |
| Dispatchers.PartitionDispatcher.Subscribe | src/fastactor/otp/gen_stage.py:133-140 | refused without a partition; otherwise the partition moves to the new subscriber, whose demand starts at 0 |
| Dispatchers.PartitionDispatcher.Cancel | src/fastactor/otp/gen_stage.py:142-146 | the subscriber leaves the demand table and every partition mapped to it |
| Dispatchers.PartitionDispatcher.Dispatch | src/fastactor/otp/gen_stage.py:155-171 | the loop over events routes or keeps each one as the event-by-event dispatch does |
| OutletRuns.DemandFifo | src/fastactor/otp/gen_stage.py:298-352 | over every run under the demand dispatcher: everything routed, in serving order, followed by the buffer is everything produced, and events are buffered only while nobody has demand |
| OutletRuns.DemandFifoFromStart | src/fastactor/otp/gen_stage.py:315-352 | from an empty stage with non-negative demands a non-empty buffer means the total pending demand is 0 |
| OutletRuns.TableMatchesSubscribers | src/fastactor/otp/gen_stage.py:282-287 | the dispatcher's table and `_producer_subs` have the same keys after any run, and no entry is negative |
| OutletRuns.PartitionFifoOverRuns | src/fastactor/otp/gen_stage.py:133-171 | for every partition and every run with subscribes, re-mapped partitions and cancels: events routed for it followed by those buffered are those produced for it |
| OutletRuns.PartitionFifoFromStart | src/fastactor/otp/gen_stage.py:133-171 | the same from an empty stage, with the condition under which an event of a partition is buffered: nobody can take it |
| OutletRuns.BroadcastAgreement | src/fastactor/otp/gen_stage.py:105-117 | over a whole run any two live subscriptions have been sent the same events since the later one subscribed |
| OutletRuns.BroadcastAgreementFromStart | src/fastactor/otp/gen_stage.py:105-117 | the same from an empty stage |
| BroadcastRuns.BroadcastFifoExactlyWhen | src/fastactor/otp/gen_stage.py:315-369 | from the start, with no event produced twice: at every moment of the run every live subscription has been sent a stretch of what was produced, in order and without a gap, which the buffer continues to the end, if and only if nothing is dispatched by a middle stage while events wait and all subscribers have demand |
| BroadcastRuns.BroadcastFifoOfProducers | src/fastactor/otp/gen_stage.py:315-352 | a stage that produces only on demand keeps this over every run, whatever it produces |
| BroadcastRuns.OvertakenFromStart | src/fastactor/otp/gen_stage.py:436-442 | a run from the start in which it fails: of two subscribers one asks, an event waits, the other leaves, and the next event is sent ahead of the one that waits |
| OutletRuns.ProductionLowersPending | src/fastactor/otp/gen_stage.py:324-333 | one production lowers the pending demand by the number of events produced, down to 0 at most |
| OutletRuns.DemandLoopEnds | src/fastactor/otp/gen_stage.py:323-333 | the demand loop against a producer that always answers takes at most as many calls as demand is pending, so it ends |
| PartitionLoop.PartitionProductionProgress | src/fastactor/otp/gen_stage.py:160-170 | a production lowers the pending demand if and only if it holds an event some subscriber can take |
| PartitionLoop.PartitionLoopStalls | src/fastactor/otp/gen_stage.py:323-333 | a script of answers that nobody can take is consumed to its end: all of it lands in the buffer, nothing is sent and the pending demand stays |
| PartitionLoop.LoopIsBounded | src/fastactor/otp/gen_stage.py:323-333 | from any valid state, under every dispatcher, the loop consumes at most as many answers as there is pending demand plus those nobody could take |
| PartitionLoop.LoopNeverEnds | src/fastactor/otp/gen_stage.py:323-333 | against any callback the loop runs for ever if and only if it comes to a call, with demand pending, from which on every answer is non-empty and holds nothing that any subscriber can take |
| PartitionLoop.StuckFromStart | src/fastactor/otp/gen_stage.py:133-171 | such a run from the start: one partition subscribed, one event asked for, and a callback that always answers with an event of another partition |
| CreditRuns.CreditConservation | src/fastactor/otp/gen_stage.py:303-430 | in every reachable state, for every subscription held, `in_flight` is Demand counts in transit plus the table entry plus events in transit, lies between 0 and `max_demand`, and bounds the undelivered events |
| CreditRuns.ClampNeverBites | src/fastactor/otp/gen_stage.py:392 | a consumer is never handed more events than it has in flight, nor an empty batch |
| CreditRuns.NoLostCredit | src/fastactor/otp/gen_stage.py:375-411 | once nothing about an acknowledged subscription with `max_demand >= 1` is in transit, its producer owes it at least one event |
| CreditRuns.NoEventWaits | src/fastactor/otp/gen_stage.py:315-352 | under the demand dispatcher no event is buffered while such a subscription exists |
| CreditRuns.StepKeeps | src/fastactor/otp/gen_stage.py:250-448 | each step of the protocol, whatever its message, sender and callback answer, keeps the credit and addressing invariant of every subscription |
| Handlers.SubscriptionLife | src/fastactor/otp/gen_stage.py:269-430 | in every reachable state a subscription that its consumer holds is in one of four stages: Subscribe waiting, producer stopped without acknowledging, SubscribeAck waiting, or acknowledged with only Demands up and Events down; nothing is in flight or pending before the last |
| Handlers.AckIsAnswered | src/fastactor/otp/gen_stage.py:375-382 | after any run, taking the SubscribeAck of a held subscription puts `max_demand` in flight (0 if it is negative) and posts exactly the Demand for it to the producer, if positive; no other entry or mailbox changes |
| Handlers.EventsAreRefilled | src/fastactor/otp/gen_stage.py:384-411 | after any run, taking Events of a held subscription dispatches what was produced, leaves `in_flight` less the batch if that is at least `min_demand` and not 0, and else brings it back to `max_demand` by a Demand for exactly the difference, posted last; nothing is asked for any other subscription |
| Handlers.DemandStaysUp | src/fastactor/otp/gen_stage.py:375-411 | in every reachable state an acknowledged subscription with `max_demand >= 1` and `min_demand <= max_demand` has at least `max(1, min_demand)` in flight |
| Handlers.ConnectAsks | src/fastactor/otp/gen_stage.py:484-516 | subscribing enters the two bounds as given, with nothing in flight, and posts the request to the producer alone |
| Handlers.DisconnectTells | src/fastactor/otp/gen_stage.py:518-534 | cancelling forgets the subscription and, at a stage that both consumes and produces, the buffer, and posts the Cancel to the producer alone |
| Handlers.SubscribeIsAnswered | src/fastactor/otp/gen_stage.py:269-301 | after any run a Subscribe without a needed partition, or from a stopped consumer, ends the stage; any other enters the subscriber with no demand and for its partition, keeps the others, and sends about the subscription exactly the SubscribeAck |
| Handlers.CancelFrees | src/fastactor/otp/gen_stage.py:436-444 | taking the Cancel of a subscriber removes it from subscriptions, demand table and partition map; others, their order and the buffer stay; nothing is sent |
| Handlers.ProducersMeetDemand | src/fastactor/otp/gen_stage.py:303-333 | a Producer under the demand or broadcast dispatcher whose callback always answers has no demand pending once it has handled a Demand |
| Handlers.OthersIgnoreAnswers | src/fastactor/otp/gen_stage.py:321-323 | a stage that is no Producer handles a Demand without asking for events |
| Handlers.StoppedTakesNothing | src/fastactor/otp/gen_stage.py:250-263 | a stage that has stopped never runs again, and its mailbox only grows |
| DemandRuns.DemandIsProducedFor | src/fastactor/otp/gen_stage.py:315-333 | a Producer produces exactly the first answers of its callback, each non-empty and asked for while demand was pending, up to the point where demand is met or an answer is empty |
| DemandRuns.DemandIsMet | src/fastactor/otp/gen_stage.py:323-333 | with as many non-empty answers as demand is pending the loop meets all of it |
| DemandRuns.SubscribingOnlyAcknowledges | src/fastactor/otp/gen_stage.py:289-301 | in every reachable state, under every dispatcher, a new subscription is answered by its SubscribeAck and nothing else: the flush at the end of `_do_subscribe` never has anything to send |
| Cancellations.CancelledIsOver | src/fastactor/otp/gen_stage.py:436-448 | when a producer takes a Cancel it is the last message about its subscription on the way up; from then on, in every run, the subscription is in no table of either end, and no message about it is sent again |
| Pipeline.SubscriptionIsFifo | src/fastactor/otp/gen_stage.py:354-405 | events handed to a consumer followed by those in its mailbox are exactly those its producer routed to it, in order |
| Pipeline.RunStageFifo | src/fastactor/otp/gen_stage.py:335-405 | inside a system, a demand-dispatching stage that cancels nothing has routed, in order, what it produced up to its buffer |
| Lines.LineDeliversPrefix | src/fastactor/otp/gen_stage.py:384-405 | in a line of any number of stages without cancels, what each stage has been handed is at every moment a prefix of the source stream as mapped through all stages before it |
| Stages.GenStage.DispatchEvents | src/fastactor/otp/gen_stage.py:335-369 | new buffer, demands and messages sent are those of the dispatch; a batch goes to every subscriber that got events |
| Stages.GenStage.DoSubscribe | src/fastactor/otp/gen_stage.py:269-301 | registers, acknowledges and flushes the buffer in this order; a refused subscription, or an acknowledgement that finds the mailbox of the consumer closed, ends the stage with the subscriber registered |
| Stages.GenStage.DoDemand | src/fastactor/otp/gen_stage.py:303-333 | asks the dispatcher, flushes the buffer, then runs the demand loop of a producer; an unknown subscription changes nothing |
| Stages.GenStage.DoCancel | src/fastactor/otp/gen_stage.py:436-448 | the subscription leaves the producer side, or else the consumer side |
| Stages.GenStage.SendDemand | src/fastactor/otp/gen_stage.py:413-430 | a positive count is added to `in_flight` and sent; any other changes nothing |
| Stages.GenStage.DoEvents | src/fastactor/otp/gen_stage.py:384-411 | spends the credit, dispatches what was produced, then refills below `min_demand` or at 0 |
| Stages.GenStage.HandleMessage | src/fastactor/otp/gen_stage.py:250-263 | handling any message is the reaction whose runs the credit theorems are about |
| Stages.GenStage.SubscribeTo | src/fastactor/otp/gen_stage.py:485-516 | under a new id the subscription is entered with nothing in flight before the request is sent, and nothing else changes |
| Stages.GenStage.CancelSubscription | src/fastactor/otp/gen_stage.py:518-534 | drops the subscription, clears a ProducerConsumer's buffer and tells the producer |
| MachineModel.ActionsOnQueues | src/fastactor/otp/gen_state_machine.py:424-442 | a list of actions adds one copy of the current event per postponement and the injected events in order, up to the first stop |
| MachineRuns.HandleBooks | src/fastactor/otp/gen_state_machine.py:387-422 | what a turn does to the queues by event number: on a state change postponed events go before queued ones, which go before injected ones |
| MachineHistory.TurnOrder | src/fastactor/otp/gen_state_machine.py:413-442 | a turn keeps postponed and queued events strictly in entry order if and only if it postpones its event at most once |
| MachineHistory.OrderExactlyWhen | src/fastactor/otp/gen_state_machine.py:202-235 | a run from the start keeps the events it holds strictly in entry order at every moment if and only if no turn postpones the event it handles more than once |
| MachineHistory.EventOrder | src/fastactor/otp/gen_state_machine.py:215-235 | in every run in which no turn postpones its event twice, the events held are strictly in the order they entered and all entered before anything still in the mailbox |
| MachineHistory.ExactlyOnce | src/fastactor/otp/gen_state_machine.py:225-232 | in those runs, until the machine stops, every event that entered is completed or held exactly once, never both, and first handlings happen in entry order |
| MachineHistory.BoundedRetries | src/fastactor/otp/gen_state_machine.py:413-422 | in those runs two handlings of an event are separated by a state change, so it is handled at most once more often than the state changed since its first handling |
| MachineHistory.HandleEnter | src/fastactor/otp/gen_state_machine.py:413-422 | a turn leaves enter entries at the head of the queue only, naming the state just left, if and only if it does not postpone one |
| MachineHistory.EnterEntries | src/fastactor/otp/gen_state_machine.py:202-232 | over a whole run, at every moment, an enter entry stands at the head exactly when the last turn changed the state, and nowhere else, if and only if no turn postpones one |
| MachineHistory.EnterFromStart | src/fastactor/otp/gen_state_machine.py:202-213 | the loop starts in that condition exactly when the first enter callback is not postponed |
| MachineLimits.EventsStayInLine | src/fastactor/otp/gen_state_machine.py:413-442 | in every run, however often its turns postpone, no event held stands before one that entered earlier |
| MachineLimits.PostponedTwice | src/fastactor/otp/gen_state_machine.py:432-436 | one message and one turn that postpones it twice: from the start, event 0 is then held twice |
| MachineLimits.EnterPostponed | src/fastactor/otp/gen_state_machine.py:413-436 | a run from the start in which an enter entry is postponed and then stands behind another one |
| MachineHistory.TurnState | src/fastactor/otp/gen_state_machine.py:387-412 | after a turn state and data are what the callback asked for, except that an enter callback never changes the state and a turn that stops the machine changes neither |
| MachineTimers.ApplyKeepsTidy | src/fastactor/otp/gen_state_machine.py:443-463 | an action touches only the timer slot of its own kind and leaves there the timer it armed, or none, with every replaced timer cancelled |
| MachineTimers.ActionsKeepTidy | src/fastactor/otp/gen_state_machine.py:424-463 | after a list of actions each slot is decided by the last action of its kind |
| MachineTimers.ProcessTimers | src/fastactor/otp/gen_state_machine.py:404-411 | a changed state is entered with a live state timer if and only if this very turn armed it last; named timers survive |
| MachineTimers.CleanUp | src/fastactor/otp/gen_state_machine.py:492-501 | when a timer task ends, a slot is emptied exactly if it held that timer: the clean-up of a superseded timer never erases its replacement |
| MachineTimers.TimersReplaced | src/fastactor/otp/gen_state_machine.py:443-505 | in every run the uncancelled state timer is exactly the one in `_state_timeout_scope`, and the uncancelled one of a name exactly the one in `_named_timers` |
| MachineStops.StopsExactlyWhen | src/fastactor/otp/gen_state_machine.py:374-379 | handling an event stops the machine if and only if the answer is `stop` or `stop_and_reply` or its actions hold a stop |
| MachineStops.TurnStopsExactlyWhen | src/fastactor/otp/gen_state_machine.py:219-296 | a turn stops the machine if and only if it handles an event whose answer asks for it or takes a Stop from the mailbox with nothing queued |
| MachineStops.RunStopsExactlyWhen | src/fastactor/otp/gen_state_machine.py:215-296 | a run is over if and only if one of its turns was of that kind |
| MachineStops.StoppedStays | src/fastactor/otp/gen_state_machine.py:272-291 | after that nothing happens to the machine |
| MachineStops.StartsWith | src/fastactor/otp/gen_state_machine.py:202-213 | before its first turn the machine stops exactly if the enter callback or the actions of `init` ask for it; else the queue holds what the enter callback injected followed by what `init` injected, only the enter entry can be postponed, and the state is the initial one |
| MachineStops.StartsTimers | src/fastactor/otp/gen_state_machine.py:202-213 | at the start each timer slot is decided by the last action of its kind, those of `init` coming after those of the enter callback |
| MachineStops.UnnamedTimersAdd | src/fastactor/otp/gen_state_machine.py:462-463 | over every run the live unnamed timers are those armed less those whose own task ended: none replaces another |
| MachineEvents.MailboxIsFifo | src/fastactor/otp/gen_state_machine.py:215-271 | over every run the messages taken are, in order, the first of those that arrived, fired timers included; a message is taken only with nothing queued |
| MachineEvents.EventsAreUnaltered | src/fastactor/otp/gen_state_machine.py:413-442 | in every run an event held, however often postponed and replayed, has the type and content with which the event of its number entered, from the mailbox or injected |
| Machines.GenStateMachine.ApplyAll | src/fastactor/otp/gen_state_machine.py:424-469 | the loop over actions, stopping at the first stop |
| Machines.GenStateMachine.ScheduleTimer | src/fastactor/otp/gen_state_machine.py:471-505 | a timer task under a new scope |
| Machines.GenStateMachine.ProcessEvent | src/fastactor/otp/gen_state_machine.py:387-422 | one event handled in place, with the replay loop that puts postponed events back in front |
| Machines.GenStateMachine.Turn | src/fastactor/otp/gen_state_machine.py:215-271 | queued events come before the mailbox |
| Machines.GenStateMachine.Start | src/fastactor/otp/gen_state_machine.py:202-213 | the enter callback runs first, then the actions of `init`, for which nothing is postponed |
| Machines.GenStateMachine.EndTimer | src/fastactor/otp/gen_state_machine.py:492-501 | the `finally` of a timer task |
| CascadeRuns.CascadeIsReachability | src/fastactor/otp/process.py:191-210 | once nobody is exiting, in whatever order the teardowns ran, exactly the first process and those reached from it over non-trapping ones have stopped; each other trapping process lives and got exactly one Exit per stopped neighbour; the links left are those between survivors |
| CascadeRuns.CascadeEnds | src/fastactor/otp/process.py:191-210 | a cascade over k processes takes at most k(2k + 4) steps, cycles or not |
| CascadeRuns.CascadeProceeds | src/fastactor/otp/process.py:341-353 | teardowns waiting for each other never wait in a circle: until the cascade is over some step other than a time-out is possible |
| CascadeRuns.WaitsForTold | src/fastactor/otp/process.py:205-210 | a process that tells a running neighbour to stop tells nobody else and does not stop itself until that neighbour has stopped, whatever others do, unless its wait times out |
| Cascade.NextInv | src/fastactor/otp/process.py:191-232 | every step keeps, for every pair of neighbours, what each side has cut, told and sent |
| Links.JoinedIsTwoSided | src/fastactor/otp/process.py:226-228 | linking keeps links known at both ends and adds exactly that link |
| Links.PartedIsTwoSided | src/fastactor/otp/process.py:230-232 | unlinking keeps links known at both ends and removes exactly that link |
| MonitorRuns.AlwaysTwoSided | src/fastactor/otp/process.py:174-235 | in every interleaving of spawns, links, monitors, demonitors and teardowns, links and monitors are known at both ends; a ref yields at most one Down, to the process it was issued to, seen at most once |
| MonitorRuns.ListedMonitorsAreTold | src/fastactor/otp/process.py:174-189 | a monitor in force when a teardown lists its monitors yields exactly one Down by the time the list is done, whatever happens meanwhile, if its watcher still runs |
| MonitorRuns.LateMonitorsAreNotTold | src/fastactor/otp/process.py:174-189 | a monitor entered after the teardown of its target listed its monitors and before the target stopped is in force and never yields a Down, whatever happens |
| MonitorRuns.DownsAreTrue | src/fastactor/otp/process.py:174-189 | in every run a Down is sent only about a process that has left its loop |
| MonitorTables.TablesAreARelation | src/fastactor/otp/process.py:174-235 | after any run the link and monitor tables, at both ends, hold exactly the links and monitors of a plain record of spawns, calls and teardown steps |
| MonitorTables.StoppedTargetsAreTold | src/fastactor/otp/process.py:299-303 | after any run, monitoring a stopped process enters no monitor and puts its one Down at the end of the mailbox at once |
| MonitorTables.DownsAreHandledInOrder | src/fastactor/otp/process.py:747-751 | the loop takes the oldest Down: one to be ignored is ignored once, any other is handed to `handle_down` |
| MonitorTables.ListedLinksAreCut | src/fastactor/otp/process.py:191-210 | every link in force when a teardown lists its links is cut at both ends by the time the list is done, unless somebody links the two anew |
| MonitorTables.HeldMonitorsAreReleased | src/fastactor/otp/process.py:212-214 | every monitor that a process made before its teardown was done with its links is gone at both ends by the time it has stopped |
| MonitorFlush.DownIsOutOfTheWay | src/fastactor/otp/process.py:309-317 | for a running process that no longer monitors, the Down will never be seen if and only if it is ignored, or neither in the mailbox nor due |
| MonitorFlush.FlushKeepsDownAway | src/fastactor/otp/process.py:309-317 | after `demonitor` with flush the Down is never seen, if and only if not: monitor in force, already listed by the target's teardown, and not ignored before |
| MonitorFlush.FlushCanMiss | src/fastactor/otp/process.py:174-182 | a run in which the flushed Down still arrives: two monitors, and a teardown that has listed both and is sending the first Down |
| Calls.TablesMatch | src/fastactor/otp/process.py:237-290 | over any overlapping calls and any replies: entries are those of the calls that, by the steps about their own ref alone, were sent and have neither gone on nor been given up; an event is set and a result stored exactly once a reply to such a call came; with no such call both tables are empty |
| Calls.ReturnsOwnReply | src/fastactor/otp/process.py:263-290 | a call returns the last reply delivered for its own ref while it waited, there is one, and nothing later changes that |
| Calls.ReturnsWhatItsStepsSay | src/fastactor/otp/process.py:263-290 | a call that is over returned the last reply that came while it waited, or nothing if its target was gone or it was given up |
| Processes.Process.Link | src/fastactor/otp/process.py:226-228 | linking two objects, or one with itself, is the link on the tables of the whole group |
| Processes.Process.Unlink | src/fastactor/otp/process.py:230-232 | unlinking likewise |
| Processes.Process.Monitor | src/fastactor/otp/process.py:299-307 | both tables enter the monitor, or a stopped target yields a Down at once |
| Processes.Process.Demonitor | src/fastactor/otp/process.py:309-317 | the loop takes every ref out of both tables, and with flush ignores exactly those that were gone |
| Processes.Process.DemonitorProcess | src/fastactor/otp/process.py:292-317 | given a process, all monitors on it leave both tables and nothing is left to ignore |
| Processes.Process.TellMonitor | src/fastactor/otp/process.py:177-179 | a listed monitor is forgotten at both ends, as in the runs of `Monitors` |
| Processes.Process.DeliverDown | src/fastactor/otp/process.py:180-189 | the awaited send puts the Down into the mailbox if it is open: the delivery step of those runs |
| Processes.Process.HandleDown | src/fastactor/otp/process.py:747-751 | a Down is taken from the head of the mailbox; it is seen unless it is on the ignore list, which it then leaves: the handling step of those runs |
| Processes.Process.TellLink | src/fastactor/otp/process.py:193-210 | on links, phases and mailboxes of the whole group the method is the step `Notified` of the cascade the reachability theorem is about, and what it then waits for is what that step says |
| Processes.Process.DeliverExit | src/fastactor/otp/process.py:195-204 | the awaited send of Exit is the delivery step of the cascade |
| Processes.Process.ReleaseMonitors | src/fastactor/otp/process.py:212-214 | all monitors held are taken out of both tables |
| Processes.Process.DeliverReply | src/fastactor/otp/process.py:237-247 | a reply is stored for a pending call only |
| Processes.Process.BeginCall | src/fastactor/otp/process.py:263-281 | a call whose target is gone leaves both tables without its ref; any other enters an unset event and puts its message into the mailbox |
| Processes.Process.FinishCall | src/fastactor/otp/process.py:283-290 | the result is taken and both entries are cleared |
| Intensity.RestartLog.RecordRestart | src/fastactor/otp/supervisor.py:157-170 | the deque becomes the restarts of the last `max_seconds` of the full history, and the limit is exceeded exactly when they are too many |
| Intensity.IntensityLimit | src/fastactor/otp/supervisor.py:157-170 | a loop outlives its restarts if and only if no closed interval of `max_seconds` holds more than `max_restarts` of them |
| StrategyRuns.RunningInOrder | src/fastactor/otp/supervisor.py:320-325 | the running children are listed in the order of `child_specs` |
| StrategyRuns.DroppingOne | src/fastactor/otp/supervisor.py:188-194 | dropping a spec leaves the others as they are, in order |
| StrategyRounds.RestForOneRestarts | src/fastactor/otp/supervisor.py:482-554 | children before the failed one are the same processes; it and all after it are new ones started in spec order; living later ones were shut down last first; only the failed one counts |
| StrategyRounds.OneForAllRestarts | src/fastactor/otp/supervisor.py:428-478 | every running child is a new process, and only the failed one counts |
| StrategyRounds.RestForOneDrops | src/fastactor/otp/supervisor.py:528-532 | a child not to be restarted goes with its spec; all others stay as they are |
| StrategyRounds.OneForAllDrops | src/fastactor/otp/supervisor.py:462-469 | a child not to be restarted takes its siblings down with it; only its own spec goes |
| StrategyRounds.RestartTypes | src/fastactor/otp/supervisor.py:177-186 | permanent children are always restarted, temporary ones never, transient ones exactly when they crashed, under both strategies |
| StrategyRounds.RoundShrinks | src/fastactor/otp/supervisor.py:428-554 | with no new failure each round leaves strictly fewer stopped children, under both strategies |
| Terminations.TerminatingRoundOfStopped | src/fastactor/otp/supervisor.py:457-460 | a round of a terminating group, under both strategies, forgets the stopped child and changes nothing else: no process is spawned, nobody is shut down, nothing counts, every spec stays |
| Terminations.NothingStartsAnew | src/fastactor/otp/supervisor.py:137-155 | once a group is terminating, over every run of deaths, shutdowns and rounds, no process is spawned and no failure counts |
| Terminations.TerminatingTellsAll | src/fastactor/otp/supervisor.py:137-155 | `terminate` tells whoever runs to stop, last one first, and forgets all children; the loop is left with all their events |
| Terminations.TerminationDrains | src/fastactor/otp/supervisor.py:137-155 | in whatever order the loop then picks the children up, as many rounds as there were children leave nothing to wait for |
| StrategyDrain.SiblingIsLeftStopped | src/fastactor/otp/supervisor.py:462-469 | such a group from its start: a temporary child ends under `one_for_all`, its running permanent sibling is told to stop, and no child runs any more |
| StrategyDrain.OnlyRealFailuresCount | src/fastactor/otp/supervisor.py:392-426 | over every run an end counted as a failure was the child's own, was counted once, and was not one the supervisor asked for; no child on the books was told to stop |
| StrategyDrain.RoundsEnd | src/fastactor/otp/supervisor.py:428-554 | rounds are at most as many as children have stopped; with none left everyone who runs is alive |
| StrategyDrain.RestForOneDrains | src/fastactor/otp/supervisor.py:482-554 | with several failures at once, in whatever order they are picked, exactly the children before the first failed one keep their process |
| Supervisors.GroupSupervisor.RestartStrategyChildren | src/fastactor/otp/supervisor.py:392-426 | the shutdown, clean-up and start loops |
| Supervisors.GroupSupervisor.StartStrategyChildren | src/fastactor/otp/supervisor.py:370-390 | the start loop |
| Supervisors.GroupSupervisor.Terminate | src/fastactor/otp/supervisor.py:137-155 | `terminate` in place: children shut down in reverse order of their specs, then forgotten |
| Supervisors.GroupSupervisor.OneForAllRound | src/fastactor/otp/supervisor.py:448-480 | one iteration is the round the theorems are about, unless the intensity is exceeded, when nothing is restarted; a terminating group only forgets the child and leaves the restart log alone; a child not waited for changes nothing |
| Supervisors.GroupSupervisor.RestForOneRound | src/fastactor/otp/supervisor.py:506-554 | likewise for `rest_for_one` |
| Registries.NextClean | src/fastactor/otp/registry.py:49-154 | every operation leaves no empty set behind and keeps to the table of the registry's mode |
| Registries.TablesAreARelation | src/fastactor/otp/registry.py:49-154 | after any run the tables mean exactly the relation built by the reference operations, every forward entry has its reverse entry, and no empty set is left |
| Registries.DeathIsClean | src/fastactor/otp/runtime.py:313-338 | after any run, when a process dies no table mentions it and no other process loses an entry |
| Registries.LookupFindsTheLiving | src/fastactor/otp/registry.py:157-177 | lookup finds the living processes related to a key, at most one in a unique registry; registering there is refused exactly when one is found, and names it |
| ReverseEntries.RegisteringAnswers | src/fastactor/otp/registry.py:109-128 | after any run registering is refused exactly for an unknown registry or, in a unique one, while a living process is under the key, which is named; a refusal changes nothing, else the process is entered in both directions |
| ReverseEntries.UnregisteringForgets | src/fastactor/otp/registry.py:131-154 | unregistering takes exactly that key out of both directions, and leaves no empty reverse entry |
| ReverseEntries.ReverseEntriesAreNotes | src/fastactor/otp/registry.py:109-154 | after any run a process's reverse entry holds exactly the keys it was registered under and has since neither been unregistered from, while the registry was known, nor died with |
| ReverseEntries.KeysTellTheTruth | src/fastactor/otp/registry.py:214-224 | with no registry taken down and only living processes registering, `keys` lists exactly the keys the process is registered under, which are those where `lookup` finds it |
| ReverseEntries.KeysCanBeStale | src/fastactor/otp/registry.py:55-59 | a run in which a registry is taken down and created again and `keys` lists a key that is not registered |
| Names.RegisteringKeepsInverse | src/fastactor/otp/runtime.py:340-350 | `register_name` keeps the two tables inverse if and only if it does not rename a process registered under the empty name |
| Names.RegisteringMoves | src/fastactor/otp/runtime.py:340-350 | otherwise the name moves to the process and the process to the name; nothing else changes |
| Names.DeathFreesName | src/fastactor/otp/runtime.py:316-317 | a dead process leaves both tables if and only if its name is not empty; no other name changes |
| Names.EmptyNameStays | src/fastactor/otp/runtime.py:313-356 | over any run of renamings, unregistrations and deaths, whoever holds the empty name keeps it as long as that name itself is neither given up nor taken |
| Names.EmptyNameOutlives | src/fastactor/otp/runtime.py:313-350 | a process registered under the empty name, renamed and dead: the tables are not inverse, and the empty name still leads to it after any such run |
| Names.NextKeepsInverse | src/fastactor/otp/runtime.py:313-356 | registering, unregistering and dying keep the tables inverse, whatever names they hold, except registering a process under another name than its empty one |
| Names.InverseExactlyWhen | src/fastactor/otp/runtime.py:313-356 | from empty tables they are inverse at every moment of a run if and only if it never renames a process registered under the empty name |
| Names.NamesAreInverse | src/fastactor/otp/runtime.py:340-356 | with non-empty names the tables are inverse after any run |
| Names.NamesAreARelation | src/fastactor/otp/runtime.py:313-356 | over any run that renames no holder of the empty name the names are exactly those of the reference relation: a name has one process, a process one name, and the dead lose theirs unless it is empty |
| Runtimes.Runtime.CreateRegistry | src/fastactor/otp/registry.py:44-53 | a new name gets an empty registry of its mode; a known one is refused and nothing changes |
| Runtimes.Runtime.DestroyRegistry | src/fastactor/otp/registry.py:55-59 | the registry goes with all its entries, reverse entries stay |
| Runtimes.Runtime.RegisterKey | src/fastactor/otp/registry.py:109-128 | registering in place, stale owners replaced, refusals without any change |
| Runtimes.Runtime.UnregisterKey | src/fastactor/otp/registry.py:131-154 | unregistering in place, in both directions; the reverse entries of others stay |
| Runtimes.Runtime.LookupKey | src/fastactor/otp/registry.py:157-177 | finds the living processes under a key |
| Runtimes.Runtime.KeysOf | src/fastactor/otp/registry.py:214-224 | lists the keys of a process in a known registry |
| Runtimes.Runtime.UnregisterProcess | src/fastactor/otp/runtime.py:313-338 | the loop over the reverse entry removes the process from every registry and from the names |
| Runtimes.Runtime.RegisterName | src/fastactor/otp/runtime.py:340-350 | registering a name in place |
| Runtimes.Runtime.UnregisterName | src/fastactor/otp/runtime.py:352-356 | unregistering a name in place |

## Left out

- GenStage handlers pause at their awaits: a handler is one step here, so `subscribe_to` or
  `cancel_subscription` called from elsewhere in the middle of a handler is not modelled.
- A stage that crashes or is stopped takes no more messages; sends to it that are guarded then
  raise and are logged, which is not modelled, because its mailbox is never read again. The one
  unguarded send, SubscribeAck, is modelled: it ends the producer. `subscribe_to` naming a
  stopped producer raises to its caller and is not modelled.
- `cancel` modes, the lazily created dispatcher, `_collect`, and async generators as callback
  results: a callback's answer is the list of events it amounts to.
- A bound on the buffer of a ProducerConsumer: it refills upstream whatever its own
  subscribers ask for, so there is none.
- Pipeline.RunStageFifo: assumes that the stage cancels no subscription of its own, because a
  cancelling ProducerConsumer clears its buffer on purpose.
- BroadcastRuns.BroadcastFifoExactlyWhen: assumes that no event is produced twice, since
  overtaking an equal event leaves no trace; one direction (`InTurnStreams`) holds without it.
- MachineHistory.EventOrder: assumes that no turn postpones its event twice, the exact condition
  (`OrderExactlyWhen`); a list with two postponements is accepted by the code.
- When a timer fires relative to the clock, and the fired message's content: a timer task may
  end at any time, with or without having put a message into the mailbox.
- Shutting down a state machine: its loop runs no system teardown, so links and monitors of
  state machines are not covered by the process theorems.
- CascadeRuns.CascadeIsReachability: one process exits on its own account; user code that
  unlinks, stops or crashes further processes meanwhile is not part of the setting, and a
  trapping process is assumed to survive its `handle_exit`.
- Full mailboxes, except that a send of a teardown may take any time; `kill`, process timers
  (`send_after`, `start_interval`, `reschedule`), `handle_continue`, telemetry and emitters.
- The `one_for_one` loop of one child beyond its restart intensity, `terminate_child`,
  `restart_child`, `delete_child` and `start_child` on a running group, and children whose
  start fails: a started child always comes up. `_preserve_child_specs` serves only
  `one_for_one` and is not modelled.
- StrategyDrain.RestForOneDrains: assumes that every stopped child is one to restart; else the
  outcome depends on the pick order, since a temporary child behind a failed one is started
  again if the failed one is picked first.
- Order of starts inside a group: children are spawned concurrently; the model numbers
  processes in the order in which they are spawned.
- `Registry.dispatch`, and the supervision of registries.
- `Registry` operations hold one lock throughout, so each is one step.
- `GenEvent`, `Agent`, `Task`, `GenServer`, `DynamicSupervisor`, the crash log, runtime start
  and stop, signals and settings.
