# The protocols of the asynchronous event loop, in Dafny

Four pieces of the crate work by protocols that no single function shows: the event handler's chain of
listeners, the timer pipeline, the event filter's poll loops, and the packing of the exit code. This
project models each of them as the source writes it and proves what the pieces promise together. The
classes update their fields as the Rust objects do, and each of their methods is proved to compute a
specification function of the old state; the theorems about whole runs are lemmas about those functions.

Everything follows the `ThreadUnsafe` semantics, in which one poll or one drop is one step. The one
exception is the wake flag, where each atomic access is a step and any number of threads interleave.

## The files

- `Wrappers.dfy`: options, poll results, and wakers. A waker is the filter's own, or a task's; a task's
  waker may relay to the filter (`ReachesLoop`).
- `ListenerList.dfy`: the doubly linked list threaded through the slab. `Threaded` says that the links and
  the pair of ends are those of a sequence.
- `ChainSpec.dfy`, `ChainProofs.dfy`: the handler as a transition system and its step invariant. Slab keys
  are reused, so each listener has an arrival number.
- `ChainRuns.dfy`, `ChainWakes.dfy`, `ChainDirects.dfy`: the theorems about runs; about who is woken; about
  the direct listeners.
- `Handler.dfy`: `Handler` and `Waiter`, each of whose operations performs exactly one step of that system.
- `TimerStore.dfy`: the timers as an immediate set of live timers, with conservation and exactness.
- `Reactor.dfy`: `Reactor` with its queue of timer operations in front of the ordered map, the queue of
  event loop operations, the wake flag and the exit code.
- `ExitCode.dfy`: the exit code in the signed 64-bit cell.
- `Timer.dfy`, `TimerSystem.dfy`: `Timer`, and any number of timers that share one reactor.
- `FilterSpec.dfy`, `Filter.dfy`, `FilterProofs.dfy`, `Ledgers.dfy`, `Deadlines.dfy`: `handle_event` as a
  function of the filter, the event and a script of what the futures do when they are polled; the class
  that computes it; what it keeps; an account of everything it does, deed by deed; how long the event loop
  waits after it. A script is arbitrary: any number of polls, each
  doing any sequence of calls on the reactor; but posting `NewEvents` polls nobody.
- `WakeFlag.dfy`: the flag between `ReactorWaker::notify` and the trailing poll loop.

## Where the code and its intent differ

Each of these is proved of the code as it stands, with the condition under which the intent is met.

- **Dropping a notified waiter.** `Waiter::drop` frees the slot and then looks up its successor in it, which
  panics. A run of the handler is faultless if and only if no waiter is dropped while it holds a
  notification it has not taken (`LiteralSafeIff`). Otherwise the token is gone and, until the list is
  empty, no continuation serves anybody or ends the run (`DropLosesToken`, `LostTokenSticks`;
  `DroppedToken` is a run that comes to this). The theorems about runs take this condition as a hypothesis
  in mode `Literal`; they need none in mode `Forwarding`, a variant that differs in this step alone and
  hands the token to the removed listener's successor, as the comment in the source intends. The classes
  follow `Literal`.
- **Setting a registered timer.** `set_interval_at` means to register the timer again, but `clear` has
  taken the registration by then. A timer that was registered is not armed for its task
  afterwards, so the intent is met if and only if it was not (`SettingKeepsArmedIff`). Until its next poll it has no entry in the reactor and
  its old one never fires, over every run of the clock and the other timers (`SetIsUnregisteredUntilPolled`;
  `ForgottenTimer` is such a run); a pending poll then arms it (`PollAfterSettingArms`). The branch cannot
  run and is not written out.
- **A poll at the very deadline.** The reactor fires a timer at deadline <= now, a `Timer` is ready at
  deadline < now. A pending poll therefore leaves nothing that could wake the task if and only if the entry
  has fired and the poll brings the waker it was registered with, which takes a poll at exactly the
  deadline (`PendingPollArmedIff`; `StrandedTimer` is such a run).
- **Timer wakers collected at `NewEvents`.** `about_to_sleep` is never true, so only the park loop wakes
  them: an event wakes what was collected if and only if it parks (`CollectedUnlessParked`), and a program
  whose events never park never wakes a timer (`TimersNeedParking`; in `CollectedNotWoken` one fires).
- **The deadline between events.** The drive loop's own deadline always covers the live timers
  (`ParkCovers`), but it is local; the filter's is set by `NewEvents` alone. An event leaves the event loop
  waiting past a live timer if and only if, when its trailing loop starts, the filter overlooks one: its
  deadline is missing or too late for a live timer that the trailing polls do not cancel, no exit has been
  requested, and the trailing polls do not make the filter yield (`WaitsPastIff`). `NewEvents` never does
  (`NewEventsCovers`), the condition carries over to every sequence of events (`NeverWaitsPastIff`), and
  only a timer inserted since the last `NewEvents` can be overlooked (`OverlookedIsRecent`). Two runs
  come to it: in one the timer is added while the drive loop blocks (`WaitsPastTimer`); in the other it is
  added in a trailing poll, which makes the filter yield, and the next event blocks, which takes the yield
  back (`WaitsAfterYield`).
- **Sends through the proxy.** There are never more sends than consuming swaps, but two sends can follow
  each other directly (`TwoSendsInARow`). A consuming swap lies between any two sends of a run, and of what
  can follow it before the flag is next consumed, if and only if no consuming swap overtakes a call in
  flight before the loop has started (`SendsApartIff`). How many sends a stretch without a consuming swap
  can have is given exactly by `SendsPossibleIff`.
- **`awake` is never cleared.** Once the loop has started, the calls of `notify` that had looked at `awake`
  before are the only ones that send, each once (`SendsOnceAwake`). A notify that arrives later, also while
  the event loop sleeps, raises the flag and wakes nobody; `NoNotifyLost` promises that the next swap finds
  it, not that a swap comes.

## Model

| member | source | states |
|---|---|---|
| `ChainProofs.StepKeeps` | src/handler.rs:99-512 | Every operation of the handler keeps the protocol invariant: either no event is published, nobody has the token and a waiting runner has been woken; or one listener alone has it, with the listeners split into served and still to come and the runner's waker stored. |
| `ChainRuns.RunKeeps` | src/handler.rs:99-512 | Every interleaving of inserts, polls, holds, guard drops, waiter drops, direct listeners and runner polls keeps that invariant. |
| `ChainRuns.TokenIffEvent` | src/handler.rs:113-158 | In every reachable state exactly one listener is notified or has an open guard if and only if an event is published; the "no instance" and "already notified" branches are never taken; each completed run served its members once each, in arrival order, with its own event, save those dropped before their turn. |
| `ChainRuns.LiteralSafeIff` | src/handler.rs:358-370 | The code as written runs into none of its impossible branches if and only if no waiter is dropped while notified. |
| `ChainRuns.DropLosesToken` | src/handler.rs:358-370 | Dropping a notified waiter leaves an event published that nobody has the token for. |
| `ChainRuns.LostTokenSticks` | src/handler.rs:133-157 | From then on, until the runner finds the list empty, no continuation delivers the event or ends the run. |
| `ChainRuns.DroppedToken` | src/handler.rs:358-370 | A run of one listener and one event reaches that state: the listener is dropped before it is polled. |
| `ChainProofs.ForwardKeeps` | src/handler.rs:365-369 | In the intended variant, dropping a notified listener keeps the invariant: its successor has the token, or the chain has ended. |
| `ChainWakes.RunnerRegisters` | src/handler.rs:147-156 | A poll of the runner that leaves it waiting stores the waker of that very poll. |
| `ChainWakes.RunnerNeverStranded` | src/handler.rs:133-157 | After a poll that leaves the runner waiting, and until it is polled again, over every run, that poll's waker is stored and the event published, or the event is gone, that waker has been woken since and the next poll completes. |
| `ChainWakes.WaiterNeverStranded` | src/handler.rs:330-351 | After a poll that finds no notification, and until the waiter is used again, its waker stays registered, or it has been notified and that waker woken since; over every run, also one that lost a token. |
| `ChainWakes.WokenAtMostOncePerPoll` | src/handler.rs:486-512 | Over every run, a waker is woken, together with the places that still store it, at most as often as polls have brought it. |
| `ChainRuns.GuardHoldsEvent` | src/handler.rs:285-312 | While a guard is open, whatever the others do, nobody else receives the event, it stays published and the run does not end. |
| `ChainRuns.EndOfChain` | src/handler.rs:270-283 | Whichever step clears the event completes the run on record: every listener still in the list has been served, the members are accounted for, and the runner's latest waker is the one woken. |
| `ChainRuns.MembersAreStartAndInserted` | src/handler.rs:113-130 | A run must account for exactly the listeners present at its start and those inserted while the event is published. |
| `ChainRuns.LeftStep` | src/handler.rs:270-305 | Without inserts, the number of listeners still to be reached falls by one with each delivery and each drop of an unserved listener, and changes in no other way. |
| `ChainRuns.LeftOverRun` | src/handler.rs:270-283 | Over a stretch of any length within a run, what was left is what is left, what was delivered and what was dropped before its turn. |
| `ChainRuns.NobodyLeft` | src/handler.rs:402-408 | With nobody left, the chain is over or one guard is still open. |
| `ChainRuns.RoundServesAll` | src/handler.rs:330-351 | One poll of each remaining listener in order is a legal run that serves exactly those listeners, ends the chain, and wakes the runner last. |
| `ChainDirects.DirectsConserved` | src/handler.rs:160-206 | No run loses or copies a direct listener, however it ends. |
| `ChainDirects.DirectsGoBack` | src/handler.rs:171-206 | When the direct listeners return, the list is those registered meanwhile followed by all the original ones in order, also after an early consumption. |
| `ChainDirects.DirectsQueueUp` | src/handler.rs:213-223 | Until the next run starts, direct listeners are kept in the order of their registration and none is called. |
| `ChainDirects.BeginReaches` | src/handler.rs:99-131 | Without direct listeners a run reaches the waiters at once; with some, they are taken out and the first is called with the event. |
| `ChainDirects.DirectsInTurn` | src/handler.rs:197-205 | While the direct listeners are out, over any steps, they are called in order, each with the event, the next one exactly when one returns. |
| `ChainDirects.WaitersUndisturbed` | src/handler.rs:184-205 | Meanwhile the waiters see only their own steps: nothing is published or recorded, and nobody is woken. |
| `ChainDirects.OutEnds` | src/handler.rs:197-206 | That ends when a direct listener consumes the event, or when the last one has declined it and the event reaches the waiters. |
| `ChainDirects.RunThroughDirects` | src/handler.rs:99-206 | The whole of it: a prefix of the direct listeners was called, up to the one that consumed the event or all; they are back; a consumed event was never seen by the waiters; one declined by all is published to the waiters present, the head is notified and woken, and the runner waits, or is done if there are none. |
| `ChainDirects.ConsumedLeavesListeners` | src/handler.rs:107-111 | From any point of the stretch to the consumption, the waiters see only their own steps, as if there had been no event. |
| `ListenerList.WalksVisitEachOnce` | src/handler.rs:70-79 | Following `next` from the head or `prev` from the tail visits every occupied slot once and stops, and the two walks are each other's reverse. |
| `ListenerList.OrderUnique` | src/handler.rs:70-79 | The links and ends determine the sequence of listeners. |
| `ListenerList.AppendThreaded` | src/handler.rs:423-448 | Linking a vacant slot behind the tail appends exactly it to the sequence. |
| `ListenerList.RemoveThreaded` | src/handler.rs:451-480 | Unlinking a slot anywhere (head, tail, middle, sole) deletes exactly it from the sequence. |
| `ListenerList.EndsAfterRemove` | src/handler.rs:455-468 | The case distinction on head and tail yields the ends of the shorter list, and its two unwraps succeed. |
| `ListenerList.UnlinkedAt` | src/handler.rs:470-477 | Removal changes in another slot only the link that pointed at the removed one, to the removed one's other neighbour. |
| `Handlers.Handler.Insert` | src/handler.rs:423-448 | A slot that was vacant is taken; the list grows by it at the end and stays well threaded. |
| `Handlers.Handler.Remove` | src/handler.rs:451-480 | The slot is vacated and its listener returned; the list loses just that position and stays well threaded. |
| `Handlers.Handler.TakeNotification` | src/handler.rs:483-485 | The notification is returned and cleared, and nothing else changes. |
| `Handlers.Handler.RegisterWaker` | src/handler.rs:488-501 | The listener's stored waker is the one given, whether or not the old one was kept. |
| `Handlers.Handler.Notify` | src/handler.rs:504-512 | The listener becomes notified and its waker is handed out for waking; a second notification is a fault. |
| `Handlers.Handler.StartChain` | src/handler.rs:113-157 | With listeners, the event is published, the head notified and the runner's waker stored; with none, nothing happens and the runner is done. |
| `Handlers.Handler.Begin` | src/handler.rs:99-131 | The start of `run_with` is the machine's start step; it is ready exactly when no run remains suspended. |
| `Handlers.Handler.DirectReturned` | src/handler.rs:160-206 | The end of a direct listener's future is the machine's step: call the next, or restore them all and then stop or start the chain. |
| `Handlers.Handler.Repoll` | src/handler.rs:133-157 | A later poll of the runner is the machine's step, and is ready exactly when the list is empty or the event gone. |
| `Handlers.Handler.AddDirect` | src/handler.rs:214-223 | A direct listener is registered behind the others. |
| `Handlers.Handler.NotifyNext` | src/handler.rs:270-283 | The token goes to the next position of the list, or the chain ends with the runner woken. |
| `Handlers.Waiter.constructor` | src/handler.rs:261-268 | A new waiter is the machine's insert step, under a key no listener has. |
| `Handlers.Waiter.PollNext` | src/handler.rs:330-351 | A poll is the machine's poll step, and returns the published event exactly when its notification was there. |
| `Handlers.Waiter.Hold` | src/handler.rs:286-312 | A poll of `hold` is the machine's hold step, and returns the event exactly when its notification was there, with the guard open. |
| `Handlers.Waiter.Release` | src/handler.rs:402-408 | Dropping a guard is the machine's release step. |
| `Handlers.Waiter.Drop` | src/handler.rs:358-370 | Dropping a waiter is the machine's drop step, and panics exactly when the waiter was notified. |
| `TimerStore.InOrderSorted` | src/reactor.rs:63-63 | The listing of the timer map by key is strictly sorted and has exactly the map's items. |
| `TimerStore.ProcessExact` | src/reactor.rs:205-230 | `process_timers` moves out precisely the live timers with deadline <= now, in key order with their wakers, keeps every later one, and returns `now` if any fired, else the least pending deadline, or none without timers. |
| `TimerStore.DoConserves` | src/reactor.rs:136-230 | Each command keeps every id unique and every waker in one place. |
| `TimerStore.AlwaysConserved` | src/reactor.rs:136-230 | Over every sequence of commands, each key ever issued is live, cancelled or fired, in one way only, fired at most once, with the waker it was inserted with. |
| `TimerStore.GoneForGood` | src/reactor.rs:136-230 | A key that is issued and not live never becomes live nor fires again. |
| `TimerStore.RemovedNeverFires` | src/reactor.rs:157-165 | A timer whose `remove_timer` has returned never fires afterwards, whatever follows. |
| `Reactors.AppliedLast` | src/reactor.rs:189-201 | An operation queued last takes effect last on the map. |
| `Reactors.SplitIsDue` | src/reactor.rs:212-214 | Splitting the map at one nanosecond after `now` with id 0 separates the timers with deadline <= now from the others. |
| `Reactors.IntoValues` | src/reactor.rs:226-227 | The ready timers are handed out in key order. |
| `Reactors.Reactor.constructor` | src/reactor.rs:85-102 | A new reactor has no timers, operations, proxy or exit request; its queue may be bounded or not. |
| `Reactors.Reactor.SetProxy` | src/reactor.rs:110-112 | The first proxy is kept. |
| `Reactors.Reactor.NotifyLoop` | src/filter.rs:277-294 | A notify raises the flag, and sends through the proxy only if it was down and the loop not started. |
| `Reactors.Reactor.TryPush` | src/sync.rs:420-422 | A push on a full bounded queue gives the operation back and changes nothing; any other appends it. |
| `Reactors.Reactor.ProcessTimerOps` | src/reactor.rs:184-202 | Draining empties the queue into the map and changes nothing a client could see, for every capacity. |
| `Reactors.Reactor.Enqueue` | src/reactor.rs:141-147 | Push with drain and retry ends with the operation applied behind all the earlier ones, full queue or not. |
| `Reactors.Reactor.InsertTimer` | src/reactor.rs:136-154 | The set of live timers gains exactly this timer under a fresh id, and the loop is notified. |
| `Reactors.Reactor.RemoveTimer` | src/reactor.rs:157-165 | The set of live timers loses exactly this timer, if it was there. |
| `Reactors.Reactor.ProcessTimers` | src/reactor.rs:205-230 | Through queue, split and replacement, the wakers and the deadline are those of the immediate store. |
| `Reactors.Reactor.Perform` | src/reactor.rs:136-230 | For any sequence of commands, everything a client sees and the final set of live timers are those of the immediate store: independent of draining and of the queue's bound. |
| `Reactors.Reactor.PushEventLoopOp` | src/reactor.rs:240-247 | The operation is queued behind the others and the loop notified. |
| `Reactors.Reactor.DrainLoopQueue` | src/reactor.rs:250-261 | The queue is emptied front to back, each operation executed and answered once. |
| `Reactors.Reactor.RequestExit` | src/reactor.rs:125-133 | The cell holds the packed code and the loop is notified. |
| `Reactors.Reactor.ExitRequested` | src/reactor.rs:115-122 | The code read is the unpacked cell. |
| `ExitCode.RoundTrip` | src/reactor.rs:115-133 | Every 32-bit code, negative ones included, is read back, and the shift loses nothing. |
| `TimerClient.Timer.NeverFires` | src/timer.rs:73-80 | A timer that never fires has no deadline and no registration. |
| `TimerClient.Timer.IntervalFrom` | src/timer.rs:95-114 | An interval timer starts unregistered with its first instant as deadline. |
| `TimerClient.Timer.Clear` | src/timer.rs:117-167 | Clearing takes deadline and registration, and the reactor entry with them. |
| `TimerClient.Timer.SetInterval` | src/timer.rs:144-154 | On return the old entry is out of the reactor and the timer unregistered at its new deadline and period; no entry is made. |
| `TimerClient.Timer.SetAfter` | src/timer.rs:123-133 | A deadline past the last instant makes a timer that never fires; any other sets a single firing. |
| `TimerClient.Timer.Poll` | src/timer.rs:180-227 | A poll is ready with the deadline exactly when that is in the past; timer and reactor move as the specification says, and the loop is notified exactly when an entry was made. |
| `TimerSystem.StepKeeps` | src/timer.rs:117-227 | Each operation of any of the timers, and each `process_timers`, keeps: entries belong to registered timers, registrations have distinct ids, and no waker is lost. |
| `TimerSystem.RunKeeps` | src/timer.rs:117-227 | So does every run. |
| `TimerSystem.KeysAndTimersMatch` | src/timer.rs:180-227 | In every reachable world each live entry belongs to exactly one timer and carries the waker of its latest registration; a registered timer has a deadline, and its entry is live or has fired. |
| `TimerSystem.ClearedNeverFires` | src/timer.rs:156-167 | Dropping or setting a timer takes its entry out for good, whatever is done next. |
| `TimerSystem.PendingPollArmedIff` | src/timer.rs:203-224 | A pending poll leaves the timer's entry in the reactor, with the waker of the poll, unless the timer was registered with that waker and the entry has fired; that takes a poll at the very deadline. |
| `TimerSystem.ReadyPollRearms` | src/timer.rs:185-203 | A ready poll gives the deadline and takes its entry out; the next instant is at once in the reactor with the waker of the poll if it can be represented, and otherwise the timer has neither deadline nor registration; the other entries stay. |
| `TimerSystem.StrandedTimer` | src/timer.rs:185-224 | Such a run: the timer stays pending with no entry left. |
| `TimerSystem.SettingKeepsArmedIff` | src/timer.rs:144-154 | A timer is armed afterwards for whatever task it was registered for if and only if it was not registered at all. |
| `TimerSystem.SetIsUnregisteredUntilPolled` | src/timer.rs:144-160 | From a setting to the next poll, over every run, the timer is unregistered, every live entry belongs to another timer, and its old entry neither comes back nor fires. |
| `TimerSystem.ForgottenTimer` | src/timer.rs:144-160 | Such a run: a task waits, the timer is set, the new deadline passes, and nothing fires. |
| `TimerSystem.PollAfterSettingArms` | src/timer.rs:203-211 | The next poll, if pending, enters the timer with the waker of the poll. |
| `TimerSystem.TimerFollowsSchedule` | src/timer.rs:180-203 | The ready results of a timer depend on its start, its period and the times of its polls alone, not on registrations or on the reactor. |
| `TimerSystem.NthIs` | src/timer.rs:193-193 | The k-th instant of an interval, reached by repeated addition, is start + k * period. |
| `TimerSystem.NoDrift` | src/timer.rs:185-203 | However late the polls, the k-th result is the k-th instant and earlier than the clock at its poll; the sequence stops at the first instant that cannot be represented, and not before. |
| `TimerSystem.TimerDoesNotDrift` | src/timer.rs:180-203 | The same of a timer, whatever happens to its reactor between polls. |
| `TimerSystem.AtFiresOnce` | src/timer.rs:95-97 | An `at` timer is ready at most once, from any start. |
| `TimerSystem.SettingRestarts` | src/timer.rs:117-154 | A timer set to an interval follows that schedule from its start, whatever it was doing; one set to never is not ready again. |
| `FilterSpec.ActsFlag` | src/reactor.rs:240-247 | Nothing a future does lowers the flag, and a poll that queues an operation, requests an exit or inserts a timer leaves it up. |
| `FilterSpec.DrainFlag` | src/reactor.rs:250-261 | Draining empties the queue, and raises the flag exactly when an answer goes to a task of the filter. |
| `FilterSpec.TrailDecreases` | src/filter.rs:220-233 | Each turn of the trailing loop lowers a bound that is at most two. |
| `FilterProofs.WakingRaises` | src/filter.rs:297-325 | Waking either of the filter's own wakers raises the flag; waking a task's raises it if and only if the task belongs to the filter. |
| `Filters.Filter.constructor` | src/filter.rs:92-121 | A new filter has its flag up, so that the future gets a first poll. |
| `Filters.Filter.Start` | src/filter.rs:146-165 | `NewEvents` ends the yield, marks the loop started, collects the due timers and sets the deadline; other events do nothing. |
| `Filters.Filter.DriveAndPark` | src/filter.rs:173-217 | The blocking loop performs its turns in order: poll, drain, collect, wake, park. |
| `Filters.Filter.PollWhileNotified` | src/filter.rs:220-233 | The trailing loop ends, having polled no more often than its bound. |
| `Filters.Filter.SetControlFlow` | src/filter.rs:244-256 | Exit comes before yield, yield before the deadline, the deadline before waiting. |
| `Filters.Filter.HandleEvent` | src/filter.rs:126-260 | `handle_event`, in place, computes the specification for every event and every script. |
| `FilterProofs.HandleSettles` | src/filter.rs:126-260 | Whatever the futures do, an event ends with the flag up only if yielding, with the control flow its state calls for, and with at most two polls in the trailing loop. |
| `FilterProofs.AlwaysSettled` | src/filter.rs:126-260 | So does every sequence of events, with at most two polls for each. |
| `FilterProofs.WokenMeansPolling` | src/filter.rs:220-256 | After every sequence of events, a wake not served or an operation queued leaves the loop polling again or exiting; it exits if and only if an exit was requested, and otherwise polls exactly when yielding and waits until the deadline exactly when there is one. |
| `FilterProofs.TrailShape` | src/filter.rs:220-233 | The trailing loop polls a second time if and only if the first poll neither wakes the filter nor queues an operation and one already queued is answered to a task of the filter; the filter yields afterwards if and only if it did before or the last poll leaves the flag up. |
| `FilterProofs.SelfWakeYields` | src/filter.rs:220-249 | A future that wakes itself at the end of its trailing poll makes the filter yield, and the loop polls again unless an exit was requested. |
| `FilterProofs.PolledIff` | src/filter.rs:146-222 | The trailing loop polls the future if and only if there is a wake to serve and the filter does not yield any more, which `NewEvents` and blocking end; a wake from before the event is still there. |
| `FilterProofs.UnservedIsPolled` | src/filter.rs:92-121 | The first event of a new filter polls the future, and so does the next `NewEvents` after an event that left a wake unserved. |
| `FilterProofs.OpsInOrderParksClean` | src/filter.rs:182-216 | Operations are executed in the order they were pushed, none twice and none skipped; every park finds the queue empty and no collected waker unwoken; the exit code is the one requested last, and none before the first request. |
| `FilterProofs.DrainExact` | src/reactor.rs:250-261 | A drain executes every queued operation once, in order, and wakes exactly the tasks that wait for their answers. |
| `FilterProofs.WakeAllExact` | src/filter.rs:205-207 | Every collected waker is woken once, in order. |
| `FilterProofs.LoopStartedIff` | src/filter.rs:146-165 | The loop counts as started if and only if there has been a `NewEvents`. |
| `FilterProofs.NoSendsOnceStarted` | src/filter.rs:152-152 | From the first `NewEvents` on, no wake-up is sent through the proxy, over every sequence of events. |
| `FilterProofs.ActsOnward` | src/filter.rs:277-294 | Over any acts of a poll before that, one wake-up is sent if the flag goes up and none otherwise; no timer that was gone comes back. |
| `Ledgers.ActsExact` | src/reactor.rs:125-133 | A poll queues its operations, requests its exits and makes its wakes in their order, and executes nothing. |
| `Ledgers.ActsCommand` | src/reactor.rs:136-165 | What a poll does to the timers is what its inserts and removes, in their order, do to the immediate store. |
| `Ledgers.TurnWakes` | src/filter.rs:186-207 | A turn of the drive loop makes the poll's wakes, then answers all operations queued by then, then wakes every waker collected before or due now, once each and in order. |
| `Ledgers.EventDeeds` | src/filter.rs:146-233 | An event does exactly its deeds in the order of the source: collect for `NewEvents`; else post and, if that blocks, drain, turns of poll, drain, collect, wake and park, and the last poll; then the trailing polls, each with a drain. Queue, executions, exits, timers, collected wakers and wakes are what these leave. |
| `Ledgers.WokenTimersAreWoken` | src/filter.rs:205-207 | Over every sequence of events, the wakers of the timers on record as woken are among the wakes made, in the order of the record. |
| `Ledgers.RecordedIsWoken` | src/filter.rs:205-207 | From a new filter on, each timer on record as woken has had its waker woken. |
| `FilterProofs.EveryWakerAccounted` | src/filter.rs:155-207 | Every waker ever given to a timer is in exactly one place: with a live timer, cancelled, collected, or woken. |
| `FilterProofs.CollectedUnlessParked` | src/filter.rs:146-207 | An event that parks leaves no collected waker; one that does not wakes none. |
| `FilterProofs.TimersNeedParking` | src/filter.rs:146-241 | When no event parks, no timer waker is ever woken, and those of all fired timers stay in the filter. |
| `FilterProofs.CollectedNotWoken` | src/filter.rs:146-241 | Such a program: a timer inserted in a trailing poll fires at a later `NewEvents`, and its waker stays collected. |
| `Deadlines.ParkCovers` | src/filter.rs:194-215 | The deadline of a park covers every timer live then. |
| `Deadlines.ParkDeadline` | src/filter.rs:194-215 | A park ends at the filter's deadline or at that of the timers live after the poll, whichever is earlier; the latter is none without timers, now if one is due, and else that of the first key. |
| `Deadlines.WaitsPastIff` | src/filter.rs:126-260 | Any event leaves the event loop waiting past a live timer if and only if, when its trailing loop starts, the deadline is missing or too late for a live timer the trailing polls do not cancel, with no exit requested and no yield to come. |
| `Deadlines.NewEventsCovers` | src/filter.rs:146-256 | After every `NewEvents` the filter yields or its deadline covers every live timer, and the loop does not wait past one. |
| `Deadlines.NewEventsDeadline` | src/filter.rs:155-155 | After `NewEvents` the deadline is none if and only if there were no timers, now if and only if one was due, and else that of the first key. |
| `Deadlines.NeverWaitsPastIff` | src/filter.rs:126-260 | Over every sequence of events, the loop never waits past a live timer if and only if no event but `NewEvents` overlooks one. |
| `Deadlines.OverlookedIsRecent` | src/filter.rs:146-165 | Until the next `NewEvents`, the deadline covers every live timer inserted before the last one. |
| `Deadlines.WaitsPastTimer` | src/filter.rs:185-256 | A timer added while the drive loop blocks can be left live with the event loop waiting without a deadline. |
| `Deadlines.WaitsAfterYield` | src/filter.rs:173-256 | So can one added in a trailing poll that makes the filter yield, when the next event blocks. |
| `FilterProofs.FreshFilter` | src/filter.rs:92-121 | A new filter on a fresh reactor meets the hypotheses of the theorems above. |
| `WakeFlag.NextKeeps` | src/filter.rs:277-294 | Each atomic access keeps: unserved notifies have the flag up or a poll due; raises, consuming swaps and sends balance. |
| `WakeFlag.AlwaysInv` | src/filter.rs:277-294 | So does every interleaving of any number of threads. |
| `WakeFlag.NoNotifyLost` | src/filter.rs:220-222 | Under every interleaving, a notify no poll has served finds the loop about to poll, or its next swap makes it poll; sends never outnumber consuming swaps. |
| `WakeFlag.NotifyIsServed` | src/filter.rs:277-280 | From any notify to the beginning of the next poll, under every interleaving, the flag is up or that poll is due. |
| `WakeFlag.TwoSendsInARow` | src/filter.rs:277-294 | Two sends can follow each other directly. |
| `WakeFlag.SendsPossibleIff` | src/filter.rs:277-294 | Before the next consuming swap there can be up to one send for each call in flight and one more if the flag is down, as long as the loop has not started, and one for each call past its look at `awake` otherwise; any number up to that, and no more. |
| `WakeFlag.CannotMeetIff` | src/filter.rs:277-294 | No two sends can follow each other before the next consuming swap if and only if that number, with a send since the last consuming swap, is at most one. |
| `WakeFlag.SendsApartIff` | src/filter.rs:220-294 | Over every run, a consuming swap lies between any two sends there are or can be before the flag is next consumed, if and only if no consuming swap overtakes a call in flight before the loop has started. |
| `WakeFlag.StartedIff` | src/filter.rs:152-152 | The loop has started if and only if `awake` has been set; nothing clears it. |
| `WakeFlag.SendsOnceAwake` | src/filter.rs:282-285 | Once the loop has started, exactly the calls already past their look at `awake` send, each once. |

## Left out

- Window operations: an operation for the event loop is opaque, with an answer that wakes a task. The bodies of `EventLoopOp::run`, windows, window builders and registrations forward to winit.
- Platform code, the build script and the examples.
- winit, raw window handles, and the insides of `parking`, `async-channel`, `slab` and `BTreeMap`, which have their abstract contracts: a slab hands out some vacant key, the timer map is ordered by key.
- The user future's completion and output: the future given to `block_on` never completes, and `handle_event` could poll a finished one again.
- More than one filter for a reactor.
- The branch on `about_to_sleep` in `handle_event`: it cannot run, so it is not written out.
- Parking: that a park returns, the unpark token and unparking from other threads. A park is a point in the drive loop, recorded with its deadline.
- Liveness of the drive loop: a script gives it finitely many polls, any number of them.
- The bounded channel for event loop operations, whose `send` may suspend; the channel here is the one of `ThreadUnsafe`. The bounded and the unbounded timer queue are both modelled.
- A capacity of `usize::MAX` is modelled as none, since a queue's length never exceeds it.
- Wrap-around of the timer id counter, overflow of `now + 1ns`, leaked guards, and wakers that panic.
- Wakers that run code other than notifying the filter. Two wakers wake the same task if and only if they are equal.
- Overlapping or cancelled calls of `run_with` on one handler, which `block_on` never makes.
- The lazily created handler state: a handler without state behaves as an empty one.
- A waiter used after it was dropped or while its guard is open, which the borrow rules exclude.
- The constructors `after` and `interval` and the method `set_interval`, which read the clock, add to it, and otherwise equal members modelled here.
- Platforms whose `Instant` is not a signed 64-bit number of seconds with nanoseconds.
