# Verification of the process manager module

This project models, in Dafny 4.11, the four parts of the C++ module that hold state, and
proves what the code promises about them over every run.

**Timers.** `TimersCache` keeps timers in a multimap ordered by expiry, gives each one the
smallest free 32-bit ID, and drives one thread that waits for the next expiry, runs the due
callbacks, puts repeatable timers back and removes ended ones. `Timer.dfy` and
`TimersCache.dfy` hold the classes, changed in place; `TimerTable.dfy`, `TimerIds.dfy` and
`TimerPass.dfy` the functions on the table they are proved against. `Scheduler.dfy` is the
thread and all users of the cache as one interleaving state machine, one step for each region
of code under the lock, each notification and each clock reading; `CacheSteps.dfy` shows that
the methods of the class are its steps; `Wakeup.dfy`, `Firing.dfy` and `Progress.dfy` prove no
lost wakeup, the firing discipline and bounded progress.

**Reliable requests.** `Server` sends messages one at a time from a queue, arms a one-shot
resend timer for each send and keeps an index from transaction codes to timer IDs, through
which a Success response removes the timer. `ServerProtocol.dfy` is the state machine,
`Server.dfy` the class; `ServerIndex.dfy`, `ServerConservation.dfy` and
`ServerQuiescence.dfy` prove index agreement, conservation of messages, the send pump,
tracking of timers and quiescence. `CacheLock.dfy` is a trigger pass, which holds the cache's
lock while it waits for callbacks, interleaved with the other threads of the server; it says
when the pass comes to its end.

**Framed TCP.** `Wire.dfy` gives the bytes, `Reader.dfy` and `Writer.dfy` the two sides as
state machines, `TcpConnection.dfy` the class with the handlers, `Delivery.dfy` what a peer
receives over any number of sockets.

**Watchdog session and events.** `Session.dfy` and `WatchdogConnection.dfy` model connecting,
the sequence code and the ping timer; `EventsCache.dfy` the dispatch of requests.

How the model reads the source:

- A call or callback of `Server`, a handler of `TcpConnection` and a handler of the session is
  one step, although the code takes several locks in turn (a push and the size check after it,
  a registration and the index entry after it). The scheduler machine is finer: there each
  region under `timersLock` is a step of its own.
- For the request protocol a resend callback registers its new timer as if it did not need the
  lock, the way `registerTimerNoLock` is described at `Source/src/TimersCache.cpp:52-54`. The
  code calls `registerTimer` instead, which takes the lock the pass is holding; `CacheLock`
  models that. There a submission and a completion are split in two: what they do to the queue
  needs no lock, the registration of the next resend timer waits for it. The machine proves
  when a pass ends in every interleaving, when it ends without the other threads, and when it
  ends in some interleaving.
- A socket may be replaced at any time, also before the completion of the old one's write has
  run; the completion is then an error unless the old socket had taken all bytes of the write.
- The clock, service lookups, completions and arriving bytes are inputs of the steps. The clock
  never goes back. `restartRepeatableTimers` reads the clock once for each timer it puts back,
  so the model takes one reading for each.
- A timer object belongs to the cache alone (a `unique_ptr`); `TimersCache.Owned` is that set.
- The registration number in `Scheduler.State` stands for the identity of a timer object, since
  IDs are used again. The fields listed as "what happened so far" are history, not program state.
- Integers of the source that can wrap are cut explicitly: timer IDs and message sizes.

Where the code does less than it seems to promise, the project gives a run from the initial
state and the exact condition:

- a timer started in the future can undercut the deadline the thread sleeps on
  (`Wakeup.FutureStartLosesWakeup`; `Wakeup.WakeStep`, `Wakeup.WakeRunIff`);
- a reused transaction code leaves a timer no response can remove
  (`ServerQuiescence.CollisionLosesTimer`; `ServerQuiescence.TrackedStepIff`,
  `ServerQuiescence.TrackedRunIff`);
- a send error stops the request pump for good (`ServerConservation.SendErrorStalls`;
  `ServerConservation.StalledIff`, `ServerConservation.StalledForever`);
- a resend callback that starts a send makes the trigger pass wait for itself, with a single
  unanswered message and no other traffic (`CacheLock.ResendDeadlocks`;
  `CacheLock.TriggerAlwaysEndsIff`);
- a message with an empty body stops the reader and leaves the writer's flag up for good
  (`Writer.EmptyBodyLatches`; `Reader.FramingRoundTripIff`, `Writer.LatchesIff`,
  `Writer.LatchedForever`);
- the completion of a header write that runs after its socket was replaced sends the body to
  the new socket without the header (`Writer.LateCompletionTears`; `Writer.InvStep`,
  `Writer.FramedRunIff`).

## Model

| member | source | states |
|---|---|---|
| Timers.Timer.constructor | Source/src/Timer.cpp:3-5 | a new timer waits, does not repeat, has ID 0 and starts now |
| Timers.Timer.SetExpirationTimestamp | Source/src/Timer.cpp:30-33 | afterwards the timer expires at the requested time, whatever the clock shows |
| Timers.Timer.RestartTimer | Source/src/Timer.cpp:43 | only the start changes; the status stays |
| Timers.Timer.RunCallbackFunction | Source/include/Timer.hpp:81-85 | the callback is run once and the timer is ended |
| TimersCaches.TimersCache.GenerateTimerID | Source/src/TimersCache.cpp:12-29 | the search ends and returns the fresh ID of the table |
| TimerIds.FreshIdIsLeast | Source/src/TimersCache.cpp:12-29 | the ID is the least one from 1 that no live timer has and at most size + 1; 0 is returned exactly when every other ID is taken |
| TimerIds.FreshIdIsFree | Source/src/TimersCache.cpp:12-29 | even after wrapping around, the ID is not in use |
| TimerIds.ZeroIdIff | Source/src/TimersCache.cpp:12-29 | with live IDs in range, 0 is handed out exactly at 2^32 - 1 live timers |
| TimersCaches.InsertAt | Source/src/TimersCache.cpp:36 | a new timer comes behind all timers with the same or an earlier expiry and before all others |
| TimersCaches.TimersCache.InternalRegisterTimer | Source/src/TimersCache.cpp:31-43 | the timer gets the fresh ID, is inserted by expiry and raises the flag; no timer changes nothing and gives 0 |
| TimersCaches.TimersCache.RegisterTimer | Source/src/TimersCache.cpp:46-50 | registration and one notification, also when there was no timer |
| TimersCaches.TimersCache.RegisterTimerNoLock | Source/src/TimersCache.cpp:54-63 | the same insertion without flag or notification |
| TimersCaches.TimersCache.InternalRemoveTimer | Source/src/TimersCache.cpp:65-75 | the timer with the ID is gone, all others stay; the flag is raised only if there was one |
| TimersCaches.TimersCache.RemoveTimer | Source/src/TimersCache.cpp:77-81 | removal, and a notification only if a timer was removed |
| TimersCaches.TimersCache.GetExpiredTimers | Source/src/TimersCache.cpp:88-102 | exactly the positions of a prefix of the order |
| TimersCaches.TimersCache.TriggerExpiredTimers | Source/src/TimersCache.cpp:104-113 | runs the callbacks of the waiting timers whose expiry is strictly past, in order, and ends exactly those |
| TimersCaches.TimersCache.RestartRepeatableTimers | Source/src/TimersCache.cpp:115-135 | ended repeatable timers are taken out and put back waiting, each from its own clock reading |
| TimersCaches.TimersCache.RemoveEndedTimers | Source/src/TimersCache.cpp:137-146 | ended one-shot timers are gone, everything else is unchanged and in order |
| TimersCaches.TimersCache.NextExpirationTimestamp | Source/src/TimersCache.cpp:148-155 | nothing for an empty cache, otherwise a lower bound of all expiries that is the first key |
| TimersCaches.TimersCache.LeaveWait | Source/src/TimersCache.cpp:157-167 | leaving a wait lowers the flag and changes nothing else |
| TimersCaches.TimersCache.RestartTimer | Source/src/TimersCache.cpp:169-182 | the timer starts now and moves to its new place; the flag is untouched |
| TimersThreads.RunPasses | Source/src/TimersThreadMain.cpp:16-19 | the three passes on the cache are the function Pass, and run the callbacks of the timers due at `now` |
| TimerPass.PassRefinesTurn | Source/src/TimersCache.cpp:104-146 | the passes over the sorted multimap update each ID on its own: expired one-shots go, expired repeatables wait again from their clock reading, the rest is unchanged |
| TimerPass.PassLeavesWaiting | Source/src/TimersThreadMain.cpp:16-19 | every timer left after a turn that nobody interrupts is waiting |
| Scheduler.WaitingOutsidePasses | Source/src/TimersThreadMain.cpp:8-20 | in every interleaving, other threads between the passes included: outside the passes all timers are waiting, before the removal no repeatable one is ended, none is ever left running |
| Scheduler.FlagStep | Source/src/TimersCache.cpp:31-81 | exactly registrations and removals that find their timer raise the flag, each owing a notification; only a thread that goes on from its wait lowers it; a spurious wake goes back to sleep |
| Scheduler.TimerStep | Source/src/TimersCache.cpp:31-182 | what each step does to the timer found under an ID |
| CacheSteps.Start | Source/src/TimersCache.cpp:8 | a new cache is in the scheduler's initial state |
| CacheSteps.Register | Source/src/TimersCache.cpp:46-50 | registration on the class is the scheduler's step and its notification |
| CacheSteps.Remove | Source/src/TimersCache.cpp:65-81 | removal on the class is the scheduler's step, with a notification exactly if the step owes one |
| CacheSteps.RestartTimer | Source/src/TimersCache.cpp:169-182 | restarting on the class is the scheduler's step |
| CacheSteps.ReadNext | Source/src/TimersCache.cpp:148-155 | the deadline read from the class is the one the scheduler's thread holds |
| CacheSteps.LeaveWait | Source/src/TimersCache.cpp:157-167 | leaving a wait lowers the class's flag as the scheduler's step does |
| CacheSteps.TriggerPass | Source/src/TimersCache.cpp:104-113 | the trigger pass on the class is the scheduler's step, and the callbacks it runs are those it records |
| CacheSteps.RestartPass | Source/src/TimersCache.cpp:115-135 | the same for putting repeatable timers back |
| CacheSteps.RemovePass | Source/src/TimersCache.cpp:137-146 | the same for removing ended timers |
| CacheSteps.ProtocolSteps | Source/src/TimersCache.cpp:31-182 | the steps the server's protocol has for the cache are those of the scheduler |
| TimerPass.LookupRestartRepeatable | Source/src/TimersCache.cpp:115-135 | restarting touches exactly the ended repeatable timers |
| TimerPass.FiredLookup | Source/src/TimersCache.cpp:104-113 | a pass fires the timer found under an ID if it is due, and no other value |
| TimerPass.ExpiredIsPrefix | Source/src/TimersCache.cpp:88-113 | the expired entries are a prefix of the order, and a trigger at the same instant fires exactly its waiting members |
| TimerTable.NextExpirationIsMinimum | Source/src/TimersCache.cpp:148-155 | the first key is the least expiry of all timers |
| TimerTable.InsertKeeps | Source/src/TimersCache.cpp:31-43 | insertion keeps order, key agreement and distinct IDs |
| TimerTable.RestartKeeps | Source/src/TimersCache.cpp:169-182 | restarting keeps order, key agreement, distinct IDs and the set of IDs |
| TimerTable.LookupRestart | Source/src/TimersCache.cpp:169-182 | restarting changes the start of one timer and no other timer |
| TimerTable.RestartRepeatableKeeps | Source/src/TimersCache.cpp:115-135 | putting timers back keeps order, key agreement and the set of IDs |
| Scheduler.SortedIndexAgreement | Source/src/TimersCache.cpp:31-182 | in every reachable state of every interleaving keys are expiries, the order is sorted and the next deadline is the minimum |
| Scheduler.IdsStep | Source/src/TimersCache.cpp:12-63 | live IDs stay distinct and non-zero in a step unless it registers a timer with all IDs taken, and only then fail to |
| Scheduler.LiveIds | Source/src/TimersCache.cpp:12-63 | over every run with room live IDs are never 0 and pairwise different |
| Wakeup.WakeStep | Source/src/TimersCache.cpp:31-81 | a step keeps the deadline valid if and only if it does not restart a timer to before it |
| Wakeup.PastStartNeverUndercuts | Source/src/TimersCache.cpp:169-182 | a timer whose start is not in the future only moves later when restarted |
| Wakeup.WakeRunIff | Source/src/TimersCache.cpp:31-182 | a run keeps the deadline valid throughout if and only if none of its steps restarts a timer to before it |
| Wakeup.PastStartsNeverUndercut | Source/src/TimersCache.cpp:169-182 | registering timers with a start that is not in the future is enough for that, over any run |
| Wakeup.NoLostWakeup | Source/src/TimersThreadMain.cpp:8-20 | in every such interleaving a thread that holds a deadline with the flag down sleeps no longer than any live timer, for ever only on an empty cache; with the flag up it is woken or a notification is due |
| Wakeup.FutureStartLosesWakeup | Source/src/TimersCache.cpp:169-182 | a run in which a restarted timer with a future start is slept through |
| Firings.FiringStep | Source/src/TimersCache.cpp:104-146 | every step keeps the account of which registration may fire again |
| Firings.TriggerRecords | Source/src/TimersCache.cpp:104-113 | a trigger pass records each timer that waits past its expiry exactly once, under its registration, with its expiry and the pass time, and records nothing else |
| Firings.OnlyPassesRecord | Source/src/TimersCache.cpp:104-113 | no other step records a callback |
| Firings.FiringDiscipline | Source/src/TimersCache.cpp:104-146 | over whole runs: never before the expiry, a one-shot registration at most once, firings of a repeatable one more than its duration apart |
| Progress.OverdueWakes | Source/src/TimersCache.cpp:157-167 | with an overdue timer the thread's wait condition holds |
| Progress.ProgressStep | Source/src/TimersThreadMain.cpp:8-20 | each step of the timers thread lowers the rank of an overdue timer or fires it; no step of others raises it |
| Progress.NeverStuck | Source/src/TimersThreadMain.cpp:8-20 | the timers thread always has a step, and asleep a reason to wake |
| Progress.FiringIsLogged | Source/src/TimersCache.cpp:108-109 | if a run fires an overdue timer its log shows the callback under the timer's registration |
| Progress.BoundedProgress | Source/src/TimersThreadMain.cpp:8-20 | an overdue timer that nobody touches fires within eight steps of the thread and within two passes, from any program point, in every run without an undercutting restart, and the log shows it |
| MessageQueues.MessageQueue.Push | Source/include/MessageQueue.hpp:15-25 | appends and returns the new length |
| MessageQueues.MessageQueue.Pop | Source/include/MessageQueue.hpp:30-33 | removes exactly the front |
| Servers.Server.SendRequest | Source/src/ModuleServer.cpp:151-200 | queues the message for the endpoint of the local map, else of the database, else nothing; returns true exactly if an endpoint was found and nothing was queued |
| Servers.Server.Send | Source/src/ModuleServer.cpp:261-271 | arms the timer of the front message and hands the message to the socket |
| Servers.Server.StartTimerToResend | Source/src/ModuleServer.cpp:273-295 | registers a one-shot timer for the message; an index entry already there stays |
| Servers.Server.SendCompleted | Source/src/ModuleServer.cpp:297-319 | pops and sends the next on success, does nothing more on an error |
| Servers.Server.HandleResponse | Source/src/ModuleServer.cpp:327-346 | a Success response for an indexed code removes that timer and the entry; any other response leaves index and cache as they are |
| Servers.Server.ResendCallback | Source/src/ModuleServer.cpp:280-289 | forgets the code and queues the parked message again for the endpoint its service has now, if any |
| Servers.Server.FireTimer | Source/src/TimersCache.cpp:106-112 | a due timer runs its callback between the two status changes: the protocol's firing step, on the timer object |
| ServerIndex.ArmTracks | Source/src/ModuleServer.cpp:292-294 | a new resend timer is indexed exactly when its code had no entry |
| ServerIndex.IndexStep | Source/src/ModuleServer.cpp:273-295 | every step of the server, the timers thread and other users keeps the index in agreement |
| ServerIndex.IndexAgreement | Source/src/ModuleServer.cpp:327-346 | in every reachable state an entry names a live unfired one-shot timer of its code; entries share no timer; a response removes no timer of another transaction |
| ServerIndex.AcceptedResponse | Source/src/ModuleServer.cpp:334-338 | an accepted response ends one message of its own code |
| ServerIndex.FailureResponseIgnored | Source/src/ModuleServer.cpp:334-344 | a response other than Success changes nothing |
| ServerIndex.AcknowledgesIff | Source/src/ModuleServer.cpp:334-338 | a message is acknowledged exactly by a Success response whose code has an entry |
| ServerIndex.FailuresInvisible | Source/src/ModuleServer.cpp:327-346 | over whole runs, responses other than Success might as well not have come |
| ServerIndex.SendArmsTimer | Source/src/ModuleServer.cpp:273-295 | a send arms, under a free ID, a one-shot timer for its message that expires after the time between resends, and changes no other timer |
| ServerIndex.FireLookup | Source/include/Timer.hpp:81-85 | firing ends the fired timer, leaves every other as it is and adds at most a resend timer that waits |
| ServerIndex.FiringsAreTrigger | Source/src/TimersCache.cpp:104-113 | firing the due timers one after the other is the trigger pass on the timers there were, whatever the callbacks register |
| ServerIndex.ResendsWhenDue | Source/src/ModuleServer.cpp:279-289 | the message of an unanswered timer past its expiry is queued again for the endpoint its service now has, and sent at once on an idle pump |
| ServerConservation.Conservation | Source/src/ModuleServer.cpp:151-200 | over every run, colliding codes included, messages behind the front and in unfired timers are the submitted ones less acknowledged and dropped ones |
| ServerConservation.FireResendPending | Source/src/ModuleServer.cpp:279-289 | a firing resend timer keeps its message pending, or drops it if no endpoint is found |
| ServerConservation.PumpRun | Source/src/ModuleServer.cpp:297-319 | at most one send in flight, the queue is empty exactly if none is and none failed, sends start in push order |
| ServerConservation.Drains | Source/src/ModuleServer.cpp:307-314 | n completions without errors empty a queue of n and start everything pushed |
| ServerConservation.StalledForever | Source/src/ModuleServer.cpp:349 | after a send error no message is ever sent again |
| ServerConservation.StalledIff | Source/src/ModuleServer.cpp:302-303 | the pump is stalled if and only if some send so far was completed with an error |
| ServerConservation.SendErrorStalls | Source/src/ModuleServer.cpp:297-319 | a run from the start to a stalled pump, behind which the message stays queued and nothing is sent, whatever follows |
| ServerQuiescence.SendsAreSubmitted | Source/src/ModuleServer.cpp:273-289 | every send carries a submitted message for its service |
| ServerQuiescence.OnePendingCopy | Source/src/ModuleServer.cpp:273-295 | of a code used once there is at most one pending copy, none once acknowledged |
| ServerQuiescence.QuiescenceAfterAcknowledgement | Source/src/ModuleServer.cpp:327-346 | once a code used once is acknowledged, no later step starts a send with it |
| ServerQuiescence.TrackedStepIff | Source/src/ModuleServer.cpp:279-295 | a step keeps every unfired resend timer in the index if and only if it is no submission or completion that arms a timer whose code has an entry; a resend never is |
| ServerQuiescence.TrackedRunIff | Source/src/ModuleServer.cpp:273-295 | throughout a run every unfired resend timer is found through the index if and only if no step of it is of that kind |
| ServerQuiescence.EveryTimerTracked | Source/src/ModuleServer.cpp:273-295 | with fresh codes every unfired resend timer is found through the index |
| ServerQuiescence.InitiallyAllHold | Source/include/ModuleServer.hpp:35-44 | a new server satisfies the invariants which the lemmas on runs start from |
| ServerQuiescence.CollisionLosesTimer | Source/src/ModuleServer.cpp:292-294 | a run with a reused code after which a message stays armed and no response can remove it |
| CacheLock.SubmissionIsSubmit | Source/src/ModuleServer.cpp:160-167 | the two halves of a submission, the second once the lock is free, are the protocol's step; the second is there exactly if nothing was queued |
| CacheLock.CompletionIsCompleted | Source/src/ModuleServer.cpp:301-313 | the two halves of a completion are the protocol's step; the second is there exactly if more is queued behind a send that succeeded |
| CacheLock.CallbackIsFire | Source/src/TimersCache.cpp:106-112 | a callback that needs no lock, undisturbed, is the protocol's firing step |
| CacheLock.WithTheLockItResends | Source/src/ModuleServer.cpp:279-292 | with the lock free, a resend callback that takes it would do what the protocol's does |
| CacheLock.ReleasedRun | Source/src/TimersCache.cpp:104-113 | when the pass has released the lock every run of the protocol goes on from there |
| CacheLock.ResendRegistersIff | Source/src/ModuleServer.cpp:161-166 | the resend callback registers a timer exactly if its lookup succeeds and the queue is empty |
| CacheLock.DueIsFired | Source/src/TimersCache.cpp:104-113 | in every interleaving the callbacks a pass has still to run are those of the timers waiting and due in the cache |
| CacheLock.PassIsBounded | Source/src/TimersCache.cpp:104-113 | no other thread adds to the steps a pass has to take |
| CacheLock.StuckForever | Source/src/TimersCache.cpp:46-50 | when a callback waits for the lock of its own pass, the pass has no step left in any continuation, and no timer changes and nothing is sent any more |
| CacheLock.DoomedRun | Source/src/TimersCache.cpp:104-113 | a pass that still has a callback before it which calls back into the cache never ends, in any interleaving |
| CacheLock.AlwaysEndsIff | Source/src/TimersCache.cpp:104-113 | a pass ends in every interleaving with the other threads if and only if no due callback calls back into the cache and, if a due resend finds an endpoint, the queue cannot run empty meanwhile |
| CacheLock.TriggerAlwaysEndsIff | Source/src/ModuleServer.cpp:279-319 | the same on every reachable state of the server: two queued messages, or a stalled pump, or no endpoint for any due resend |
| CacheLock.CanEndIff | Source/src/TimersCache.cpp:104-113 | a pass ends in some interleaving if and only if no due callback calls back into the cache |
| CacheLock.TriggerFinishesIff | Source/src/TimersCache.cpp:104-113 | if no other thread acts, a pass can end if and only if no due callback would take the lock when it begins |
| CacheLock.ResendDeadlocks | Source/src/ModuleServer.cpp:279-292 | a run from the start, with one unanswered message, after which the pass waits for itself |
| Wire.HeaderRoundTrip | Source/include/Communication.hpp:19-22 | the 8 bytes of a header give back operation code and size |
| Wire.HeaderBytes | Source/include/Communication.hpp:19-22 | the operation code is in the first four bytes and the size in the last four, least significant first |
| Wire.MakeMessageFramesIff | Source/src/ModuleConnection.cpp:31-49 | a made message has its operation code and body, and the size in its header is the body's length exactly below 2^32 bytes |
| Reader.PiecesDoNotMatter | Source/include/Connection.hpp:29-77 | what is handed over depends on the bytes, not on how they arrive |
| Reader.ReadStream | Source/include/Connection.hpp:29-77 | on any stream of frames exactly the messages before the first empty body are handed over, and there reading stops |
| Reader.FramingRoundTripIff | Source/include/Connection.hpp:29-149 | all messages come back and no byte is left if and only if no body is empty |
| Reader.PrefixOfStream | Source/include/Connection.hpp:29-77 | on any prefix of the stream exactly the messages with complete frames are handed over |
| Writer.WriterOrder | Source/include/Connection.hpp:79-149 | over any run, late completions included, messages are popped in the order they were pushed; without empty bodies the flag is up exactly while a write is outstanding |
| Writer.SendMessageStarts | Source/include/Connection.hpp:198-210 | a message given to an open connection without a write starts one, older messages first |
| Writer.WriterDrains | Source/include/Connection.hpp:98-149 | from an open connection with a write outstanding, transmissions and completions alone send all that is queued and lower the flag |
| Writer.EveryRunDrains | Source/include/Connection.hpp:98-149 | however they are cut, there are only so many of them, and none is possible any more exactly when all is sent |
| Writer.InvStep | Source/include/Connection.hpp:79-149 | a step keeps the log, the streams of all sockets and the flag in agreement if and only if it is not the late completion of a header on a replaced socket that goes on to the body |
| Writer.FramedRunIff | Source/include/Connection.hpp:79-149 | the same throughout whole runs |
| Writer.DrainedNeverTears | Source/include/Connection.hpp:232-235 | replacing sockets only after their last completion is enough for that |
| Writer.LateCompletionTears | Source/include/Connection.hpp:98-131 | a run from the start in which the stream of a new socket begins with a body |
| Writer.WriterDelivery | Source/include/Connection.hpp:79-149 | over any run without that, the frames carried are those of the popped messages, and perhaps the front, in push order; every socket carries whole frames of its own messages and then at most a proper part of the next |
| Writer.LatchesIff | Source/include/Connection.hpp:110-121 | the flag stays up without a write exactly behind a last message with an empty body |
| Writer.LatchedForever | Source/include/Connection.hpp:198-210 | from then on nothing is written or popped |
| Writer.EmptyBodyLatches | Source/include/Connection.hpp:113-121 | a run from the start that raises the flag for good |
| Delivery.ReceivedPrefix | Source/include/Connection.hpp:29-77 | losing the end of a stream only loses messages at the end |
| Delivery.DeliveryAcrossReconnects | Source/include/Connection.hpp:198-235 | if all bytes the sockets took arrive, a peer reading every socket gets a prefix of the messages sent, each once and in order, and all that were popped |
| Delivery.DeliveryDespiteLoss | Source/include/Connection.hpp:29-149 | whatever end of each stream is lost, the peer gets messages that were sent, in order and none twice |
| TcpConnections.TcpConnection.SendMessage | Source/include/Connection.hpp:198-210 | queues the message and starts writing only on an open socket with no write outstanding |
| TcpConnections.TcpConnection.PostWriteMessageHeader | Source/include/Connection.hpp:98-123 | goes on to the body; pops an empty one and goes on to the next header if there is one; on an error closes and lowers the flag |
| TcpConnections.TcpConnection.PostWriteMessageBody | Source/include/Connection.hpp:133-149 | pops and writes the next header, or lowers the flag behind the last message; on an error closes and lowers it |
| TcpConnections.TcpConnection.MakeNewSocket | Source/include/Connection.hpp:232-235 | a fresh socket, at any time, keeps the queue and the flag; a write that has not completed becomes a late one |
| TcpConnections.TcpConnection.PostReadMessageHeader | Source/include/Connection.hpp:36-52 | carries out the reader's step; on an error the socket is closed and reading stops |
| TcpConnections.TcpConnection.PostReadMessageBody | Source/include/Connection.hpp:63-77 | hands over the message just read and reads the next header |
| Session.ConnectsIff | Source/src/ModuleResponseConnectHandler.cpp:8-51 | while not connected a response connects exactly if it says Success and brings a code, which is then the session's; otherwise NotConnected |
| Session.ConnectionChanges | Source/src/ModuleConnection.cpp:53-61 | a disconnect ends Connected only, a shutdown works from anywhere, nothing else changes the state |
| Session.PingCycle | Source/src/ModuleResponsePingHandler.cpp:11-23 | from a connected session with its timer running: one ping with the session's code, and the timer runs again exactly if the answer carries it |
| Session.CodeStep | Source/src/ModuleResponseConnectHandler.cpp:8-51 | the sequence code changes only on an entry to Connected |
| Session.SessionInvariant | Source/src/ModuleConnection.cpp:41-61 | while connected the code is that of the last entry; every ping sent while connected carried it; an answer arms the timer again exactly if it carries it |
| Session.PingTokenConservation | Source/src/ModuleResponsePingHandler.cpp:11-23 | every arming causes one ping; after one initial arming at most one timer, ping or answer is under way |
| WatchdogConnections.ModuleWatchdogConnection.HandleConnectResponse | Source/src/ModuleResponseConnectHandler.cpp:8-51 | carries out the session's step, ignoring a response while connected |
| WatchdogConnections.ModuleWatchdogConnection.HandlePingResponse | Source/src/ModuleResponsePingHandler.cpp:11-23 | arms the timer on a matching code and drops any other answer |
| WatchdogConnections.ModuleWatchdogConnection.SetTimerExpiration | Source/include/Connection.hpp:227-230 | arms the timer; a wait still running becomes a handler to run |
| WatchdogConnections.ModuleWatchdogConnection.OnTimerExpiration | Source/src/ModuleConnection.cpp:51 | sends one ping with the current code |
| WatchdogConnections.ModuleWatchdogConnection.Disconnect | Source/src/ModuleConnection.cpp:53-61 | leaves Connected for NotConnected and no other state |
| EventsCaches.EventsCache.AddEvent | Source/src/ModuleEventsCache.cpp:5-7 | the multimap after the registration is that of the longer log |
| EventsCaches.EventsCache.RunRequestsHandlers | Source/src/ModuleEventsCache.cpp:9-19 | runs what filtering the registration log gives: the events at exactly the positions of registrations under the sender that accept the request, each once, in order |
| EventsCaches.BuiltDispatches | Source/src/ModuleEventsCache.cpp:5-19 | for any history the multimap holds the validating handlers of a sender once each, in registration order |
| EventsCaches.DispatchRunsExactly | Source/src/ModuleEventsCache.cpp:9-19 | every handler dispatched is registered under the sender and accepts the request, and every such registration is there once, in order |

## Left out

- TimersCaches.TimersCache.GenerateTimerID: asks for fewer than 2^32 timers, because with every 32-bit ID in use the loops of the source do not end.
- TimersCaches.TimersCache.TriggerExpiredTimers: hands back which callbacks ran instead of running code; what a resend callback does is `ServerProtocol.Fire`, and a callback does not throw.
- Timers.Timer.RunCallbackFunction: hands the callback back instead of running it, so the running status in between shows only in `Servers.Server.FireTimer` and `CacheLock`.
- TimersCaches.TimersCache.LeaveWait: the wait itself, with its condition and its timeout, is a step of the scheduler machine.
- TimersThreads.RunPasses: nobody else acts between the three passes; with others in between see `Scheduler.WaitingOutsidePasses` and the scheduler machine.
- TimerPass.PassLeavesWaiting: the same; `Scheduler.WaitingOutsidePasses` is the interleaved statement.
- Wakeup.NoLostWakeup: excludes runs with an undercutting restart, for which it is false, see `Wakeup.FutureStartLosesWakeup`.
- Servers.Server.ResendCallback: registers the new timer as if without the lock; `CacheLock` has the lock.
- Servers.Server.FireTimer: the same.
- CacheLock.AlwaysEndsIff: a callback of another user either calls back into the cache or does not; one that submits a request to this server is not modelled. Lookups find the same endpoints throughout a pass.
- ServerQuiescence.EveryTimerTracked: assumes that a submitted code differs from those pending; `generateTransactionCode` does not ensure it, since the list it checks is never filled. `ServerQuiescence.TrackedRunIff` assumes nothing.
- Writer.WriterDelivery: excludes runs in which a late completion tears a frame, for which it is false, see `Writer.LateCompletionTears`.
- Delivery.DeliveryAcrossReconnects: assumes that every byte a broken socket took reaches the peer; `Delivery.DeliveryDespiteLoss` does without.
- TcpConnections.TcpConnection.PostWriteMessageHeader: a completion without an error that reports fewer than 8 bytes, which no completing write gives.
- TcpConnections.TcpConnection.PostReadMessageHeader: a completion without an error that reports fewer than 8 bytes, which no completing read gives.
- WatchdogConnections.ModuleWatchdogConnection.Disconnect: closing the socket, which is `TcpConnections.TcpConnection.Disconnect`.
- Race between the push and the size check of `sendRequest`, and between registering a timer and indexing it.
- Other users of the cache removing or restarting timer IDs they do not own.
- The `active` flag of a timer, which no pass reads, and `maxMessageResends`, which nothing reads.
- `blockingWriteMessageHeader`, which nothing calls.
- Reconnection as a liveness property of `WatchdogConnectionWatcher`; it only supplies steps here.
- `ResponseReconnectHandler`, which parses and does nothing more.
- MongoDB, sockets, protobuf encoding, configuration, logging, singletons and start-up.
