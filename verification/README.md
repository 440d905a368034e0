# Blybot: a verified model of its services

Blybot sits in group chats and DMs, archives what groups consented to, runs scheduled analyses over
the archive, relays messages between platforms and transcribes DM sessions to a wiki. This project
models the parts whose correctness depends on whole histories: the consent protocol, the relay
queue, the schedulers and their watermarks, the rate limiters, the splitters and codecs, channel
operators, DM sessions and their transcription. It proves what each promises over every run.

`dafny verify dfyconfig.toml` checks the whole project.

## How it is built

One module per component. Three forms recur.

- **Objects.** A class holds the source's fields and updates them in place, one method per stretch of
  code between two awaits. Its contract equates the new fields with a step function of the old ones
  (`Forgotten`, `Shed`, `Turn`, `Popped`, ...). `SlidingWindowLimiter` and `ChannelOps` instead carry
  a ghost history, and their contracts answer from that history.
- **Runs.** `State` is everything another task could observe, an `Action` is one step of one task (or
  a failure of the store it awaits), and `Run` folds any sequence of actions. A statement over all
  sequences is a statement over every interleaving, crash and failed write.
- **Codecs and splitters.** Printers, parsers and splitters are functions, methods with loops where
  the source has loops, and the theorems say that one undoes the other, or exactly when it does.

| file | what it holds |
|---|---|
| `Capture.dfy`, `CaptureTombstones.dfy`, `CaptureConsent.dfy`, `CaptureServing.dfy` | consent: TTL cache, channel epochs, tombstones, transition lock |
| `RelayQueue.dfy` | the bounded FIFO between submitters and one drain worker |
| `Models.dfy`, `Scheduler.dfy`, `Subscriptions.dfy`, `Watermarks.dfy`, `Rotation.dfy` | slots, stamp-then-run, digest windows, fair truncation |
| `PollCursors.dfy` | paging, watermarks and cursor persistence of repository polling |
| `IrcPacing.dfy`, `Limiter.dfy` | the token bucket and the sliding window |
| `Greedy.dfy`, `Transcript.dfy`, `IrcProtocol.dfy` | one greedy splitter, used for transcripts and for IRC lines; printing and parsing lines |
| `Sanitizer.dfy`, `ScheduleGrammar.dfy`, `Actions.dfy` | wikitext neutralizing, the schedule and action grammar, the stored form |
| `ChannelOps.dfy`, `Sessions.dfy`, `Transcribe.dfy` | channel operators, DM sessions, DM transcription |

## Main results

- **Revocation.** After a durable disable and its cache invalidation, no later message of the disabled scope,
  nor of any topic that inherits from it, reaches the archive until somebody enables (`DurableRevocation`). A tombstone, set in any
  reachable state with no enable under way, revokes under every interleaving without one exactly when nothing stored lets the scope through, or its own
  yes does and no stale disable is about to lift the tombstone (`TombstoneExact`, read out for groups and for topics).
- **Consent is served.** While a yes stands, the scope's own or its group's, every message that may pass and whose reads
  do not fail is archived exactly once, from the store or from the cache, under every interleaving, within four awaits of
  its own (`EveryMessageIsServed`, `MessageIsArchived`). A completed enable is such a yes (`ConsentIsServed`); what a read
  found answers for a TTL from its beginning, unless an invalidation landed (`DecisionIsServedForATtl`).
- **Relay.** At every ceiling and degraded depth: every message put is in exactly one place, sends keep put order,
  `task_done` never underflows, transitions alternate and are true when made, and spans and overflows are spaced
  (`EveryRun`). A degraded queue always has a message pending or in flight exactly when the ceiling is at least two
  (`BackedExactly`). From every reachable state with a live worker, sends that succeed hand out exactly what is pending, in
  order, and end idle and caught up; a send that raised ends the worker for good (`Drains`, `DeadHandsNothing`). The
  backlog is bounded, and the bound is attained (`DepthBound`, `DepthAttained`).
- **Pacing.** `PacingBound`: `burst + T / min_interval` grants in any window of length T, one more on the wire; a fresh
  connection attains it (`BoundIsAttained`). A batch that holds the lock goes out whole unless it is cut short
  (`BatchGoesOut`, `OnlyCutsBreak`).
- **Limiting.** `Allow` answers what a naive count over the whole history answers, and no window is ever
  over the limit.
- **Schedules.** The latest slot is the greatest one not after now. Await by await, with failed writes and crashes
  anywhere: no slot of an action runs twice, the store carries the stamp of a run or digest before it starts, and an
  uncapped tick, once persisted, has caught up. An undisturbed tick starts exactly the runs it picked, in order, and an
  uncapped one serves an action exactly when its time has come (`TickRunsPicked`, `TickServesWhoseTimeHasCome`).
- **Windows.** Over every such history digest windows are disjoint, and they tile the archive from the first stamp to
  the last exactly when every stamp that landed started its run and none came over 30 days after the one before
  (`RunsTileExactly`, `DigestsTileExactly`).
- **Polling.** Over any history of sweeps, each over any resources of which any may fail, and of failed cursor writes:
  no event is delivered by two polls, and each resource's events come in time order. A transition listed once is
  delivered once, in the first round that has a cursor for its resource, lists it and moves the cursor, precisely when
  it is newer than that cursor and the write is reported done.
- **Splitting.** One stays-ahead lemma: greedy pieces lose nothing, fit, and are the fewest possible.
- **Round trips.** IRC lines, sanitized discussion lines, schedule tokens and stored actions, each with the
  exact condition under which they read back.
- **Operators.** `is_op` is what the last event about that channel and nick said: a plus grants, a minus revokes, and a
  letter that is not an operator's changes nobody (`SignDecides`, `OneLetterLine`, `VoiceChangesNobody`).
- **Sessions and transcription.** Anchors stay apart exactly when a draw allows it, sweeping changes no answer, and a
  session lives for a TTL from its last call (`LivesForATtl`). Every recorded line enters exactly one write or is still
  buffered, in order, one deeper each time; a conversation continues its section once it is there
  (`LandedSectionIsContinued`).

## Where the code and its own description differ

The model follows the code.

- `capture.py` says a denied scope is never archived. A no that landed, but whose task had not yet resumed when an
  enable overwrote it, lifts a tombstone set in between (`StaleLiftIsReachable`, `StaleDemotion`, `RelapseArchives`).
  The tombstone of a topic that inherits its group's yes is lifted by the first retry (`TopicTombstoneExact`,
  `TopicTombstoneLapses`).
- `relay_queue.py` bounds its depth by the ceiling only up to overlapping submits; `DepthBound` and `DepthAttained` give
  the exact slack. With a ceiling of zero or one, shedding can leave a degraded queue with nothing pending or in flight;
  what it recovers from is then still in the hands of submits suspended in their notices (`LowCeilingEmptiesDegraded`).
- Transition times have the grain of a second: an event in the same second as the cursor, listed one poll
  later, is never delivered (`SameSecondIsLost`).
- `privmsg_lines` prints targets that begin with a colon, which `parse_line` reads as the trailing part
  (`ColonTargetMisread`).
- `since_last_run` is described as exactly-once over the archive. A gap of more than 30 days is clamped, and a stamp
  that landed without its run (a write reported as failed, a crash) moves the window on: the slice after the earlier
  stamp is then read by no run (`LostSliceIsUncovered`, `LostStampLosesSlice`).

## Assumptions

They are `requires` clauses, or hold by the shape of the actions.

- Clocks do not run backwards, and a sleep returns no earlier than asked.
- `limit >= 1`; `burst >= 1` and `min_interval > 0`; IRC targets leave four bytes of budget.
- `record` calls for one DM scope do not overlap (`OverlapLosesLine` says why).
- No other profile edit races with the capture field, and the actions of a scope are not edited during its tick.
- A poll's resources are distinct, its pages show one snapshot of the stream, the repository binding does not change,
  and no item reports a transition after its own `updated_at`.
- The store may fail at any await, and a write that is reported as failed may have landed; one reported as done has landed.
- `casefold`, the jitter hash, the pseudonym draws and the parameter value checks are arbitrary functions or
  parameters; instants are integers (microseconds; reals for the token bucket); JSON is a value, not text.

## Model

| member | source | states |
|---|---|---|
| Capture.CaptureService.ForgetScope | src/blybot/services/capture.py:89-101 | the channel's epoch advances, and exactly the scope's entry goes, or for a group every entry of its channel |
| Capture.CaptureService.DenyScope | src/blybot/services/capture.py:103-112 | the scope joins the tombstones and is forgotten, nothing else |
| Capture.CaptureService.LiftDenial | src/blybot/services/capture.py:114-117 | the tombstone goes and the scope is forgotten, nothing else |
| Capture.CaptureService.Arrive | src/blybot/services/capture.py:67-87 | a message is stopped exactly by a tombstone; otherwise an entry before its time is up answers with its decision, and without one the store is read |
| Capture.CaptureService.Conclude | src/blybot/services/capture.py:186-210 | only an explicit yes enables, and the decision is cached only when no invalidation landed since its read began |
| CaptureServing.RememberedAnswers | src/blybot/services/capture.py:186-210 | a decision remembered at its own epoch is what every later message of the undenied scope gets until it expires; then the store is read again |
| CaptureServing.ForgottenIsNotAnswered | src/blybot/services/capture.py:186-210 | a decision whose scope or group was invalidated during its read is not remembered |
| CaptureServing.MissReadsFromNow | src/blybot/services/capture.py:186-193 | without tombstone or live entry a message starts a read that dates from now |
| CaptureServing.DecisionIsServedForATtl | src/blybot/services/capture.py:186-210 | what a concluded read found answers for a TTL from the moment the read began, yes or no, and not after |
| Capture.InvRun | src/blybot/services/capture.py:134-210 | over every run the lock is held exactly by the one task inside its critical section, and no reader's epoch is ahead of its channel's |
| Capture.SafeRun | src/blybot/services/capture.py:67-210 | once revoked, nothing later is archived and no stale yes is cached, under any actions but an enable of the scope or its group |
| Capture.ShutRun | src/blybot/services/capture.py:168-184 | while nobody enables, a scope that its own no or the lack of any yes shuts stays shut, whatever retries are under way |
| Capture.DurableRevocation | src/blybot/services/commands.py:395-424 | a landed disable and its caller's invalidation stop every later message of the scope it names, and of any topic of that group without a yes of its own, with any interleaving before and after that starts no enable |
| CaptureServing.FailureFailsClosed | src/blybot/services/commands.py:409-418 | a store that fails archives, caches and lifts nothing and frees the lock; a disable it fails, landed or not, leaves its scope tombstoned |
| CaptureServing.StoppedMessageRetries | src/blybot/services/capture.py:67-76 | a message that a tombstone stops queues a retry for its scope and changes nothing else |
| CaptureServing.RetryConverges | src/blybot/services/capture.py:168-184 | an undisturbed retry ends with a durable yes made a no, anything else left as stored, the tombstone lifted and the lock free |
| CaptureTombstones.TombstoneExact | src/blybot/services/capture.py:103-112 | from every reachable state and for every scope, with no enable under way or to come, a tombstone revokes under all interleavings if and only if nothing stored lets the scope through, or its own yes does and no stale disable is about to lift it |
| CaptureTombstones.GroupTombstoneExact | src/blybot/services/capture.py:103-112 | for a group: if and only if it is not durably on, or no stale disable is about to lift it |
| CaptureTombstones.TopicTombstoneExact | src/blybot/services/capture.py:134-184 | for a topic: if and only if its own decision is a no, or a yes without a stale lift, or it has none and its group is not on |
| CaptureTombstones.TombstoneFails | src/blybot/services/capture.py:134-184 | otherwise an interleaving exists that archives a later message, even when the lock is held and others queue for it first |
| CaptureTombstones.StaleLiftIsReachable | src/blybot/services/capture.py:168-184 | for every scope a state with a stale lift over a durable yes is reached: a retry's no lands, `/capture on` overwrites it, the retry has yet to resume |
| CaptureTombstones.StaleDemotion | src/blybot/adapters/telegram/capture.py:131-144 | and for a channel: a demotion's no lands, a promotion's enable completes, the demotion has yet to lift |
| CaptureTombstones.RelapseArchives | src/blybot/services/capture.py:168-184 | the run that a stale lift allows: it ends with a message archived after the tombstone |
| CaptureTombstones.TopicTombstoneLapses | src/blybot/services/capture.py:168-184 | the shortest case: a topic of a group that is on, denied from the start, does not stay revoked |
| CaptureConsent.EnableStands | src/blybot/services/capture.py:119-132 | after enable_scope completes the scope stays durably on and undenied, whatever retries were pending or suspended, until a later deny or disable |
| CaptureConsent.FailedEnableKeepsTombstones | src/blybot/services/capture.py:119-132 | from the moment an enable takes the lock to its failure, landed or not, no interleaving without an explicit disable lifts its scope's tombstone |
| CaptureServing.ServingRun | src/blybot/services/capture.py:67-210 | a yes in force (stored, undenied, no stale no cached or being read) stays in force under any actions that neither deny nor switch off a scope it rests on |
| CaptureServing.EveryMessageIsServed | src/blybot/services/capture.py:67-87 | while a yes is in force, over every interleaving, a message that may pass and whose reads do not fail has been archived exactly once when it is done, and not before |
| CaptureServing.MessageIsArchived | src/blybot/services/capture.py:67-87 | and it is done after four awaits of its own at most, whatever the cache held |
| CaptureServing.EnabledIsServed | src/blybot/services/capture.py:119-132 | a completed enable_scope puts the yes in force |
| CaptureServing.SwitchedOnIsServed | src/blybot/services/commands.py:395-424 | so does a completed `/capture on` of an undenied scope, also for the topics that inherit from it |
| CaptureServing.ConsentIsServed | src/blybot/services/capture.py:67-132 | from the landing of an enable's write on: whatever interleaves short of a deny or a disable, a message that may pass is archived exactly once |
| RelayQueue.RelayQueue.Arrive | src/blybot/services/relay_queue.py:79-83 | the audience grows by the listeners, and the overflow check answers whether the ceiling is reached |
| RelayQueue.RelayQueue.Overflow | src/blybot/services/relay_queue.py:111-125 | sheds the oldest messages down to half the ceiling, one task_done each, and counts them |
| RelayQueue.RelayQueue.Enqueue | src/blybot/services/relay_queue.py:84-88 | the message goes last, and falling behind is announced exactly at the change |
| RelayQueue.RelayQueue.Dequeue | src/blybot/services/relay_queue.py:94-97 | takes the oldest message and leaves its task unfinished |
| RelayQueue.RelayQueue.Complete | src/blybot/services/relay_queue.py:98-109 | finishes one task, and catching up is announced exactly when the degraded queue is empty |
| RelayQueue.ConservedRun | src/blybot/services/relay_queue.py:79-125 | each message put is sent, in flight, shed or pending, exactly one of them; the removed ones are a prefix of the puts; unfinished tasks are pending plus in flight |
| RelayQueue.SurvivorsInOrder | src/blybot/services/relay_queue.py:94-102 | messages handed to send come from strictly increasing places of the put order |
| RelayQueue.EveryHandedSurvives | src/blybot/services/relay_queue.py:94-102 | every place handed over is among them |
| RelayQueue.HonestRun | src/blybot/services/relay_queue.py:84-125 | at every ceiling: transitions strictly alternate and were true, a degraded span holds at least degraded_depth removals, two overflows are at least ceiling minus half the ceiling puts apart, and a degraded queue has work pending, in flight or in a suspended submit |
| RelayQueue.EveryRun | src/blybot/services/relay_queue.py:79-125 | both hold in every state reachable from the empty queue, at every ceiling and depth |
| RelayQueue.Drains | src/blybot/services/relay_queue.py:94-109 | from every reachable state whose worker has not stopped, a sequence of its own steps with sends that succeed hands out exactly the pending messages in order, and ends idle with nothing unfinished and not degraded |
| RelayQueue.AnnouncedRun | src/blybot/services/relay_queue.py:84-88 | in every run a queue that is not degraded is empty or holds fewer messages than degraded_depth: no backlog goes unannounced |
| RelayQueue.SubmitSuspends | src/blybot/services/relay_queue.py:79-88 | a submit is suspended exactly when it makes a notice that has an audience: before its put at the ceiling, after it when it falls behind |
| RelayQueue.RecoveryIsAwaited | src/blybot/services/relay_queue.py:98-109 | the worker itself announces catching up: it hands out nothing until a notice with an audience is out, and goes on or ends as the send before it did |
| RelayQueue.RaisedIsDead | src/blybot/services/relay_queue.py:94-102 | a send that raises ends the worker |
| RelayQueue.DeadHandsNothing | src/blybot/services/relay_queue.py:94-102 | and no later step of any kind hands out anything |
| RelayQueue.AliveUntilRaised | src/blybot/services/relay_queue.py:94-102 | nothing but a send that raises ends it |
| RelayQueue.LowCeilingEmptiesDegraded | src/blybot/services/relay_queue.py:111-130 | with a ceiling of zero or one, at any degraded depth, some run whose notices all have an audience leaves the queue degraded with nothing pending or in flight, only suspended submits |
| RelayQueue.BackedExactly | src/blybot/services/relay_queue.py:79-130 | in every run a degraded queue has a message pending or in flight if and only if the ceiling is at least two |
| RelayQueue.DepthBound | src/blybot/services/relay_queue.py:79-88 | with at most k overlapping submits, s of them in an overflow notice, at most ceiling + k - 1 - s messages wait (a ceiling of zero counts as one) |
| RelayQueue.DepthAttained | src/blybot/services/relay_queue.py:79-88 | for every ceiling and k some run whose notices have an audience reaches that bound |
| IrcPacing.IrcConnection.AwaitTurn | src/blybot/adapters/irc/connection.py:87-101 | the wait and the new bucket are those of the turn, in both branches |
| IrcPacing.TurnTakesFirstToken | src/blybot/adapters/irc/connection.py:87-101 | a turn ends at the first moment the capped bucket holds a whole token and takes just that token; the level stays between 0 and burst |
| IrcPacing.BatchesStayWhole | src/blybot/adapters/irc/connection.py:69-85 | batches reach the wire one after the other, each once, each an unbroken prefix of its lines |
| IrcPacing.OnlyCutsBreak | src/blybot/adapters/irc/connection.py:69-85 | only a failed write or a cancellation cuts a batch short, and it gives up the lock |
| IrcPacing.UncutBatchesAreWhole | src/blybot/adapters/irc/connection.py:69-85 | in a run without those, every batch that took the lock is on the wire to its last line, but for the open one |
| IrcPacing.BatchGoesOut | src/blybot/adapters/irc/connection.py:69-85 | from any state of a run, the batch that holds the lock can put all its remaining lines on the wire, in order with nothing in between, and then lets the lock go |
| IrcPacing.SubmittedBatchGoesOut | src/blybot/adapters/irc/connection.py:69-101 | in every run a batch submitted while the lock is free can take it and go out in full, after everything written before, and leaves the lock free |
| IrcPacing.PacedRun | src/blybot/adapters/irc/connection.py:69-101 | every line on the wire was granted by the bucket left by the line before it and written no earlier than its grant |
| IrcPacing.Ledger | src/blybot/adapters/irc/connection.py:87-101 | between two grants the bucket gained at most what the time allows and paid one token a line |
| IrcPacing.GrantBound | src/blybot/adapters/irc/connection.py:87-101 | grants i to j number at most burst plus elapsed time over min_interval |
| IrcPacing.WriteWindow | src/blybot/adapters/irc/connection.py:69-85 | a written line precedes the next grant, and a grant its own writing |
| IrcPacing.PacingBound | src/blybot/adapters/irc/connection.py:69-101 | any window of length T holds at most burst + T/min_interval grants and at most one more written line, over every run |
| IrcPacing.BoundIsAttained | src/blybot/adapters/irc/connection.py:60-62 | a fresh connection grants burst lines at once and then one every min_interval, which attains the bound |
| Limiter.SlidingWindowLimiter.DeleteStale | src/blybot/services/policy.py:71-84 | exactly the keys whose last event is at or before the cutoff go |
| Limiter.SlidingWindowLimiter.EvictExpired | src/blybot/services/policy.py:71-84 | nothing happens before the next eviction is due; then expired keys go, and the limiter still answers from its whole history |
| Limiter.SlidingWindowLimiter.Prune | src/blybot/services/policy.py:58-69 | the key's deque loses its expired head, other keys nothing |
| Limiter.SlidingWindowLimiter.Count | src/blybot/services/policy.py:58-69 | the key's deque loses its expired head and takes the event exactly when fewer than limit are left; other keys keep theirs |
| Limiter.SlidingWindowLimiter.Allow | src/blybot/services/policy.py:58-69 | allows if and only if fewer than limit allowed events of this key, over the whole history, lie in (now - window, now]; no stored deque is left empty |
| Limiter.NeverOverLimit | src/blybot/services/policy.py:58-69 | no interval of the window's length, wherever it ends, holds more than limit allowed events of a key |
| Limiter.PrunedCounts | src/blybot/services/policy.py:58-69 | the length of a pruned deque is the naive count |
| Limiter.EvictionAgrees | src/blybot/services/policy.py:71-84 | amortised eviction changes no later answer |
| Limiter.KeptExactly | src/blybot/services/policy.py:71-84 | an eviction keeps exactly the keys with an event that still counts, and their deques whole |
| Models.LatestSlotIsGreatest | src/blybot/domain/models.py:490-495 | the latest slot is a slot, not after now, and every slot not after now is at or before it |
| Models.DueExactlyWhenASlotPassed | src/blybot/domain/models.py:478-488 | a daily or weekly run is due if and only if some slot lies after the last run and not after now |
| Models.SlotMeans | src/blybot/domain/models.py:490-495 | a slot is a moment with the schedule's hour and minute, no seconds, and for a weekly one its weekday |
| Models.DueIsLater | src/blybot/domain/models.py:478-488 | whatever is due has its last run strictly in the past |
| Scheduler.ActionScheduler.Select | src/blybot/services/schedule.py:77-81 | a list over the cap is served as a rotating window, which the next tick continues |
| Scheduler.ActionScheduler.Decide | src/blybot/services/schedule.py:102-116 | an action runs if and only if it is owed and the cap has room, and is stamped if and only if it runs or is seen for the first time |
| Scheduler.ActionScheduler.Plan | src/blybot/services/schedule.py:96-125 | exactly the first-seen and the picked actions are stamped with now, and the picked ones run with their old stamps, in order |
| Scheduler.PickedCount | src/blybot/services/schedule.py:110-116 | as many run as are owed, or the per-scope cap if that is less |
| Scheduler.PickedInOrder | src/blybot/services/schedule.py:102-116 | they run in document order |
| Scheduler.TickRunsPicked | src/blybot/services/schedule.py:96-132 | an undisturbed tick appends one span, from the old stamp to now, for each picked action, and nothing else |
| Scheduler.OwedMeans | src/blybot/services/schedule.py:102-116 | an action is owed exactly when, at the jittered moment, a slot has passed since its stamp, or for `every` the whole interval |
| Scheduler.TickServesWhoseTimeHasCome | src/blybot/services/schedule.py:96-132 | in any history, an undisturbed tick below the cap runs an action, once and from its old stamp, exactly when its time has come, and stamps just those and the first seen |
| Scheduler.AbandonedTickRunsNothing | src/blybot/services/schedule.py:117-125 | a tick whose write is reported as failed, landed or not, or that is stopped, starts no further run |
| Scheduler.OneTickAtATime | src/blybot/services/schedule.py:84-96 | until a tick of a scope has ended no other begins, and each begins with the stored document |
| Scheduler.JitterIsSeconds | src/blybot/services/schedule.py:134-148 | an offset is a whole number of seconds below the window, and none for `every` or without a window |
| Scheduler.JitterSpreads | src/blybot/services/schedule.py:134-148 | two actions are moved alike exactly when their hashes agree in the window |
| Scheduler.InvRun | src/blybot/services/schedule.py:96-132 | over every sequence of loads, plans, landings, returns, raises, run starts and crashes: runs were owed, each has its stamp, their windows form a chain up to the stored stamp, and due runs not yet started have theirs stored |
| Scheduler.AtMostOncePerSlot | src/blybot/services/schedule.py:96-132 | of two runs of one action the later serves a later slot, or comes an interval later, the stored stamp covers both, and their windows share no message |
| Scheduler.StampPrecedesRun | src/blybot/services/schedule.py:117-125 | at any step that starts a run, in any history, the stored document already carries its stamp, it starts for the first time, and it is handed the stamp that landed just before |
| Scheduler.RunsTileExactly | src/blybot/services/schedule.py:96-132 | over every history one action's windows tile the archive from its first stamp to its last if and only if every later stamp that landed started its run and no gap exceeds 30 days |
| Scheduler.NothingToWrite | src/blybot/services/schedule.py:117-122 | when no stamp changes the document, so that the write is skipped, nothing is due either |
| Scheduler.PersistedTickCatchesUp | src/blybot/services/schedule.py:96-125 | in any history, once a tick that no cap cut has its stamps stored, each stamp is at or past the latest slot of the jittered moment |
| Rotation.ServedIsArc | src/blybot/services/schedule.py:79-81 | a truncated tick serves exactly the cap places from the offset on, around the end |
| Rotation.RotationIsFair | src/blybot/services/schedule.py:77-81 | after any number of ticks two scopes of a fixed list were served equally often, give or take one |
| Rotation.ServicesCountLaps | src/blybot/services/notify.py:172-176 | a place is served once a lap, and the first and last laps count as far as they reach it |
| Rotation.EveryoneIsServed | src/blybot/services/notify.py:172-176 | once ticks times cap reaches the list's length, every scope has been served |
| Rotation.ServedInEveryStretch | src/blybot/services/schedule.py:77-81 | every scope is selected within any ceil(n/cap) consecutive ticks |
| Watermarks.WindowsDisjoint | src/blybot/services/analyze.py:113-123 | a message falls in the window of at most one run |
| Watermarks.WindowIsRecent | src/blybot/services/analyze.py:113-123 | a run reads what came since the stamp it was handed, before its own, and in the last thirty days |
| Watermarks.WindowsTileExactly | src/blybot/services/analyze.py:113-123 | for any recorded stamps and runs, lost ones included, the windows tile [first stamp, last stamp) if and only if every later stamp started its run and no gap exceeds 30 days |
| Watermarks.LostSliceIsUncovered | src/blybot/services/analyze.py:113-123 | the instant of a stamp whose next one lost its run, or came over 30 days later, is read by no run |
| Subscriptions.Subscription.Stamp | src/blybot/services/subscriptions.py:242-255 | the watermark becomes now unless the write failed without landing |
| Subscriptions.Subscription.Digest | src/blybot/services/subscriptions.py:252-255 | a digest can start only once its stamp is the stored watermark |
| Subscriptions.Subscription.Serve | src/blybot/services/subscriptions.py:242-255 | first sight only stamps; a due row's digest reads from the old stamp; a revoked scope is left unstamped |
| Subscriptions.DueDigestIsSent | src/blybot/services/subscriptions.py:242-255 | an undisturbed tick of a scope that stands sends one digest, from the old stamp to now, exactly when the row is stamped and its time has come; a first sight only stamps |
| Subscriptions.RevokedIsLeftAlone | src/blybot/services/subscriptions.py:242-255 | a stamped row of a scope that no longer allows subscriptions, or cannot be read, keeps its stamp and sends nothing |
| Subscriptions.AbandonedTickSendsNothing | src/blybot/services/subscriptions.py:242-255 | a tick whose stamp is reported as failed, landed or not, or that is stopped, stamps and sends nothing more |
| Subscriptions.OneTickAtATime | src/blybot/services/subscriptions.py:225-255 | until a tick has ended no other begins, and each begins with the stored stamp |
| Subscriptions.TickIsSteps | src/blybot/services/subscriptions.py:242-255 | an undisturbed tick is its steps between awaits, one after the other |
| Subscriptions.StampPrecedesDigest | src/blybot/services/subscriptions.py:251-253 | in any history of steps, failures and crashes, a digest starts only when its stamp is stored, only once, and is handed the stamp that landed just before |
| Subscriptions.DigestsNeverOverlap | src/blybot/services/subscriptions.py:242-255 | over every history of failures a message enters at most one digest, and a slot sends at most one |
| Subscriptions.DigestsTileExactly | src/blybot/services/subscriptions.py:176-190 | over every history the digests tile the archive from the first stamp to the last if and only if every later stamp that landed started its digest and no gap exceeds 30 days |
| Subscriptions.LostStampLosesSlice | src/blybot/services/subscriptions.py:242-255 | an hourly digest whose stamp lands but is reported as failed: that hour is in no digest |
| PollCursors.Collect | src/blybot/adapters/github/gateway.py:222-235 | the loop returns the transitions past the watermark in listing order, and the maximum watermark |
| PollCursors.FiredExactly | src/blybot/adapters/github/gateway.py:222-235 | a transition fires if and only if a listed item reports it and it is newer than the watermark |
| PollCursors.FiredCount | src/blybot/adapters/github/gateway.py:222-235 | a transition fires exactly as often as it is listed when it is newer than the watermark, and never otherwise |
| PollCursors.FiredLiesBetween | src/blybot/adapters/github/gateway.py:222-235 | what fires lies past the old watermark and not past the new one |
| PollCursors.TimeOrderIsStableSort | src/blybot/adapters/github/gateway.py:131-132 | one poll's events are sorted by time, none lost or repeated, equal times in listing order |
| PollCursors.FetchPages | src/blybot/adapters/github/gateway.py:134-176 | what is read is a prefix of the stream: all of it, ten full pages, or up to the first page that has reached the watermark; saturated exactly at the cap, short of it |
| PollCursors.PastMeans | src/blybot/adapters/github/gateway.py:156-175 | a full page ends a poll early exactly when the stream is ordered by its own watermark, there is one, and the page's last item does not lie past it |
| PollCursors.EarlyStopLosesNothing | src/blybot/adapters/github/gateway.py:156-175 | on a descending stream, stopping early fires the same transitions and leaves the same watermark as reading up to the cap |
| PollCursors.PollResource | src/blybot/adapters/github/gateway.py:100-132 | a poll answers, in time order, as if the stream had been read up to the cap in one go; without a cursor it only baselines |
| PollCursors.Poll | src/blybot/services/notify.py:79-92 | nothing is delivered or stored when a fetch fails; cursors are written only when one changed; events, resource by resource and in time order, are delivered only when that write is reported done |
| PollCursors.RoundOne | src/blybot/services/notify.py:79-92 | one sweep does for a resource what its own reply says, in cursor and in number of events, when every fetch succeeds, and nothing otherwise |
| PollCursors.NeverRedelivered | src/blybot/services/notify.py:79-92 | over every history of failed fetches and cursor writes, what one poll delivers of a resource is strictly newer than all an earlier one delivered |
| PollCursors.DeliveredInTimeOrder | src/blybot/services/notify.py:79-92 | over every such history each resource's deliveries are in time order, within polls and across them |
| PollCursors.PollsFollowCursor | src/blybot/services/notify.py:79-92 | over any history of sweeps of any resources, a resource's stored cursor and the number of times each event is delivered are those of its own replies in the sweeps that get through, at its own running cursor |
| PollCursors.ExactlyOnceIff | src/blybot/services/notify.py:79-92 | over any such history a transition listed once is delivered exactly once, in the first round that has a cursor for its resource, lists it and moves the cursor, if it is newer than that cursor and the write is reported done, and otherwise zero times |
| PollCursors.NeverPassedNeverDelivered | src/blybot/services/notify.py:79-92 | over any such history a transition that no round passes (cursor in hand, listed, cursor moved) is delivered zero times in every round |
| PollCursors.CompleteListingsDeliverOnce | src/blybot/services/notify.py:79-92 | with complete listings of a resource, everything after its baseline is delivered exactly once, in the first round from its moment on that moves the cursor, if that write is reported done |
| PollCursors.SameSecondIsLost | src/blybot/adapters/github/gateway.py:222-235 | of any two transitions of one second, listed by two polls, the second is delivered zero times |
| Greedy.SplitIsCut | src/blybot/domain/prompts.py:149-163 | greedy pieces put together are the items, in order, none empty, each within budget or a single item |
| Greedy.GreedyStaysAhead | src/blybot/domain/prompts.py:149-163 | no cut within budget has fewer pieces, and one with as many leaves no more room |
| Transcript.ChunkLines | src/blybot/domain/prompts.py:149-163 | the loop's chunks are the greedy pieces, joined by newlines |
| Transcript.ChunksAreLosslessBoundedFewest | src/blybot/domain/prompts.py:149-163 | chunks join up to the transcript, each is under the limit or one whole message, and no grouping of whole messages needs fewer |
| IrcProtocol.SplitBytes | src/blybot/adapters/irc/protocol.py:99-114 | the loop's pieces are the greedy pieces by UTF-8 width, after an empty one when the first character is wider than the budget |
| IrcProtocol.PiecesFitExactly | src/blybot/adapters/irc/protocol.py:99-114 | every piece is non-empty and within budget if and only if no character is wider than the budget; four bytes always suffice |
| IrcProtocol.PiecesAreLosslessFewest | src/blybot/adapters/irc/protocol.py:99-114 | the pieces concatenate to the text, and no other cut within budget has fewer |
| IrcProtocol.WidthIsLeast | src/blybot/adapters/irc/protocol.py:99-114 | a character's width is the fewest UTF-8 bytes that carry its code point (section 3 of RFC 3629) |
| IrcProtocol.PrivmsgLines | src/blybot/adapters/irc/protocol.py:80-96 | the lines are the prefixed pieces of every paragraph, in order |
| IrcProtocol.ParagraphsAreLines | src/blybot/adapters/irc/protocol.py:94-95 | the paragraphs hold no newline, and joined by newlines they are the text |
| IrcProtocol.FewestLines | src/blybot/adapters/irc/protocol.py:80-96 | no way to say a paragraph in lines of at most 512 bytes with their CRLF takes fewer |
| IrcProtocol.ChunksLoseNothing | src/blybot/adapters/irc/protocol.py:80-96 | the chunks together are the paragraphs together, whatever the budget |
| IrcProtocol.LinesFit | src/blybot/adapters/irc/protocol.py:80-96 | every line with its CRLF is at most 512 bytes and carries text |
| IrcProtocol.ServerLineParses | src/blybot/adapters/irc/protocol.py:56-77 | a server line, with or without blank before it, a prefix and a trailing part, parses to prefix, command in capitals, every parameter in order, and the trailing part without the whitespace at its end |
| IrcProtocol.WhitespaceIs | src/blybot/adapters/irc/protocol.py:63-74 | what counts as whitespace, character by character |
| IrcProtocol.UpperMeans | src/blybot/adapters/irc/protocol.py:75-77 | capitals: every small ASCII letter becomes its capital and nothing else changes |
| IrcProtocol.PrintedLineParses | src/blybot/adapters/irc/protocol.py:56-77 | a printed line parses to PRIVMSG, its target and its chunk without trailing whitespace |
| IrcProtocol.ColonTargetMisread | src/blybot/adapters/irc/protocol.py:56-77 | a target that begins with a colon is lost in parsing |
| IrcProtocol.RoundTripExact | src/blybot/adapters/irc/protocol.py:56-96 | for a whitespace-free target, printing and parsing give target and chunk back if and only if the target is non-empty without a leading colon and the chunk does not end in whitespace |
| IrcProtocol.MessageReadsBack | src/blybot/adapters/irc/protocol.py:56-96 | every line of a whole message fits and reads back, under that condition on its chunk, and the chunks are the whole message |
| ChannelOps.ParseMode | src/blybot/adapters/irc/ops.py:125-143 | succeeds if and only if the sign-aware number of argument-taking flags is the number of arguments, and then returns the operator changes |
| ChannelOps.ChangesPairOwnArgument | src/blybot/adapters/irc/ops.py:125-143 | the k-th change is an operator flag with the argument at that flag's own index and its own sign |
| ChannelOps.EveryOpFlagChanges | src/blybot/adapters/irc/ops.py:125-143 | and every operator flag makes such a change, after those of the flags before it |
| ChannelOps.SignDecides | src/blybot/adapters/irc/ops.py:125-143 | in a sign-free word behind a sign, every operator letter grants if and only if that sign is a plus, with the argument that the letters before it leave |
| ChannelOps.UnsignedGrants | src/blybot/adapters/irc/ops.py:125-143 | before any sign every operator letter grants |
| ChannelOps.OneLetterLine | src/blybot/adapters/irc/ops.py:101-143 | a MODE line with one operator letter sets or clears exactly that nick in exactly that channel, as its sign says |
| ChannelOps.VoiceChangesNobody | src/blybot/adapters/irc/ops.py:101-143 | a line without an operator letter changes no operator |
| ChannelOps.StripPrefix | src/blybot/adapters/irc/ops.py:39-51 | a names entry splits into its nick and whether an operator prefix stood before it |
| ChannelOps.PrefixesComeOff | src/blybot/adapters/irc/ops.py:39-51 | any run of prefix signs before a nick comes off, and the nick is an operator exactly when one of them is an operator's |
| ChannelOps.AppliedHolds | src/blybot/adapters/irc/ops.py:101-123 | after a line's changes a nick is an operator as its last change says, or as before, and other channels are untouched |
| ChannelOps.LastWordExactly | src/blybot/adapters/irc/ops.py:65-67 | a nick is an operator of a channel if and only if some event granted it there and none since then took it away |
| ChannelOps.AfterEvent | src/blybot/adapters/irc/ops.py:65-99 | who is an operator after a grant, a revocation, a nick or channel forgotten, or a names list, from who was before |
| ChannelOps.ChannelOps.IsOp | src/blybot/adapters/irc/ops.py:65-67 | true if and only if the last event about this channel and nick granted it |
| ChannelOps.ChannelOps.Grant | src/blybot/adapters/irc/ops.py:69-71 | the history grows by a grant, and every answer follows the history |
| ChannelOps.ChannelOps.Revoke | src/blybot/adapters/irc/ops.py:73-75 | likewise by a revocation |
| ChannelOps.ChannelOps.Forget | src/blybot/adapters/irc/ops.py:77-85 | likewise by a nick forgotten in every channel |
| ChannelOps.ChannelOps.ForgetChannel | src/blybot/adapters/irc/ops.py:87-89 | likewise by a channel forgotten |
| ChannelOps.ChannelOps.Replace | src/blybot/adapters/irc/ops.py:91-99 | likewise by a names list, which decides every nick of its channel |
| ChannelOps.ChannelOps.ApplyMode | src/blybot/adapters/irc/ops.py:101-123 | likewise by a MODE line; one whose pairing is unsound changes nothing |
| Sanitizer.TwoPassesAreOne | src/blybot/domain/sanitizer.py:54-57 | translating and then encoding line starts is one pass over the original |
| Sanitizer.EntitiesAreHtml | src/blybot/domain/sanitizer.py:26-44 | every entity of the table is the character reference of its own character, by name or by its code point in decimal |
| Sanitizer.UnchangedExactly | src/blybot/domain/sanitizer.py:47-57 | a text comes out unchanged if and only if it holds no structure character or ampersand and no line starts with block markup |
| Sanitizer.SanitizeIsNeutralAndInvertible | src/blybot/domain/sanitizer.py:26-57 | an entity decoder recovers the text; no structure character survives and no line starts with block markup |
| Sanitizer.DiscussionLineInvertible | src/blybot/domain/rendering.py:18-31 | a message becomes one physical line with exactly depth colons, and splitting on the break tag and decoding gives it back |
| ScheduleGrammar.TokenParses | src/blybot/services/actions.py:72-94 | every schedule's token parses, to the schedule without what its kind ignores |
| ScheduleGrammar.TokenRoundTripExact | src/blybot/domain/models.py:469-476 | token then parse is the identity if and only if the schedule carries nothing its kind ignores |
| ScheduleGrammar.ParsedIsNormalForm | src/blybot/services/actions.py:72-94 | whatever parses can be constructed, and its own token reads back as the same schedule |
| ScheduleGrammar.ParsesExactly | src/blybot/services/actions.py:72-94 | a token parses to a schedule if and only if it spells it: `every:<digits>h` above zero, `daily@` or `weekly@<dow>.` with a time of one or two hour digits and two minute digits, and at most one final newline |
| ScheduleGrammar.RefusedBecause | src/blybot/services/actions.py:59-94 | which of the four errors a token that does not parse gets: no hours, no time of day, no weekday, or no schedule |
| Actions.ParseParams | src/blybot/services/actions.py:220-231 | the loop collects the parameters, the last of a key winning, and refuses at any unknown or invalid token |
| Actions.DeliveryIsRecovered | src/blybot/services/actions.py:175-217 | the delivery read off a parsed action is the delivery asked for |
| Actions.RecipeNames | src/blybot/services/actions.py:184-205 | the steps each recipe stands for, written out, and that no other recipe exists |
| Actions.ParamsExactly | src/blybot/services/actions.py:220-231 | a list of tokens is accepted exactly when each is a known key, an equals sign and a value that is not empty and passes its check |
| Actions.ParamsSay | src/blybot/services/actions.py:220-231 | and each key then has the value its last token gave |
| Actions.ParamsReachTheirSteps | src/blybot/services/actions.py:97-118 | the window given last goes to the source, language, model and temperature to every transform, the page to every sink, and nothing else anywhere |
| Actions.DeliverySays | src/blybot/services/actions.py:208-217 | the delivery given last names the sinks; without one, the wiki alone |
| Actions.AcceptedExactly | src/blybot/services/actions.py:97-118 | `/action add` accepts a command if and only if its schedule parses, its recipe exists, every parameter is acceptable and the delivery exists |
| Actions.RefusedBecause | src/blybot/services/actions.py:97-231 | a refused command is refused for the first of its faults, in the order usage, schedule, recipe, parameters, delivery |
| Actions.HandBuiltReadsAsWiki | src/blybot/services/actions.py:175-181 | sinks that no delivery stands for read as the wiki |
| Actions.TriggerLoadsExactly | src/blybot/services/actions.py:295-309 | a stored trigger loads if and only if it is a command with a name, or a schedule that parses |
| Actions.ParsedIsConstructible | src/blybot/services/actions.py:97-118 | an accepted command yields specs their constructors accept, on the parsed schedule |
| Actions.StorageRoundTripExact | src/blybot/services/actions.py:156-165 | loading what was dumped gives the same actions, last runs included, if and only if every schedule is one its token can name |
| Actions.ParsedActionIsStored | src/blybot/services/actions.py:97-165 | every accepted command is stored and loaded unchanged |
| Actions.LegacySinkLoads | src/blybot/services/actions.py:312-321 | a row with one legacy sink loads like the row with a one-element list |
| Sessions.SessionRegistry.Peek | src/blybot/services/sessions.py:56-65 | the stored session unless its age has reached the TTL |
| Sessions.SessionRegistry.Mint | src/blybot/services/sessions.py:79-98 | the loop stores a fresh session under the first unheld draw of 32, or the last |
| Sessions.SessionRegistry.Touch | src/blybot/services/sessions.py:36-45 | a live session only gets a new last_seen; an expired one is replaced |
| Sessions.SessionRegistry.Advance | src/blybot/services/sessions.py:47-54 | as a touch, with one more message counted |
| Sessions.SessionRegistry.Reset | src/blybot/services/sessions.py:67-69 | the scope gets a minted session whatever it held |
| Sessions.SessionRegistry.Sweep | src/blybot/services/sessions.py:71-77 | exactly the expired sessions go, and the result counts them |
| Sessions.LivesForATtl | src/blybot/services/sessions.py:36-77 | over every history a peek finds a session exactly when less than the TTL has passed since the last call that stored it |
| Sessions.ConversationKeepsIdentity | src/blybot/services/sessions.py:36-54 | over any calls none of which comes a TTL after the last or resets it, a scope keeps its identity and counts each of its messages once |
| Sessions.ExpiredStartsAnew | src/blybot/services/sessions.py:36-54 | from the TTL on, a message opens a drawn identity created now, at ordinal one |
| Sessions.DrawnExact | src/blybot/services/sessions.py:79-98 | the pseudonym is unheld if and only if one of the draws is; otherwise it is the last draw |
| Sessions.DistinctExact | src/blybot/services/sessions.py:36-102 | every operation keeps anchors pairwise distinct if and only if a mint sees an unheld draw or its last draw is held by no other scope |
| Sessions.ResetChangesIdentity | src/blybot/services/sessions.py:67-69 | a reset changes the anchor if and only if some draw is unheld or the last differs from the old anchor |
| Sessions.DistinctRun | src/blybot/services/sessions.py:36-102 | anchors are pairwise distinct after any calls whose mints see an unheld draw |
| Sessions.SweepIsInvisible | src/blybot/services/sessions.py:71-77 | a sweep changes no present or later peek and keeps anchors distinct |
| Sessions.SweepsChangeNoAnswer | src/blybot/services/sessions.py:36-77 | a history with sweeps anywhere gives the same answers as without any, when each mint's first draw is unheld |
| Sessions.DepthsCount | src/blybot/services/sessions.py:47-54 | each counted message gets the next ordinal of the identity opened last for its scope, over every history |
| Transcribe.DmTranscriptionService.Pop | src/blybot/services/transcribe.py:147-167 | the buffer leaves with its lines, and its flusher is cancelled unless it is the one running |
| Transcribe.DmTranscriptionService.Place | src/blybot/services/transcribe.py:91-105 | the line is last in its buffer, a new one continuing only a known section; then an immediate write, or a flusher if there is none |
| Transcribe.DmTranscriptionService.Record | src/blybot/services/transcribe.py:67-105 | a buffer of another identity or page is flushed first; otherwise the line is placed at once |
| Transcribe.DmTranscriptionService.Resume | src/blybot/services/transcribe.py:89-105 | after the rollover flush the old section is forgotten and the line opens a new buffer |
| Transcribe.DmTranscriptionService.Fire | src/blybot/services/transcribe.py:136-145 | a woken flusher flushes its scope without cancelling itself |
| Transcribe.DmTranscriptionService.Published | src/blybot/services/transcribe.py:167 | a landed write makes its section known |
| Transcribe.FlusherFiresOwnBuffer | src/blybot/services/transcribe.py:147-156 | a flusher that wakes finds the buffer it was created for, never the next one |
| Transcribe.ReadyRun | src/blybot/services/transcribe.py:67-168 | in every run each buffer has exactly one flusher asleep, each flusher a buffer, and a waiting record waits for an unfinished write of its scope |
| Transcribe.RecordRecords | src/blybot/services/transcribe.py:67-105 | every record counts its message and records its line, under the session that the count left |
| Transcribe.FlushWrites | src/blybot/services/transcribe.py:109-167 | a woken flusher, or a flush, starts one write with all the lines its scope has buffered, and leaves no flusher of the scope asleep |
| Transcribe.RecordAwaitsItsWrite | src/blybot/services/transcribe.py:84-105 | a record that starts a write waits for that write; one that starts none is over at once |
| Transcribe.RecordGoesOnWaiting | src/blybot/services/transcribe.py:84-105 | nothing but the return of its write releases it, and no other record of its scope begins before |
| Transcribe.RecordIsReleased | src/blybot/services/transcribe.py:84-105 | when its write returns a record is over, or waits for the write of the line its rollover held up |
| Transcribe.EveryLineOnceInOrder | src/blybot/services/transcribe.py:67-168 | writes in start order, then buffer, then held line, are exactly the recorded lines of the scope in order, whatever flushes, fails or rolls over |
| Transcribe.SectionedRun | src/blybot/services/transcribe.py:91-168 | no write mixes anchors or pages, and a continuation follows an earlier successful write of the same page and anchor |
| Transcribe.KnownExactly | src/blybot/services/transcribe.py:84-168 | a section is known from a landed write of it on, until the rollover flush that closes it comes back, and at no other time |
| Transcribe.BurstGrows | src/blybot/services/transcribe.py:84-105 | a line of the identity and page at hand joins its buffer and writes nothing |
| Transcribe.LandedSectionIsContinued | src/blybot/services/transcribe.py:89-105 | after a write has landed, whatever runs in between short of a rollover of that section, the next line of its page and anchor that finds no buffer continues the section |
| Transcribe.EveryRun | src/blybot/services/transcribe.py:67-168 | both hold in every state reachable from the empty service |
| Transcribe.DepthsGrowByOne | src/blybot/services/transcribe.py:67-84 | along a scope's writes and buffer each line is one deeper than the one before under the same identity, or opens at depth 1 |
| Transcribe.ResumedKeepsExactly | src/blybot/services/transcribe.py:89-105 | a record resumed after its rollover keeps the scope's lines if and only if it finds none buffered |
| Transcribe.OverlapLosesLine | src/blybot/services/transcribe.py:84-100 | two overlapping records of one scope, from an empty service, after which one line is in no write and no buffer |

## Left out

- Telegram, Discord, MediaWiki, LiftWing and HTTP adapters, SQL and migrations: foreign calls; stores, transports and the archive are values whose calls may fail.
- `__main__.py`, `config.py`, observability, health loops, command replies and prompt wording: wiring without state of their own.
- HMAC masking, Fernet, blake2b and CSPRNG minting: opaque; draws and offsets are parameters.
- JSON text, ISO datetime text and floating-point rounding: JSON is a value, instants are integers, the token bucket is over reals.
- Full Unicode: digits and upper-casing are ASCII, the whitespace set is fixed, and `casefold` is an arbitrary function.
- Dates near year 1, where the source's datetime subtraction overflows.
- Fairness of the subscription cap and waiting times under the per-scope action cap: the code does not rotate these.
- Rule matching, digests of events and the live cap of the notifier: formatting after the poll.
- `RepoNotifier.collect` and `ActionScheduler.collect` around one scope (allowlist check, isolation of failures): a loop over independent scopes; its rotation is modelled.
- `CaptureService.sweep_retention` and the capture reminder: independent of consent.
- The per-scope archive ceiling: each message carries its verdict. A message counts as archived once it is handed to `archive.store`; clipping its text, and that call failing, are left out.
- Restarting the relay worker: a `send` that raises ends it, as in the source, and it stays ended. The text and the delivery of notices: the model says when one is made and that it is true then.
- Cancellation of tasks other than flushers, and publisher errors other than `WikiWriteError`: a write finishes well or fails.
- Transcribe.SectionedRun: does not say that a session has exactly one section, because a record during a suspended write may open another; only the claim about continuations holds.
- Capture.EnableStands: about `enable_scope` only, because `/capture on` writes through `set_capture` and lifts no tombstone.
- Sessions.SweepsChangeNoAnswer: needs each mint's first draw unheld, because a sweep frees pseudonyms and a redraw could then stop earlier.
- `describe_action` and `command_action`: printing for people, and a spec built from a bare command.
- The parameter checks of `lang`, `temp` and the like: an arbitrary predicate.
