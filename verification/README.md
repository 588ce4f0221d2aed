# Verification of the two-tier durable bus

This project models the message bus of `src/subsystems/agents.rs` and proves what it promises over whole
runs: an append-only change log, one cursor per agent held in memory and persisted, a LIVE stream used only
as a wake-up, paged catch-up as the only delivery path, reconnects with backoff, and one bounded bus shared
by all agents of a coalition.

`dafny verify dfyconfig.toml` checks everything.

## How it is built

- `Wire`, `Feed`: the values a changefeed query returns, how catch-up reads them, and the log they present.
- `Protocol`: the bus as a transition system. Every await of the listen loop, of catch-up and of
  `Coalition::new` is one action; commits, feed truncation, cancellation, consumers, broken streams, failed
  queries, failed saves and crashes interleave freely with them. A run is any sequence of enabled actions
  from the empty state.
- `LoopInvariant`, `Coverage`, `Bus`: what every action keeps. `Guarantees` states the promises about runs,
  `Acceptance` those about what the buses accepted and the consumers received, at-least-once among them.
- `Shutdown`, `Startup`, `Progress`: the drain after cancellation, and both sides of the start-up threshold.
  `CursorRow`: the persisted cursor. `Restart`, `Accounting`, `Tidy`: the rounds of shutdown, crash, failed
  save and restart, what they deliver in all, and how far that is bounded when saves succeed.
- `Scenarios`: concrete runs from the empty state in which the code does less than a first reading suggests.
- `Environment`, `CatchUp`, `ListenLoop`, `Coalitions`: the code itself, imperatively, with its loops and its
  mutated cursor. `Environment.Machine` changes its state only by enabled actions and records them, so each
  method refines a run of `Protocol` and everything proved of all runs holds of it. What everybody else does
  is an arbitrary finite script; a method whose await is still pending when the script ends says so, so
  statements about the end of a script are statements about any moment. The script also holds the
  answers of the database and of timers: `Machine.Faults` counts those that failed, so that a method reports an
  error or a timeout only with its cause.
- `Retention`: the periodic age-out of rows, with time in milliseconds. `Backoff`, `Sums`: arithmetic.

The page size of catch-up is a parameter of the state (`batch`, at least 1); the code's value is 1000
(`CATCHUP_BATCH`). The bus holds 256 items and the first-run snapshot reads at most 1,000,000 changesets, as
in the code. Payload decoding is an arbitrary partial function: a record value carries what it decodes to.

## What is assumed of the database and the channels

- `SHOW CHANGES SINCE c LIMIT n` returns the first at most n retained changesets with versionstamp at least
  c, in ascending order, each complete and with its versionstamp (`Feed.Show`, `Wire.Encode`).
- Versionstamps are at least 1 and strictly increase in commit order; the log and the cursor rows survive
  restarts; truncation removes a prefix of the log.
- While a LIVE stream is registered, a commit owned by the agent queues a wake-up or leaves the stream ended
  or errored. Spurious wake-ups are allowed.
- The bus is a FIFO; `send` waits while it is full, fails once no receiver is left, and what is queued can be
  read after the senders are gone.
- A write of a cursor that fails may have been applied all the same; it takes effect, if at all, before its await ends or
  its task dies, never later. Commits in a run are finite.

## Where the code promises less than its documentation

- The comment on `catch_up` says a delivered message is never re-read. That holds within the life of one loop
  (`Guarantees.ExactForwarding`), but a crash between forwarding and saving delivers again, and so does a
  failed save: `Scenarios.DeliveredTwice` and `Scenarios.DeliveredTwiceUnsaved` are runs of each. What the
  rounds of an agent deliver is exactly the filtered log if and only if no round sent anything after its last
  save (`Accounting.RoundsPartitionLog`). When saves succeed, that is so if every round ended gracefully or is
  not in the middle of a page (`Tidy.GracefulRounds`), and otherwise the excess is the beginning of one page
  per round (`Tidy.RoundAccount`).
- The persisted cursor is overwritten unconditionally, so it can go backwards when a name is given twice
  (`Scenarios.CursorRowMayGoBack`); it cannot while an agent has one running loop at a time
  (`CursorRow.RowOnlyGrows`), and at-least-once delivery holds either way (`Acceptance.AtLeastOnce`).
- A send to a bus without a receiver is dropped and the cursor moves on. A loop's bus accepted all the loop
  forwarded if and only if the loop sent nothing after the receivers of its coalition were dropped
  (`Acceptance.AcceptedExactly`). The loops left running by the early return of `new`, when an agent cannot be
  created, do send after that: in `Scenarios.DroppedUnseen` the persisted cursor passes a retained change that
  no bus ever held.
- A message the bus has accepted is not yet received. What is queued when the receivers go is never received
  (`Acceptance.QueueDiesWithReceivers`), up to 256 messages, although the cursor may have passed it
  (`Scenarios.QueuedAndLost`).
- An agent's first loop starts after its snapshot, so a change committed between the creation of the agent
  record and the snapshot is not delivered (`Guarantees.FirstRunStartsFromNow`).
- `new` returns when the agents have at most 256 messages to replay: it can always advance, and only so often
  (`Progress.NewReturns`, `Progress.UnwindingNeverStuck`). When they have more, it cannot return, not even with
  an error (`Startup.StartupDeadlocks`, and `Scenarios.OvercommitArises` for a run that gets there); once the
  bus is full and a loop that `new` waits for is blocked, not even failures or truncation change that
  (`Startup.JammedForGood`).
- The comment on the readiness timeout (`src/subsystems/agents.rs:392-397`) says a stalled database cannot hang
  `new` forever. But after the timeout `new` waits for the stalled loop itself: while that loop takes no step,
  `new` does not return, timeouts included (`Startup.StalledForGood`).

## Model

| member | source | states |
|---|---|---|
| Wire.MaxVersionstamp | src/subsystems/agents.rs:525-529 | the largest versionstamp among the items that carry one, 0 when there is none or the value is no array |
| Wire.OwnedChangeMeans | src/subsystems/agents.rs:601-617 | of a change exactly the decoded "update" record, or "create" record if it has no "update", is selected, and exactly if its `out` is the agent |
| Wire.OwnedInOrder | src/subsystems/agents.rs:601-617 | a changeset is filtered change by change, in order, leaving out nothing addressed to the agent |
| Wire.FieldsMean | src/subsystems/agents.rs:487-496 | versionstamp and changes are the fields of those names, and of the right kind |
| Wire.DeleteOnlyMeans | src/subsystems/agents.rs:603-607 | a sweep's changeset is one whose change objects have neither an "update" nor a "create" |
| Wire.OwnedRoundTrip | src/subsystems/agents.rs:598-617 | reading an encoded page change by change yields exactly the owned messages of its changesets, in order |
| Wire.HighestOfPage | src/subsystems/agents.rs:590-597 | the running maximum over a page from the cursor on is its last versionstamp |
| Wire.DeletesOwnNothing | src/subsystems/agents.rs:601-607 | a delete-only changeset, as a sweep commits it, forwards nothing to anybody |
| Feed.PageIsWindow | src/subsystems/agents.rs:567-588 | a page is the whole of the not-lost log between the cursor and just past its last changeset, and a short page reaches the live edge |
| Feed.SweepsAreInvisible | src/subsystems/agents.rs:601-607 | what is owned of any range of the log is the same with all delete-only changesets removed |
| Backoff.AfterStep | src/subsystems/agents.rs:671-674 | doubling with a cap follows the closed form 200 * 2^k capped at 30000 |
| Backoff.AfterBounds | src/subsystems/agents.rs:36-38 | the delay is within bounds, never shrinks with k, and is at its cap exactly from the eighth sleep on |
| LoopInvariant.SnapshotValue | src/subsystems/agents.rs:531-550 | the first-run start never passes the next versionstamp, capped or not, and separates exactly the first million retained changesets from the rest |
| LoopInvariant.StepKeeps | src/subsystems/agents.rs:182-307 | every step of the listen loop keeps exact forwarding, the accounting of losses, the stage and delay relations, the live edge, and the absence of lost wake-ups |
| LoopInvariant.CommitKeeps | src/subsystems/agents.rs:212-216 | so does any commit, whether it queues a wake-up or breaks the stream |
| LoopInvariant.TruncateKeeps | src/subsystems/sdb.rs:103-110 | so does truncation of the feed at any point |
| Coverage.CoverageNext | src/subsystems/agents.rs:198-205 | every action keeps the ranges of an agent's loops covering everything from its floor to every cursor, whoever's save lands last |
| Bus.BusesNext | src/subsystems/agents.rs:355-380 | every action keeps conservation, order, capacity, sender counts, membership and handshake progress of every coalition |
| Guarantees.ExactForwarding | src/subsystems/agents.rs:210-306 | in every reachable state a loop has handed to the bus the filtered log from its start: up to the cursor at rest, plus a part of one page while forwarding |
| Acceptance.AtLeastOnce | src/subsystems/agents.rs:567-639 | any loops, failures and restarts: each change between the floor and any persisted or in-memory cursor was truncated, or forwarded by one loop as a contiguous run, and that loop's bus accepted the run if a receiver was alive when it was sent, whatever has become of the bus since |
| Acceptance.AtLeastOnceReceived | src/subsystems/agents.rs:434-439 | each of those messages has been received by a consumer or is one of the at most 256 still queued |
| Acceptance.AcceptedIsAddressed | src/subsystems/agents.rs:608-627 | whatever any bus ever accepted is the decoded record of a change in the log, and its `out` is the recipient it is delivered to |
| Acceptance.AddressedIsDelivered | src/subsystems/agents.rs:601-627 | a message that a change between floor and cursor carries for an agent is forwarded, and accepted if there was a receiver, unless truncated |
| Acceptance.AcceptedExactly | src/subsystems/agents.rs:619-628 | over any run the bus accepted of a loop exactly what it sent while there was a receiver; all it forwarded if and only if it sent nothing after Abandon, Unwound or DropReceivers of its coalition |
| Acceptance.AcceptedStays | src/subsystems/agents.rs:619-628 | what was forwarded while a receiver is alive is accepted in every later state, all of it for a loop that has ended |
| Guarantees.FloorIsAStart | src/subsystems/agents.rs:198-205 | the floor is the start cursor of one of the agent's own loops, and an agent with a cursor row has one |
| Acceptance.AcceptedWhileReceived | src/subsystems/agents.rs:619-628 | the bus accepts a prefix of what a loop forwards, all of it while a receiver is alive |
| Guarantees.NoLostWakeUp | src/subsystems/agents.rs:245-299 | a loop that waits while an unread owned change is retained has a wake-up queued or a broken stream, and its select can react |
| Guarantees.CursorsBounded | src/subsystems/agents.rs:525-550 | no cursor, loaded, snapshotted, drained or persisted, passes the next versionstamp to be allocated |
| Guarantees.LaterChangeNotSkipped | src/subsystems/agents.rs:173-175 | a change committed after a loop has begun is at or above its cursor, and later pending, truncated unread, or forwarded |
| Guarantees.HandshakeGuarantee | src/subsystems/agents.rs:392-412 | after `new` returned Ok the same holds for every member and every later commit |
| Guarantees.FirstRunStartsFromNow | src/subsystems/agents.rs:195-205 | with an uncapped snapshot a retained change is in a first loop's range if and only if it was committed after the snapshot |
| Guarantees.EveryChangeAccountedFor | src/subsystems/agents.rs:567-639 | a change from the start on is still retained, or was truncated unread, the only loss, or lies as one run of messages in what is forwarded and in hand |
| Guarantees.SweepsNeverDelivered | src/subsystems/agents.rs:642-660 | what any loop forwards is what it would have forwarded of the log without sweeps |
| Guarantees.BusConservesAndOrders | src/subsystems/agents.rs:434-439 | for any loops and competing consumers: accepted is received once or queued, at most 256 queued, and each loop's items come out in forwarding order |
| Guarantees.RecipientOrder | src/subsystems/agents.rs:434-439 | with distinct names, what consumers received for an agent is a prefix of what its loop forwarded, all of it once the queue is empty |
| Guarantees.ClosureIff | src/subsystems/agents.rs:378-380 | `recv` reports closed if and only if `new` dropped its sender, every listen loop has ended and the queue is empty |
| Guarantees.ReturnMeans | src/subsystems/agents.rs:398-420 | Ok means every loop has subscribed and drained; a handshake error means cancelled and no loop left |
| Guarantees.BackoffClosedForm | src/subsystems/agents.rs:207-305 | in every reachable state the next delay is 200 * 2^k ms capped at 30 s for k sleeps since the last drain, and 200 ms while waiting |
| Startup.StartupNeverBlocks | src/subsystems/agents.rs:355-360 | while all replays of a coalition fit the bus, no start-up send blocks |
| Startup.ReturnNeedsRoom | src/subsystems/agents.rs:398-412 | both returns of `new` need everything its loops inherited to fit the bus |
| Startup.StartupDeadlocks | src/subsystems/agents.rs:398-412 | when it does not fit, no continuation without database failures, and with truncation only of what has been read, lets `new` return |
| Startup.JammedForGood | src/subsystems/agents.rs:398-412 | with the bus full and an unready loop blocked on it, `new` does not return whatever fails or is truncated, short of that loop's crash or the end of `new` |
| Startup.StalledForGood | src/subsystems/agents.rs:392-412 | while a loop that is neither ready nor ended takes no step, no run lets `new` return, timeouts included |
| Progress.NewNeverStuck | src/subsystems/agents.rs:347-421 | while the replays fit the bus, `new` or a loop it waits for can take a step that is no failure, until `new` returns |
| Progress.StartUpBounded | src/subsystems/agents.rs:347-421 | over any run a start-up advances at most as often as its weight and the commits allow |
| Progress.NewReturns | src/subsystems/agents.rs:347-421 | both together: below the threshold a `new` that has not returned can advance, and has advanced less often than its bound |
| Progress.UnwindingNeverStuck | src/subsystems/agents.rs:398-412 | on the error path a loop waited for can step until all have ended and the error is returned |
| Shutdown.ShutdownDrains | src/subsystems/agents.rs:441-446 | after cancellation a loop's own steps are bounded by its backlog and the commits still made |
| Shutdown.AtMostOneMoreDrain | src/subsystems/agents.rs:271-306 | after cancellation at most one more subscribe and one more catch-up |
| Shutdown.ShutdownNeverStuck | src/subsystems/agents.rs:662-669 | a cancelled loop can always step until it has ended, unless the bus is full |
| CursorRow.RowOnlyGrows | src/subsystems/agents.rs:511-523 | with one running loop per agent at a time, whatever fails, the persisted cursor never goes backwards over any stretch of a run |
| Scenarios.CursorRowMayGoBack | src/subsystems/agents.rs:362-376 | a run in which a name given twice makes the persisted cursor go from 2 back to 1 |
| Scenarios.DeliveredTwice | src/subsystems/agents.rs:619-634 | a run in which a crash before the save makes two buses accept the same message |
| Scenarios.DeliveredTwiceUnsaved | src/subsystems/agents.rs:631-634 | a run without a crash in which a failed save does |
| Scenarios.OvercommitArises | src/subsystems/agents.rs:355-412 | a run to a coalition whose `new` can never return, for any change with more than 256 messages for the agent |
| Scenarios.DroppedUnseen | src/subsystems/agents.rs:363 | a run in which the early return of `new` leaves a loop whose persisted cursor passes a retained change no bus accepted |
| Scenarios.QueuedAndLost | src/subsystems/agents.rs:629-634 | a run in which the process dies with an accepted message queued below the persisted cursor |
| Tidy.RoundAccount | src/subsystems/agents.rs:629-634 | with successful saves a round forwards its settled range and then a beginning of one page, nothing more when it ended gracefully |
| Accounting.SurplusDeliveredAgain | src/subsystems/agents.rs:629-634 | for consecutive rounds of a run, whatever fails: what the first left unsaved is forwarded again by the next once its cursor is past it, in the same order, and accepted if there was a receiver, unless truncated in between |
| Accounting.RoundsPartitionLog | src/subsystems/agents.rs:195-205 | with one loop at a time, whatever crashes and whichever saves fail, the settled ranges of all rounds concatenate to exactly the filtered log up to the persisted cursor, less what was truncated unread; what the buses accepted exceeds it by exactly the sends since the last saves, and equals it if and only if there are none |
| Accounting.MissedTruncated | src/subsystems/sdb.rs:103-110 | only truncation takes anything out of a settled range |
| Tidy.UnsavedMeans | src/subsystems/agents.rs:619-634 | with successful saves a round has unsaved sends only between a send and the save of that page, where it stands or crashed |
| Tidy.GracefulRounds | src/subsystems/agents.rs:442-446 | with successful saves, if no round crashed or stands in the middle of a page, and none sent without a receiver, deliveries are exactly the filtered log |
| Environment.Machine.Do | src/subsystems/agents.rs:182-307 | the state changes by enabled actions only and the trace records them |
| Environment.OthersAreFree | src/subsystems/agents.rs:160-307 | while a party awaits, every action that is not its own is possible |
| Environment.Machine.Pause | src/subsystems/agents.rs:568-583 | exactly the enabled actions of others in the script are taken up to its next answer, which answers the await; what the party holds stays, and its unread work grows only by what the script commits |
| CatchUp.ShowChanges | src/subsystems/agents.rs:568-583 | an error exactly when the query was answered with one; the loop is then failed, and otherwise the encoded page is returned and taken in hand |
| CatchUp.ReadPage | src/subsystems/agents.rs:568-588 | the page at the cursor, as the feed stood when the query was answered |
| CatchUp.SaveCursor | src/subsystems/agents.rs:511-523 | an error exactly when the upsert was answered with one; a successful save leaves the cursor in the agent's row, a failed one leaves the loop failed, with the row written or not as the answer says |
| CatchUp.AwaitRoom | src/subsystems/agents.rs:619-627 | waits until the bus has room or no receiver, and no longer |
| CatchUp.Send | src/subsystems/agents.rs:619-627 | one message leaves the page in hand in order, or the loop is blocked on a full bus |
| CatchUp.ForwardChanges | src/subsystems/agents.rs:601-628 | forwards exactly the owned decodable creates and updates of a changeset |
| CatchUp.ForwardPage | src/subsystems/agents.rs:590-629 | forwards exactly what is owned of a page and computes its highest versionstamp, whatever else the values contain |
| CatchUp.MoveCursor | src/subsystems/agents.rs:631-634 | the cursor in memory moves past the page before it is saved |
| CatchUp.DrainPage | src/subsystems/agents.rs:567-638 | one page; a full one moves the cursor by at least the page size and lowers the unread work by it |
| CatchUp.CatchUp | src/subsystems/agents.rs:557-640 | terminates under finitely many commits; forwards the filter of the log between its two cursors; if nothing was committed or truncated meanwhile, whatever consumers and others did, the result is that of one unbounded read, with n/B+1 reads and the rounded-up n/B saves for every page size B |
| ListenLoop.LoadCursor | src/subsystems/agents.rs:499-509 | an error exactly when the query was answered with one; otherwise the agent's row in the cursor table, which becomes cursor and start |
| ListenLoop.LatestVersionstamp | src/subsystems/agents.rs:535-550 | an error exactly when the query was answered with one; otherwise a value below the next versionstamp that separates exactly the first million retained changesets from the rest; the start is one past it |
| ListenLoop.StartCursor | src/subsystems/agents.rs:198-205 | an error only if an answer failed; the row is the one in the cursor table at a moment of the call; the start is that row if there is one, with nothing saved, else a snapshot below everything committed since, saved once; either way it is what the row now holds |
| ListenLoop.LiveSelect | src/subsystems/agents.rs:215-243 | subscribed exactly when the query was answered with success; a subscription precedes every drain, and a failure leaves the loop failed |
| ListenLoop.AwaitEvent | src/subsystems/agents.rs:272-280 | waits until there is a cancellation, a wake-up or the end of the stream, and no longer |
| ListenLoop.Select | src/subsystems/agents.rs:272-298 | cancellation whenever cancelled; else a wake-up; else, with no wake-up queued, the end of a broken stream; otherwise there is nothing to react to |
| ListenLoop.CancelOrSleep | src/subsystems/agents.rs:662-669 | ends the task if it was cancelled before, or is cancelled and the delay was not over when the task ran again; else reconnects with the delay doubled |
| ListenLoop.Recover | src/subsystems/agents.rs:232-261 | a failure is returned exactly before readiness, and retried afterwards |
| ListenLoop.Watch | src/subsystems/agents.rs:269-305 | leaves only by cancellation, suspended, or, to reconnect, after a failing answer or the end of the stream; the delay stays at its start |
| ListenLoop.Connection | src/subsystems/agents.rs:211-305 | one subscription: the task ends or is suspended, or it is left failed; if the drain succeeded it is ready and its delay is back at the start, else both are as before |
| ListenLoop.Serve | src/subsystems/agents.rs:182-307 | Ok only after readiness and cancellation, Err only before readiness and after a failing answer, else idle or blocked when the script ends |
| ListenLoop.Listen | src/subsystems/agents.rs:160-307 | by then it has forwarded the filtered log from its start; with no failing answer it never returns Err; idle means nothing retained is left to read |
| Coalitions.AwaitReady | src/subsystems/agents.rs:449-475 | waits while the loop is unready and running, and no longer: signalled for a ready loop, dropped for one that ended unready, timed out exactly when the timer ran out on one still running; an error cancels the coalition |
| Coalitions.WaitAll | src/subsystems/agents.rs:408-410 | waits until every loop has ended, and no longer |
| Coalitions.Create | src/subsystems/agents.rs:363-376 | the early error exactly when the creation was answered with one, with nothing spawned for that name; else one more loop |
| Coalitions.SpawnAll | src/subsystems/agents.rs:361-380 | one loop per name, in order, unless a creation was answered with an error; then exactly the names before it have loops and are registered, and the receiver is dropped |
| Coalitions.New | src/subsystems/agents.rs:347-421 | Ok with all names registered and every loop ready; a handshake error with all loops cancelled and ended, and with its cause: a loop that ended unready, or a timer that ran out; the early error only after a failed creation; else not returned |
| Coalitions.ShutDown | src/subsystems/agents.rs:441-447 | cancels first; after cancel, close and wait every loop has ended and the bus is closed once read empty |
| Retention.Table.Sleep | src/subsystems/agents.rs:651-653 | passes time exactly until the interval has elapsed or the token is cancelled, and says which |
| Retention.Table.Delete | src/subsystems/agents.rs:649-656 | a delete that takes effect removes exactly the rows older than the window at that moment, a failed one none |
| Retention.Interval | src/subsystems/agents.rs:647 | a quarter of the retention, at least 60 s |
| Retention.RetentionSweep | src/subsystems/agents.rs:645-660 | keeps `Sweeps`: the table, clock and token are those of the script with no deletes at all, except that rows older than the window may be gone; the last effective delete is in time; and after cancellation at most a pending delete is awaited |
| Retention.SweepsMeans | src/subsystems/agents.rs:645-660 | so no row is removed before it is older than the window, and after an effective delete none is ever older than the window plus the interval and twice the worst wait, times one plus the deletes failed since, plus one wait |

## Left out

- Docker container lifecycle, health polling and connection set-up: foreign calls without a protocol of their own.
- Settings, logging, error texts, the drivers and the examples: no algorithm of their own.
- Agent name validation and record reuse: agent ids are taken as valid and stable.
- `Agent::send`: commits are actions of the environment, so the guarantees are about committed changes; the unchecked response of the RELATE query is not modelled.
- Payload encoding and decoding: a record value carries the result of decoding it.
- 64-bit overflow of versionstamps: versionstamps are mathematical integers.
- The retention sweep as a member of the coalition's task tracker: the sweep is modelled on its own, and its deletes are commits of the environment.
- Fairness of the scheduler: termination is proved as bounds on steps and as steps that remain possible, not as a property of infinite runs.
- Accounting.RoundsPartitionLog: is stated for one loop of the agent at a time; Acceptance.AtLeastOnce covers the rest.
- Progress.NewReturns: needs the replays to fit the bus at the moment the next step is taken, as replays may grow with commits while `new` runs.
- Retention.RetentionSweep: bounds only when the first effective delete happens, not the age of rows before it, which may be arbitrarily old after a long stop; its bound grows with the deletes that fail in a row, as the code leaves the rows until the next turn.
