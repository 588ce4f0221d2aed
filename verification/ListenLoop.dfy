// The listen loop of one agent: start cursor, subscribe, drain, wait, reconnect, until cancelled.

module ListenLoop {
  import opened Wire
  import opened Feed
  import opened Protocol
  import opened LoopInvariant
  import opened Guarantees
  import opened Environment
  import opened CatchUp
  import Shutdown
  import Backoff

  /** How the task ends: it returns Ok or Err, or the script ends while it is suspended. */
  datatype Exit = Returned(ok: bool) | Halted

  datatype Selected = SawCancel | SawWake | SawEnd | Asleep

  /** Suspended in the inner select with nothing to react to. */
  predicate Idle(s: State, l: nat) {
    && l < |s.loops| && s.loops[l].home < |s.coals| && s.loops[l].pc == Wait
    && !s.coals[s.loops[l].home].cancelled && !WillWake(s.loops[l])
  }

  /** From one point to a later one, apart from the loop's own progress. */
  predicate Later(s: State, n: nat, t: State, k: nat, l: nat) {
    && l < |s.loops| && l < |t.loops| && t.batch == s.batch
    && t.loops[l].agent == s.loops[l].agent && t.loops[l].home == s.loops[l].home
    && k <= n && Pending(t.loops[l]) + k <= Pending(s.loops[l]) + n
  }

  // ---------------------------------------------------------------- start-up queries

  /** The agent's row in the cursor table, if there is one. */
  function RowOf(s: State, agent: AgentId): Option<int> {
    if agent in s.disk then Some(s.disk[agent]) else None
  }

  /** load_cursor: the persisted row, if there is one. */
  method LoadCursor(w: Machine, l: nat) returns (ok: bool, row: Option<int>)
    requires w.Valid() && l < |w.s.loops| && w.s.loops[l].pc == Load
    modifies w
    ensures w.Valid() && old(w.trace) <= w.trace && Later(old(w.s), |old(w.script)|, w.s, |w.script|, l)
    ensures ok == Reply(old(w.script)).ok && w.Faults() == old(w.Faults()) + if ok then 0 else 1
    ensures Awaits(old(w.s), old(w.script), l, if ok then LoadOk else QueryFails, w.s)
    ensures var p, q := old(w.s).loops[l], w.s.loops[l];
            && q.ready == p.ready && q.backoff == p.backoff && q.sleeps == p.sleeps
            && (!ok ==> q.pc == Failed)
            && (ok && row.None? ==> q.pc == Snap)
            && (ok && row.Some? ==> q.pc == Subscribe && q.cursor == q.start == row.value
                                    && q.saved == row && q.cursorSaves == p.cursorSaves)
            && (ok ==> row == RowOf(w.s, q.agent))
            && (ok && row.None? ==> q.cursorSaves == p.cursorSaves)
  {
    hide Machine.Valid, Played, Rest, Reply, Extends;
    var answer, _ := w.Pause(Task(l));
    ok := answer;
    if !ok {
      w.Take(l, QueryFails);
      return false, None;
    }
    row := if w.s.loops[l].agent in w.s.disk then Some(w.s.disk[w.s.loops[l].agent]) else None;
    w.Take(l, LoadOk);
  }

  /** latest_versionstamp, plus one: the first-run start cursor. */
  method LatestVersionstamp(w: Machine, l: nat) returns (ok: bool, latest: int)
    requires w.Valid() && l < |w.s.loops| && w.s.loops[l].pc == Snap
    modifies w
    ensures w.Valid() && old(w.trace) <= w.trace && Later(old(w.s), |old(w.script)|, w.s, |w.script|, l)
    ensures ok == Reply(old(w.script)).ok && w.Faults() == old(w.Faults()) + if ok then 0 else 1
    ensures Awaits(old(w.s), old(w.script), l, if ok then SnapshotOk else QueryFails, w.s)
    ensures var p, q := old(w.s).loops[l], w.s.loops[l];
            && q.ready == p.ready && q.backoff == p.backoff && q.sleeps == p.sleeps
            && (!ok ==> q.pc == Failed)
            && (ok ==> q.pc == SaveStart && q.cursor == q.start == latest + 1 && q.cursorSaves == p.cursorSaves)
    ensures ok ==> l < |w.s.loops| && w.s.trunc <= |w.s.log| && w.s.loops[l].born == |w.s.log|
    ensures ok ==> latest < NextVs(w.s.log)
    ensures ok && w.s.trunc < |w.s.log| ==>
      forall t | w.s.trunc <= t < |w.s.log| :: w.s.log[t].vs <= latest <==> t < w.s.trunc + 1_000_000
  {
    hide Machine.Valid, Played, Rest, Reply, Extends, MaxVersionstamp, Show;
    latest := 0;
    var answer, _ := w.Pause(Task(l));
    ok := answer;
    if !ok {
      w.Take(l, QueryFails);
      return;
    }
    w.InStage(l);
    SnapshotValue(w.s.log, w.s.trunc);
    latest := MaxVersionstamp(Arr(EncodeAll(Show(w.s.log, w.s.trunc, 0, SNAPSHOT_LIMIT))));
    w.Take(l, SnapshotOk);
  }

  /** `row` is the agent's row after the run `acts`. */
  ghost predicate RowAfter(batch: nat, acts: seq<Action>, agent: AgentId, row: Option<int>) {
    exists s :: Reaches(batch, acts, s) && row == RowOf(s, agent)
  }

  /** Resume from the persisted cursor, or start from now and persist that. `read` is the run up to the moment
      the row was read. */
  method StartCursor(w: Machine, l: nat) returns (ok: bool, start: int, ghost row: Option<int>, ghost read: seq<Action>)
    requires w.Valid() && l < |w.s.loops| && w.s.loops[l].pc == Load
    modifies w
    ensures w.Valid() && old(w.trace) <= w.trace && Later(old(w.s), |old(w.script)|, w.s, |w.script|, l)
    ensures w.Faults() == old(w.Faults()) + if ok then 0 else 1
    ensures var p, q := old(w.s).loops[l], w.s.loops[l];
            && q.ready == p.ready && q.backoff == p.backoff && q.sleeps == p.sleeps
            && (!ok ==> q.pc == Failed)
            && (ok ==> q.pc == Subscribe && q.cursor == q.start == start && q.saved == Some(start))
            && (ok ==> q.agent in w.s.disk && w.s.disk[q.agent] == start)
            && (ok ==> old(w.trace) <= read <= w.trace && RowAfter(w.s.batch, read, q.agent, row))
            && (ok && row.Some? ==> start == row.value && q.cursorSaves == p.cursorSaves)
            && (ok && row.None? ==> q.cursorSaves == p.cursorSaves + 1
                                    && forall t | q.born <= t < |w.s.log| :: start <= w.s.log[t].vs)
  {
    hide Machine.Valid, Awaits, Played, Rest, Reply, Extends, Reaches;
    start := 0;
    var loaded;
    ok, loaded := LoadCursor(w, l);
    row, read := loaded, w.trace;
    w.Reached();
    if !ok {
      return;
    }
    match loaded {
      case Some(c) =>
        start := c;
      case None =>
        var latest;
        ok, latest := LatestVersionstamp(w, l);
        if !ok {
          return;
        }
        start := latest + 1;
        ghost var log := w.s.log;
        ok := SaveCursor(w, l, start);
        w.InStage(l);
        forall t | |log| <= t < |w.s.log| ensures start <= w.s.log[t].vs {
          LogTailAbove(log, w.s.log, t);
        }
    }
  }

  // ---------------------------------------------------------------- awaits of the loop

  /** LIVE SELECT. */
  method LiveSelect(w: Machine, l: nat) returns (ok: bool)
    requires w.Valid() && l < |w.s.loops| && w.s.loops[l].pc == Subscribe
    modifies w
    ensures w.Valid() && old(w.trace) <= w.trace && Later(old(w.s), |old(w.script)|, w.s, |w.script|, l)
    ensures ok == Reply(old(w.script)).ok && w.Faults() == old(w.Faults()) + if ok then 0 else 1
    ensures Awaits(old(w.s), old(w.script), l, if ok then SubscribeOk else QueryFails, w.s)
    ensures var p, q := old(w.s).loops[l], w.s.loops[l];
            && q.ready == p.ready && q.backoff == p.backoff && q.sleeps == p.sleeps && q.cursor == p.cursor
            && q.pc == (if ok then Read else Failed)
    ensures !ok ==> Pending(w.s.loops[l]) + |w.script| < Pending(old(w.s).loops[l]) + |old(w.script)|
  {
    hide Machine.Valid, Played, Rest, Reply, Extends;
    var answer, _ := w.Pause(Task(l));
    ok := answer;
    w.Take(l, if ok then SubscribeOk else QueryFails);
  }

  /** Something the inner select of the loop reacts to. */
  predicate Stirred(s: State, l: nat) {
    && l < |s.loops| && s.loops[l].home < |s.coals|
    && (|| s.coals[s.loops[l].home].cancelled
        || (s.loops[l].stream.Live? && (s.loops[l].stream.queued > 0 || s.loops[l].stream.broken)))
  }

  /** The loop is as it was, but for its stream and what the feed lost to it. */
  predicate Unmoved(s: State, t: State, l: nat) {
    && l < |s.loops| && l < |t.loops| && t.loops[l].stream.Live? == s.loops[l].stream.Live?
    && t.loops[l] == s.loops[l].(stream := t.loops[l].stream, lost := t.loops[l].lost)
  }

  // One more await without a step of the loop.
  lemma UnmovedPause(s: State, n: nat, m: State, j: nat, t: State, k: nat, l: nat)
    requires Unmoved(s, m, l) && Later(s, n, m, j, l) && Undisturbed(m, t, Task(l))
    requires k <= j && Pending(t.loops[l]) + k <= Pending(m.loops[l]) + j
    ensures l < |t.loops| && Unmoved(s, t, l) && Later(s, n, t, k, l)
  {
    hide Extends;
  }

  lemma UnmovedFacts(s: State, t: State, l: nat)
    requires Unmoved(s, t, l)
    ensures l < |s.loops| && l < |t.loops| && t.loops[l].stream.Live? == s.loops[l].stream.Live?
  {
  }

  /** In none of the states after the first awaits, up to the `n`-th, was there anything to react to. */
  predicate StillAsleep(s: State, script: seq<Move>, l: nat, n: nat)
    requires Formed(s)
  {
    forall j | 0 < j < n :: !Stirred(Waited(s, script, Task(l), j), l)
  }

  lemma AsleepMore(s: State, script: seq<Move>, l: nat, n: nat)
    requires Formed(s) && StillAsleep(s, script, l, n) && (n > 0 ==> !Stirred(Waited(s, script, Task(l), n), l))
    ensures StillAsleep(s, script, l, n + 1)
  {
    hide Stirred, Waited;
  }

  /** Suspended in the select until there is something to react to, and no longer. */
  method AwaitEvent(w: Machine, l: nat) returns (ghost n: nat)
    requires w.Valid() && l < |w.s.loops| && w.s.loops[l].pc == Wait
    modifies w
    ensures w.Valid() && old(w.trace) <= w.trace && Later(old(w.s), |old(w.script)|, w.s, |w.script|, l)
    ensures old(w.Faults()) <= w.Faults()
    ensures l < |w.s.loops| && Unmoved(old(w.s), w.s, l) && w.s.loops[l].stream.Live?
    ensures (Stirred(w.s, l) || w.script == [])
    ensures n > 0 && w.s == Waited(old(w.s), old(w.script), Task(l), n)
    ensures StillAsleep(old(w.s), old(w.script), l, n)
  {
    w.InStage(l);
    assert w.s.loops[l].stream.Live?;
    ghost var s, script := w.s, w.script;
    UnmovedSelf(s, |script|, l);
    assert StillAsleep(s, script, l, 1);
    hide *;
    WaitedNone(s, script, Task(l));
    WaitedMore(s, script, Task(l), 0);
    var _, _ := w.Pause(Task(l));
    UnmovedPause(s, |script|, s, |script|, w.s, |w.script|, l);
    UnmovedFacts(s, w.s, l);
    n := 1;
    while !Stirred(w.s, l) && w.script != []
      invariant n > 0
      invariant w.Valid() && old(w.trace) <= w.trace && old(w.Faults()) <= w.Faults()
      invariant Unmoved(s, w.s, l) && Later(s, |script|, w.s, |w.script|, l) && l < |w.s.loops|
      invariant w.s == Waited(s, script, Task(l), n) && w.script == WaitedRest(script, n)
      invariant StillAsleep(s, script, l, n)
      decreases |w.script|
    {
      AsleepMore(s, script, l, n);
      ghost var m, k := w.s, |w.script|;
      WaitedMore(s, script, Task(l), n);
      var _, _ := w.Pause(Task(l));
      UnmovedPause(s, |script|, m, k, w.s, |w.script|, l);
      UnmovedFacts(s, w.s, l);
      n := n + 1;
    }
    UnmovedFacts(s, w.s, l);
  }

  lemma UnmovedSelf(s: State, n: nat, l: nat)
    requires l < |s.loops|
    ensures Unmoved(s, s, l) && Later(s, n, s, n, l)
  {
  }

  /** The biased select: cancellation first, then the next notification. */
  method Select(w: Machine, l: nat) returns (r: Selected)
    requires w.Valid() && l < |w.s.loops| && w.s.loops[l].pc == Wait
    modifies w
    ensures w.Valid() && old(w.trace) <= w.trace && Later(old(w.s), |old(w.script)|, w.s, |w.script|, l)
    ensures old(w.Faults()) <= w.Faults()
    ensures var p, q := old(w.s).loops[l], w.s.loops[l];
            && q.ready == p.ready && q.backoff == p.backoff && q.sleeps == p.sleeps && q.cursor == p.cursor
    ensures match r
            case SawCancel => w.s.loops[l].pc == Done(true) && w.s.coals[w.s.loops[l].home].cancelled
            case SawWake => w.s.loops[l].pc == Read && !w.s.coals[w.s.loops[l].home].cancelled
                            && Pending(w.s.loops[l]) + |w.script| < Pending(old(w.s).loops[l]) + |old(w.script)|
            case SawEnd => w.s.loops[l].pc == Failed && !w.s.coals[w.s.loops[l].home].cancelled
                           && w.s.loops[l].stream == Live(0, true) && Pending(w.s.loops[l]) > 0
            case Asleep => w.script == [] && Idle(w.s, l)
  {
    hide Machine.Valid, Awaits, Played, Rest, Reply, Extends, SameTask, AfterStep;
    var _ := AwaitEvent(w, l);
    if w.s.coals[w.s.loops[l].home].cancelled {
      w.Take(l, TakeCancel);
      return SawCancel;
    }
    if w.s.loops[l].stream.queued > 0 {
      w.Take(l, Wake);
      return SawWake;
    }
    if w.s.loops[l].stream.broken {
      w.Take(l, StreamEnd);
      return SawEnd;
    }
    r := Asleep;
  }

  /** Drop the stream and sleep for the current delay unless cancelled first; the delay then doubles. */
  method CancelOrSleep(w: Machine, l: nat) returns (cancelled: bool)
    requires w.Valid() && l < |w.s.loops| && w.s.loops[l].pc == Failed && w.s.loops[l].ready
    modifies w
    ensures w.Valid() && old(w.trace) <= w.trace && Later(old(w.s), |old(w.script)|, w.s, |w.script|, l)
    ensures old(w.Faults()) <= w.Faults()
    ensures Pending(w.s.loops[l]) == 0
    ensures cancelled <==>
      && Shutdown.Cancelled(w.s, l)
      && (Shutdown.Cancelled(old(w.s), l) || old(w.Faults()) < w.Faults())
    ensures Shutdown.Cancelled(old(w.s), l) ==> cancelled
    ensures var p, q := old(w.s).loops[l], w.s.loops[l];
            && q.ready == p.ready && q.cursor == p.cursor
            && q.pc == (if cancelled then Done(true) else Subscribe)
            && (cancelled ==> w.s.coals[q.home].cancelled)
            && (!cancelled ==> q.backoff == Backoff.Next(p.backoff) && q.sleeps == p.sleeps + 1)
  {
    hide Machine.Valid, Awaits, Played, Rest, Reply, Extends;
    w.Take(l, GiveUp);
    var elapsed, _ := w.Pause(Task(l));
    if w.s.coals[w.s.loops[l].home].cancelled && (!elapsed || !w.s.loops[l].pc.armed) {
      w.Take(l, TakeCancel);
      return true;
    }
    w.Take(l, SleepOver);
    cancelled := false;
  }

  // ---------------------------------------------------------------- the loop

  /** Between two turns of the loop, or right after a drain. */
  predicate Steady(p: Loop, cursor: int, waiting: bool, backoff: nat) {
    && p.cursor == cursor && p.ready == !waiting && p.backoff == backoff
  }

  /** After a successful drain: readiness is signalled and the delay reset. */
  method SignalReady(w: Machine, l: nat)
    requires w.Valid() && l < |w.s.loops| && w.s.loops[l].pc == Drained
    modifies w
    ensures w.Valid() && old(w.trace) <= w.trace && Later(old(w.s), |old(w.script)|, w.s, |w.script|, l)
    ensures w.Faults() == old(w.Faults())
    ensures w.s.loops[l].pc == Wait && w.script == old(w.script)
    ensures Steady(w.s.loops[l], old(w.s).loops[l].cursor, false, Backoff.RECONNECT_BACKOFF_START)
  {
    hide Machine.Valid, Awaits, Played, Rest, Reply, Extends;
    w.Take(l, Settle);
  }

  /** The inner loop: every wake triggers a catch-up; a failed one, or the end of the stream, breaks out. */
  method Watch(w: Machine, l: nat, owner: AgentId, cursor: Cursor) returns (exit: Option<Exit>)
    requires w.Valid() && l < |w.s.loops| && w.s.loops[l].pc == Wait && w.s.loops[l].agent == owner
    requires cursor.value == w.s.loops[l].cursor && w.s.loops[l].ready
    requires w.s.loops[l].backoff == Backoff.RECONNECT_BACKOFF_START
    modifies w, cursor
    ensures w.Valid() && old(w.trace) <= w.trace && Later(old(w.s), |old(w.script)|, w.s, |w.script|, l)
    ensures old(w.Faults()) <= w.Faults()
    ensures Steady(w.s.loops[l], cursor.value, false, Backoff.RECONNECT_BACKOFF_START)
    ensures exit.None? ==>
      w.s.loops[l].pc == Failed && |w.script| < Pending(old(w.s).loops[l]) + |old(w.script)|
    ensures exit.None? ==> old(w.Faults()) < w.Faults() || w.s.loops[l].stream == Live(0, true)
    ensures exit != Some(Returned(false))
    ensures exit.Some? ==> Exits(w.s, |w.script|, l, exit.value)
  {
    hide Machine.Valid, Awaits, Played, Rest, Reply, Extends, DrainedAll, Idle, Blocked, Pending;
    while true
      invariant w.Valid() && old(w.trace) <= w.trace && Later(old(w.s), |old(w.script)|, w.s, |w.script|, l)
      invariant w.s.loops[l].pc == Wait && old(w.Faults()) <= w.Faults()
      invariant Steady(w.s.loops[l], cursor.value, false, Backoff.RECONNECT_BACKOFF_START)
      decreases Pending(w.s.loops[l]) + |w.script|
    {
      var selected := Select(w, l);
      match selected {
        case SawCancel =>
          return Some(Returned(true));
        case Asleep =>
          return Some(Halted);
        case SawEnd =>
          return None;
        case SawWake =>
          var r := CatchUp.CatchUp(w, l, owner, cursor);
          match r {
            case Suspended => return Some(Halted);
            case Erred => return None;
            case Finished => SignalReady(w, l);
          }
      }
    }
  }

  /** How the task can end. */
  predicate Exits(s: State, k: nat, l: nat, exit: Exit) {
    && l < |s.loops| && s.loops[l].home < |s.coals|
    && match exit
       case Returned(true) => s.loops[l].pc == Done(true) && s.loops[l].ready && s.coals[s.loops[l].home].cancelled
       case Returned(false) => s.loops[l].pc == Done(false) && !s.loops[l].ready
       case Halted => k == 0 && (Idle(s, l) || Blocked(s, l))
  }

  /** After a failed subscribe or drain, or a broken stream: give up during start-up, else reconnect. */
  method Recover(w: Machine, l: nat, waiting: bool) returns (exit: Option<Exit>)
    requires w.Valid() && l < |w.s.loops| && w.s.loops[l].pc == Failed && w.s.loops[l].ready == !waiting
    modifies w
    ensures w.Valid() && old(w.trace) <= w.trace && Later(old(w.s), |old(w.script)|, w.s, |w.script|, l)
    ensures old(w.Faults()) <= w.Faults()
    ensures exit == Some(Returned(false)) <==> waiting
    ensures exit.Some? ==> Exits(w.s, |w.script|, l, exit.value)
    ensures exit.None? ==> !waiting && w.s.loops[l].pc == Subscribe && Pending(w.s.loops[l]) == 0
    ensures exit.None? ==>
      Steady(w.s.loops[l], old(w.s).loops[l].cursor, waiting, Backoff.Next(old(w.s).loops[l].backoff))
  {
    hide Machine.Valid, Awaits, Played, Rest, Reply, Extends;
    if waiting {
      w.Take(l, GiveUp);
      return Some(Returned(false));
    }
    var cancelled := CancelOrSleep(w, l);
    exit := if cancelled then Some(Returned(true)) else None;
  }

  // What catch-up leaves of the loop's other state.
  lemma OnwardKeeps(s: State, n: nat, t: State, k: nat, l: nat)
    requires Onward(s, n, t, k, l)
    ensures l < |s.loops| && l < |t.loops| && t.loops[l].agent == s.loops[l].agent
    ensures t.batch == s.batch && t.loops[l].home == s.loops[l].home && k <= n
    ensures t.loops[l].ready == s.loops[l].ready && t.loops[l].backoff == s.loops[l].backoff
    ensures Pending(t.loops[l]) + k <= Pending(s.loops[l]) + n
  {
  }

  /** One connection: subscribe, drain, and watch until something forces a reconnect. */
  method Connection(w: Machine, l: nat, owner: AgentId, cursor: Cursor, waiting: bool, backoff: nat)
    returns (exit: Option<Exit>, drained: bool)
    requires w.Valid() && l < |w.s.loops| && w.s.loops[l].pc == Subscribe && w.s.loops[l].agent == owner
    requires Steady(w.s.loops[l], cursor.value, waiting, backoff)
    modifies w, cursor
    ensures w.Valid() && old(w.trace) <= w.trace && Later(old(w.s), |old(w.script)|, w.s, |w.script|, l)
    ensures old(w.Faults()) <= w.Faults()
    ensures exit.Some? ==> Exits(w.s, |w.script|, l, exit.value)
    ensures exit.None? ==>
      old(w.Faults()) < w.Faults() || (drained && w.s.loops[l].stream == Live(0, true))
    ensures exit != Some(Returned(false))
    ensures exit.None? ==>
      && w.s.loops[l].pc == Failed && |w.script| < Pending(old(w.s).loops[l]) + |old(w.script)|
      && Steady(w.s.loops[l], cursor.value, waiting && !drained,
                if drained then Backoff.RECONNECT_BACKOFF_START else backoff)
  {
    hide Machine.Valid, Awaits, Played, Rest, Reply, Extends, DrainedAll, Idle, Blocked, Pending, Onward, Due,
        SameFeed, Show;
    drained := false;
    var subscribed := LiveSelect(w, l);
    if !subscribed {
      return None, false;
    }
    ghost var s, n := w.s, |w.script|;
    var r := CatchUp.CatchUp(w, l, owner, cursor);
    OnwardKeeps(s, n, w.s, |w.script|, l);
    w.InStage(l);
    match r {
      case Suspended => return Some(Halted), false;
      case Erred => return None, false;
      case Finished =>
        SignalReady(w, l);
        exit := Watch(w, l, owner, cursor);
        drained := true;
    }
  }

  /** The task of one agent. It returns Ok only when cancelled after readiness, Err only for a failure
      before readiness; otherwise it reconnects for as long as the run goes on. */
  method Serve(w: Machine, l: nat) returns (exit: Exit)
    requires w.Valid() && l < |w.s.loops| && w.s.loops[l].pc == Load
    modifies w
    ensures w.Valid() && old(w.trace) <= w.trace
    ensures Exits(w.s, |w.script|, l, exit)
    ensures exit == Returned(false) ==> old(w.Faults()) < w.Faults()
  {
    hide Machine.Valid, Awaits, Played, Rest, Reply, Extends, Idle, Blocked, Pending;
    w.InStage(l);
    w.AtPace(l);
    var owner := w.s.loops[l].agent;
    var ok, start, _, _ := StartCursor(w, l);
    if !ok {
      var failed := Recover(w, l, true);
      return failed.value;
    }
    var cursor := new Cursor(start);
    var waiting := true;
    var backoff := Backoff.RECONNECT_BACKOFF_START;
    while true
      invariant w.Valid() && old(w.trace) <= w.trace && l < |w.s.loops|
      invariant w.s.loops[l].pc == Subscribe && w.s.loops[l].agent == owner
      invariant old(w.Faults()) <= w.Faults()
      invariant Steady(w.s.loops[l], cursor.value, waiting, backoff)
      decreases Pending(w.s.loops[l]) + |w.script|
    {
      var left, drained := Connection(w, l, owner, cursor, waiting, backoff);
      if left.Some? {
        return left.value;
      }
      if drained {
        waiting := false;
        backoff := Backoff.RECONNECT_BACKOFF_START;
      }
      left := Recover(w, l, waiting);
      if left.Some? {
        return left.value;
      }
      backoff := Backoff.Next(backoff);
    }
  }

  /** The task, with what it has done by the time it ends or the script does: it has forwarded the filtered
      log from its start cursor, and if it is idle nothing retained is left for it to read. */
  method Listen(w: Machine, l: nat) returns (exit: Exit)
    requires w.Valid() && l < |w.s.loops| && w.s.loops[l].pc == Load
    modifies w
    ensures w.Valid() && old(w.trace) <= w.trace
    ensures Exits(w.s, |w.script|, l, exit)
    ensures exit == Returned(false) ==> old(w.Faults()) < w.Faults()
    ensures var p := w.s.loops[l]; p.forwarded + p.todo == Due(w.s.log, p, p.start, p.next)
    ensures Idle(w.s, l) || exit.Returned? ==>
      var p := w.s.loops[l]; p.forwarded == Due(w.s.log, p, p.start, p.cursor)
    ensures Idle(w.s, l) ==> forall t | w.s.trunc <= t < |w.s.log| && w.s.loops[l].cursor <= w.s.log[t].vs ::
      Owned(w.s.loops[l].agent, w.s.log[t]) == []
  {
    exit := Serve(w, l);
    assert Reaches(w.s.batch, w.trace, w.s);
    hide Machine.Valid, Reaches, Extends;
    ExactForwarding(w.s.batch, w.trace, w.s, l);
    if Idle(w.s, l) {
      forall t | w.s.trunc <= t < |w.s.log| && w.s.loops[l].cursor <= w.s.log[t].vs
        ensures Owned(w.s.loops[l].agent, w.s.log[t]) == []
      {
        NoLostWakeUp(w.s.batch, w.trace, w.s, l, t);
      }
    }
  }
}
