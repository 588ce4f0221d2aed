// Start-up handshake and shutdown of a coalition, as run by its creator while its loops, the database and
// everybody else are the environment.

module Coalitions {
  import opened Wire
  import opened Protocol
  import opened Guarantees
  import opened Startup
  import opened Environment

  /** How `new` ends: with the coalition, with a handshake error, with the early error of an agent that
      cannot be created, or still suspended when the script ends. */
  datatype Creation = Ready | HandshakeFailed(outcome: Outcome) | NotCreated | Unfinished

  /** `new` is running: all loops are spawned and the first `i` have signalled. */
  predicate Awaiting(s: State, c: nat, names: seq<AgentId>, i: nat) {
    c < |s.coals| && s.coals[c].names == names && |s.coals[c].members| == |names| && s.coals[c].phase == Shaking(i)
  }

  // ---------------------------------------------------------------- waiting for a loop, and for all of them

  /** What the loop awaited as the `i`-th has come to. */
  predicate Came(s: State, c: nat, i: nat, outcome: Outcome) {
    && c < |s.coals| && i < |s.coals[c].members| && s.coals[c].members[i] < |s.loops|
    && Resolves(s.loops[s.coals[c].members[i]], outcome)
  }

  lemma AwaitKeeps(s: State, c: nat, i: nat, names: seq<AgentId>, outcome: Outcome)
    requires Formed(s) && Awaiting(s, c, names, i) && i < |names| && Came(s, c, i, outcome)
    ensures Enabled(s, Await(c, outcome))
    ensures var t := Next(s, Await(c, outcome));
            && Came(t, c, i, outcome)
            && (if outcome == Signalled then Awaiting(t, c, names, i + 1)
                else c < |t.coals| && t.coals[c].phase == Unwinding && t.coals[c].cancelled)
  {
  }

  /** Take note of what has come of the loop; any error cancels the coalition's token. */
  method Conclude(w: Machine, c: nat, i: nat, names: seq<AgentId>, outcome: Outcome)
    requires w.Valid() && Awaiting(w.s, c, names, i) && i < |names| && Came(w.s, c, i, outcome)
    modifies w
    ensures w.Valid() && old(w.trace) <= w.trace && w.script == old(w.script) && w.Faults() == old(w.Faults())
    ensures Enabled(old(w.s), Await(c, outcome)) && w.s == Next(old(w.s), Await(c, outcome))
    ensures Came(w.s, c, i, outcome)
    ensures outcome == Signalled ==> Awaiting(w.s, c, names, i + 1)
    ensures outcome != Signalled ==> c < |w.s.coals| && w.s.coals[c].phase == Unwinding && w.s.coals[c].cancelled
  {
    AwaitKeeps(w.s, c, i, names, outcome);
    hide Machine.Valid, Next, Enabled, Came, Awaiting;
    w.Do(Await(c, outcome));
  }

  /** await_ready: the signal, the dropped sender, or the timeout, whichever comes first. A failing answer is
      the timer running out. */
  method AwaitReady(w: Machine, c: nat, i: nat, names: seq<AgentId>)
    returns (outcome: Option<Outcome>, ghost n: nat)
    requires w.Valid() && Awaiting(w.s, c, names, i) && i < |names|
    modifies w
    ensures w.Valid() && old(w.trace) <= w.trace && |w.script| <= |old(w.script)|
    ensures outcome == Some(Signalled) ==> Awaiting(w.s, c, names, i + 1)
    ensures outcome == Some(Dropped) || outcome == Some(TimedOut) ==>
      c < |w.s.coals| && w.s.coals[c].phase == Unwinding && w.s.coals[c].cancelled
    ensures outcome.Some? ==> Came(w.s, c, i, outcome.value)
    ensures outcome.None? ==> Awaiting(w.s, c, names, i) && w.script == [] && Came(w.s, c, i, TimedOut)
    ensures outcome == Some(TimedOut) ==> w.Faults() == old(w.Faults()) + 1
    ensures outcome.None? ==> w.Faults() == old(w.Faults())
    ensures old(w.Faults()) <= w.Faults() <= old(w.Faults()) + 1
    ensures forall j | 0 <= j < n :: Came(Waited(old(w.s), old(w.script), Client(c), j), c, i, TimedOut)
    ensures var t := Waited(old(w.s), old(w.script), Client(c), n);
            if outcome.Some? then Enabled(t, Await(c, outcome.value)) && w.s == Next(t, Await(c, outcome.value))
            else w.s == t
  {
    hide Machine.Valid, Extends, Played, Rest, Reply, Waited, WaitedRest, Next, Enabled;
    WaitedNone(w.s, w.script, Client(c));
    n := 0;
    outcome := None;
    var elapsed := false;
    while outcome.None?
      invariant w.Valid() && old(w.trace) <= w.trace && |w.script| <= |old(w.script)|
      invariant Awaiting(w.s, c, names, i)
      invariant w.Faults() == old(w.Faults()) + if elapsed then 1 else 0
      invariant w.s == Waited(old(w.s), old(w.script), Client(c), n) && w.script == WaitedRest(old(w.script), n)
      invariant forall j | 0 <= j < n :: Came(Waited(old(w.s), old(w.script), Client(c), j), c, i, TimedOut)
      invariant outcome.Some? ==> Came(w.s, c, i, outcome.value) && (outcome == Some(TimedOut) ==> elapsed)
      decreases |w.script|, !elapsed, outcome.None?
    {
      var p := w.s.loops[w.s.coals[c].members[i]];
      if p.ready {
        outcome := Some(Signalled);
      } else if Ended(p) {
        outcome := Some(Dropped);
      } else if elapsed {
        outcome := Some(TimedOut);
      } else if w.script == [] {
        return None, n;
      } else {
        WaitedMore(old(w.s), old(w.script), Client(c), n);
        var ok, _ := w.Pause(Client(c));
        n, elapsed := n + 1, !ok;
      }
    }
    Conclude(w, c, i, names, outcome.value);
  }

  lemma ExtendsNow(w: Machine)
    requires w.Valid()
    ensures Extends(w.s, w.s)
  {
    ExtendsItself(w.s);
  }

  /** The task tracker still has a loop to wait for. */
  predicate Running(s: State, c: nat) {
    Formed(s) && c < |s.coals| && !AllEnded(s, c)
  }

  /** `task_tracker.wait()`: until every loop has ended, and no longer. */
  method WaitAll(w: Machine, c: nat) returns (done: bool, ghost n: nat)
    requires w.Valid() && c < |w.s.coals|
    modifies w
    ensures w.Valid() && old(w.trace) <= w.trace && c < |w.s.coals| && SameStanding(old(w.s).coals[c], w.s.coals[c])
    ensures Extends(old(w.s), w.s) && old(w.Faults()) <= w.Faults()
    ensures done <==> AllEnded(w.s, c)
    ensures !done ==> w.script == []
    ensures w.s == Waited(old(w.s), old(w.script), Client(c), n)
    ensures forall j | 0 <= j < n :: Running(Waited(old(w.s), old(w.script), Client(c), j), c)
  {
    hide Machine.Valid, Extends, Played, Rest, Reply, Waited, WaitedRest;
    ghost var s, script := w.s, w.script;
    WaitedNone(s, script, Client(c));
    ExtendsNow(w);
    n := 0;
    while !AllEnded(w.s, c)
      invariant w.Valid() && old(w.trace) <= w.trace && c < |w.s.coals| && SameStanding(old(w.s).coals[c], w.s.coals[c])
      invariant Extends(old(w.s), w.s) && old(w.Faults()) <= w.Faults()
      invariant w.s == Waited(old(w.s), old(w.script), Client(c), n) && w.script == WaitedRest(old(w.script), n)
      invariant forall j | 0 <= j < n :: Running(Waited(old(w.s), old(w.script), Client(c), j), c)
      decreases |w.script|
    {
      if w.script == [] {
        return false, n;
      }
      ghost var m := w.s;
      WaitedMore(s, script, Client(c), n);
      var _, _ := w.Pause(Client(c));
      n := n + 1;
      ExtendsTransitive(old(w.s), m, w.s);
    }
    done := true;
  }

  // ---------------------------------------------------------------- new

  /** The creation failed at some name: exactly those before it have loops and are registered. */
  predicate Partly(s: State, c: nat, names: seq<AgentId>, registry: set<AgentId>) {
    && c < |s.coals| && s.coals[c].names == names && |s.coals[c].members| < |names|
    && registry == set n | n in names[..|s.coals[c].members|]
  }

  /** Create or reuse the next agent record and spawn its loop; on an error `new` returns at once. */
  method Create(w: Machine, c: nat) returns (created: bool)
    requires w.Valid() && c < |w.s.coals| && w.s.coals[c].phase == Creating
    requires |w.s.coals[c].members| < |w.s.coals[c].names|
    modifies w
    ensures w.Valid() && old(w.trace) <= w.trace && c < |w.s.coals|
    ensures created == Reply(old(w.script)).ok && w.Faults() == old(w.Faults()) + if created then 0 else 1
    ensures var x, y := old(w.s).coals[c], w.s.coals[c];
            && y.names == x.names
            && (created ==> |y.members| == |x.members| + 1 && y.phase == Creating)
            && (!created ==> y.members == x.members && y.phase == Abandoned && !y.receivers)
  {
    hide Machine.Valid, Extends, Played, Rest, Reply;
    var ok, _ := w.Pause(Client(c));
    created := ok;
    w.Do(if created then Spawn(c) else Abandon(c));
  }

  /** Create or reuse each agent record and spawn its loop. */
  method SpawnAll(w: Machine, names: seq<AgentId>) returns (ok: bool, c: nat, registry: set<AgentId>)
    requires w.Valid()
    modifies w
    ensures w.Valid() && old(w.trace) <= w.trace && c < |w.s.coals|
    ensures ok ==> Awaiting(w.s, c, names, 0) && registry == set n | n in names
    ensures w.Faults() == old(w.Faults()) + if ok then 0 else 1
    ensures !ok ==> w.s.coals[c].phase == Abandoned && !w.s.coals[c].receivers && Partly(w.s, c, names, registry)
  {
    hide Machine.Valid, Extends, Played, Rest, Reply;
    registry := {};
    w.Do(Open(names));
    c := |w.s.coals| - 1;
    for i := 0 to |names|
      invariant w.Valid() && old(w.trace) <= w.trace && c < |w.s.coals|
      invariant w.s.coals[c].names == names && |w.s.coals[c].members| == i && w.s.coals[c].phase == Creating
      invariant registry == set n | n in names[..i]
      invariant w.Faults() == old(w.Faults())
    {
      var created := Create(w, c);
      if !created {
        return false, c, registry;
      }
      registry := registry + {names[i]};
      assert names[..i + 1] == names[..i] + [names[i]];
    }
    assert names[..|names|] == names;
    w.Do(Handshake(c));
    ok := true;
  }

  /** Why the handshake failed: a loop that ended without becoming ready, or the timeout; never a signal. */
  predicate Cause(s: State, c: nat, outcome: Outcome) {
    match outcome
    case Signalled => false
    case Dropped => c < |s.coals| && exists i | 0 <= i < |s.coals[c].members| :: Came(s, c, i, Dropped)
    case TimedOut => true
  }

  /** The error path of the handshake: the token is cancelled already; wait for every loop, and return. */
  method Unwind(w: Machine, c: nat, i: nat, outcome: Outcome) returns (done: bool)
    requires w.Valid() && c < |w.s.coals| && w.s.coals[c].phase == Unwinding && w.s.coals[c].cancelled
    requires outcome != Signalled && Came(w.s, c, i, outcome)
    modifies w
    ensures w.Valid() && old(w.trace) <= w.trace && c < |w.s.coals| && old(w.Faults()) <= w.Faults()
    ensures done ==>
      && w.s.coals[c].phase == ReturnedErr && w.s.coals[c].cancelled && AllEnded(w.s, c) && Cause(w.s, c, outcome)
    ensures !done ==> w.script == [] && NotReturned(w.s.coals[c])
  {
    hide Machine.Valid, Extends, Came, Cause;
    ghost var m := w.s;
    var all, _ := WaitAll(w, c);
    done := all;
    if done {
      StillDropped(m, w.s, c, i);
      UnwoundCause(w.s, c, i, outcome);
      w.Do(Unwound(c));
    }
  }

  /** Coalition::new: spawn, await every loop in order, and on any handshake error cancel, close and wait. */
  method New(w: Machine, names: seq<AgentId>) returns (r: Creation, c: nat, registry: set<AgentId>)
    requires w.Valid()
    modifies w
    ensures w.Valid() && old(w.trace) <= w.trace && c < |w.s.coals|
    ensures r.Ready? ==>
      && w.s.coals[c].phase == ReturnedOk && w.s.coals[c].names == names
      && registry == set n | n in names
    ensures r.Ready? ==>
      && |w.s.coals[c].members| == |names| && w.Valid()
      && forall m | 0 <= m < |names| :: w.s.loops[w.s.coals[c].members[m]].ready
    ensures r.HandshakeFailed? ==> w.s.coals[c].phase == ReturnedErr && w.s.coals[c].cancelled && AllEnded(w.s, c)
    ensures r.HandshakeFailed? ==> Cause(w.s, c, r.outcome) && (r.outcome == TimedOut ==> old(w.Faults()) < w.Faults())
    ensures r.NotCreated? ==>
      && w.s.coals[c].phase == Abandoned && !w.s.coals[c].receivers
      && Partly(w.s, c, names, registry) && old(w.Faults()) < w.Faults()
    ensures r.Unfinished? ==> w.script == [] && NotReturned(w.s.coals[c])
  {
    hide Machine.Valid, Extends, Came, Cause, Partly;
    ghost var faults := w.Faults();
    var ok;
    ok, c, registry := SpawnAll(w, names);
    if !ok {
      return NotCreated, c, registry;
    }
    for i := 0 to |names|
      invariant w.Valid() && old(w.trace) <= w.trace
      invariant Awaiting(w.s, c, names, i) && registry == set n | n in names
      invariant faults <= w.Faults()
    {
      var outcome, _ := AwaitReady(w, c, i, names);
      if outcome.None? {
        return Unfinished, c, registry;
      }
      if outcome.value != Signalled {
        var done := Unwind(w, c, i, outcome.value);
        return if done then HandshakeFailed(outcome.value) else Unfinished, c, registry;
      }
    }
    w.Do(Return(c));
    ReturnMeans(w.s.batch, w.trace, w.s, c);
    r := Ready;
  }

  // A loop that had ended unready has not become ready since.
  lemma StillDropped(s: State, t: State, c: nat, i: nat)
    requires Extends(s, t) && c < |s.coals| && c < |t.coals| && SameStanding(s.coals[c], t.coals[c])
    ensures Came(s, c, i, Dropped) ==> Came(t, c, i, Dropped)
  {
  }

  lemma UnwoundCause(s: State, c: nat, i: nat, outcome: Outcome)
    requires Formed(s) && Enabled(s, Unwound(c)) && outcome != Signalled
    requires outcome == Dropped ==> Came(s, c, i, Dropped)
    ensures Cause(Next(s, Unwound(c)), c, outcome)
  {
    assert outcome == Dropped ==> Came(Next(s, Unwound(c)), c, i, Dropped);
  }

  // ---------------------------------------------------------------- shutdown

  /** Coalition::shutdown: cancel, close, wait. The bus is then closed as soon as it has been read empty. */
  method ShutDown(w: Machine, c: nat) returns (done: bool)
    requires w.Valid() && c < |w.s.coals| && w.s.coals[c].phase == ReturnedOk
    modifies w
    ensures w.Valid() && old(w.trace) + [Cancel(c)] <= w.trace && c < |w.s.coals| && w.s.coals[c].cancelled
    ensures done ==> AllEnded(w.s, c) && (Closed(w.s.coals[c]) <==> w.s.coals[c].queue == [])
    ensures !done ==> w.script == [] && !AllEnded(w.s, c)
  {
    w.Do(Cancel(c));
    var all, _ := WaitAll(w, c);
    done := all;
    ClosureIff(w.s.batch, w.trace, w.s, c);
  }
}
