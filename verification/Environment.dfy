// The environment of the running code: the global state, changed only by actions of the protocol. What
// the other tasks, the database and the callers do is an arbitrary finite script; the trace records
// every action taken, so that whatever holds of all runs holds of the imperative code.

module Environment {
  import opened Feed
  import opened Protocol
  import opened LoopInvariant
  import opened Coverage
  import opened Bus
  import opened Guarantees
  import opened Shutdown
  import Backoff

  /** One move of the environment: an action of somebody else, or the answer to the pending await:
      whether it succeeds and, for a write that fails, whether it was applied all the same. */
  datatype Move = Act(a: Action) | Answer(ok: bool, applied: bool)

  /** Whose await it is: a listen loop's, or the creator of a coalition's. */
  datatype Party = Task(l: nat) | Client(c: nat)

  /** Actions the environment may take while the party is suspended. */
  predicate Foreign(a: Action, who: Party) {
    match who
    case Task(l) => a.Step? && a.l == l ==> !Own(a.e)
    case Client(c) => (OwnAction(a) && !a.DropReceivers?) || a.Spawn? ==> a.c != c
  }

  /** What stays as it is while a party is suspended: a loop keeps all but its stream and what the feed
      loses to it; a coalition keeps its members and its phase. */
  predicate Undisturbed(s: State, t: State, who: Party) {
    && Extends(s, t) && t.batch == s.batch && s.log <= t.log && s.trunc <= t.trunc && |s.coals| <= |t.coals|
    && match who
       case Task(l) => l < |s.loops| ==>
         l < |t.loops| && SameTask(s.loops[l], t.loops[l]) && (Cancelled(s, l) ==> Cancelled(t, l))
       case Client(c) => c < |s.coals| ==> SameStanding(s.coals[c], t.coals[c])
  }

  predicate SameStanding(x: Coalition, y: Coalition) {
    y.names == x.names && y.members == x.members && y.phase == x.phase && y.cancelled == x.cancelled
  }

  predicate SameTask(p: Loop, q: Loop) {
    q == p.(stream := q.stream, lost := q.lost) && q.stream.Live? == p.stream.Live? && LostAbove(p, q)
  }

  /** Whatever was lost since lies at or above what the loop had read. */
  predicate LostAbove(p: Loop, q: Loop) {
    p.lost <= q.lost && forall v | v in q.lost && v !in p.lost :: p.next <= v
  }

  /** Wake-ups and breaks a loop has still to react to. */
  function Pending(p: Loop): nat {
    match p.stream
    case NoStream => 0
    case Live(queued, broken) => queued + (if broken then 1 else 0)
  }

  /** Unread changesets of a loop. */
  function UnreadCount(s: State, l: nat): nat
    requires Formed(s) && l < |s.loops|
  {
    Remaining(s.log, s.trunc, s.loops[l].next)
  }

  // ---------------------------------------------------------------- the script

  /** The answer the script gives to the pending await: its next one, success if there is none left. */
  function Reply(script: seq<Move>): (r: Move)
    ensures r.Answer?
  {
    if script == [] then Answer(true, true)
    else if script[0].Answer? then script[0]
    else Reply(script[1..])
  }

  /** The script after that answer. */
  function Rest(script: seq<Move>): seq<Move> {
    if script == [] then []
    else if script[0].Answer? then script[1..]
    else Rest(script[1..])
  }

  /** The state once everybody else has acted, up to that answer: every action that is enabled and theirs. */
  function Played(s: State, script: seq<Move>, who: Party): (t: State)
    requires Formed(s)
    ensures Formed(t)
    decreases |script|
  {
    if script == [] || script[0].Answer? then s
    else
      var a := script[0].a;
      if Enabled(s, a) && Foreign(a, who) then NextFormed(s, a); Played(Next(s, a), script[1..], who)
      else Played(s, script[1..], who)
  }

  /** The script and the state after `n` awaits without any step of the party in between. */
  function WaitedRest(script: seq<Move>, n: nat): seq<Move> {
    if n == 0 then script else Rest(WaitedRest(script, n - 1))
  }

  function Waited(s: State, script: seq<Move>, who: Party, n: nat): (t: State)
    requires Formed(s)
    ensures Formed(t)
  {
    if n == 0 then s else Played(Waited(s, script, who, n - 1), WaitedRest(script, n - 1), who)
  }

  lemma WaitedNone(s: State, script: seq<Move>, who: Party)
    requires Formed(s)
    ensures Waited(s, script, who, 0) == s && WaitedRest(script, 0) == script
  {
  }

  lemma WaitedMore(s: State, script: seq<Move>, who: Party, n: nat)
    requires Formed(s)
    ensures Waited(s, script, who, n + 1) == Played(Waited(s, script, who, n), WaitedRest(script, n), who)
    ensures WaitedRest(script, n + 1) == Rest(WaitedRest(script, n))
  {
  }

  /** From `s` to `t` by one await of loop `l`, as the script has it, and then its step `e`. */
  predicate Awaits(s: State, script: seq<Move>, l: nat, e: Event, t: State)
    requires Formed(s)
  {
    var m := Played(s, script, Task(l));
    l < |m.loops| && Can(m, l, e) && t == AfterStep(m, l, e)
  }

  // The others may do anything that is not the party's own: commit, truncate, consume, cancel, drop receivers,
  // run their loops and coalitions, and wake or break the party's stream.
  lemma OthersAreFree(a: Action, l: nat, c: nat)
    ensures Foreign(a, Task(l)) <==> !a.Step? || a.l != l || a.e == Nudge || a.e == Break
    ensures a.Commit? || a.Truncate? || a.Open? || a.Consume? || a.DropReceivers? || a.Step? ==> Foreign(a, Client(c))
    ensures a == Spawn(l) || a == Handshake(l) || a == Return(l) || a == Unwound(l) || a == Cancel(l) || a == Abandon(l)
            ==> (Foreign(a, Client(c)) <==> l != c)
  {
  }

  /** How many of the moves are failing answers. */
  function Failing(moves: seq<Move>): nat {
    if moves == [] then 0
    else
      var last := moves[|moves| - 1];
      Failing(moves[..|moves| - 1]) + if last.Answer? && !last.ok then 1 else 0
  }

  predicate IsRest(script: seq<Move>, moves: seq<Move>) {
    |script| <= |moves| && script == moves[|moves| - |script|..]
  }

  /** How many answers have failed by the time `script` is left of `moves`. */
  function Failures(moves: seq<Move>, script: seq<Move>): nat {
    if |script| <= |moves| then Failing(moves[..|moves| - |script|]) else 0
  }

  lemma OneMove(moves: seq<Move>, script: seq<Move>)
    requires IsRest(script, moves) && script != []
    ensures IsRest(script[1..], moves)
    ensures Failures(moves, script[1..])
         == Failures(moves, script) + if script[0].Answer? && !script[0].ok then 1 else 0
  {
    var k := |moves| - |script|;
    assert moves[..k + 1][..k] == moves[..k] && moves[..k + 1][k] == script[0];
  }

  // ---------------------------------------------------------------- foreign actions

  lemma ForeignTask(s: State, a: Action, l: nat)
    requires Formed(s) && Enabled(s, a) && Foreign(a, Task(l)) && l < |s.loops|
    ensures SameTask(s.loops[l], LoopNext(s, a, l))
    ensures Pending(LoopNext(s, a, l)) <= Pending(s.loops[l]) + 1
  {
  }

  lemma ForeignClient(s: State, a: Action, c: nat)
    requires Formed(s) && Enabled(s, a) && Foreign(a, Client(c)) && c < |s.coals|
    ensures c < |Next(s, a).coals|
    ensures SameStanding(s.coals[c], Next(s, a).coals[c])
  {
  }

  lemma CoalitionsGrow(s: State, a: Action)
    requires Formed(s) && Enabled(s, a)
    ensures |s.coals| <= |Next(s, a).coals|
  {
  }

  lemma ForeignStep(s: State, a: Action, who: Party)
    requires Inv(s) && Enabled(s, a) && Foreign(a, who)
    ensures Undisturbed(s, Next(s, a), who)
  {
    NextExtends(s, a);
    NextLog(s, a);
    CoalitionsGrow(s, a);
    ForeignKeepsParty(s, a, who);
  }

  lemma ForeignKeepsParty(s: State, a: Action, who: Party)
    requires Formed(s) && Enabled(s, a) && Foreign(a, who)
    ensures who.Task? && who.l < |s.loops| ==>
      && who.l < |Next(s, a).loops| && SameTask(s.loops[who.l], Next(s, a).loops[who.l])
      && (Cancelled(s, who.l) ==> Cancelled(Next(s, a), who.l))
    ensures who.Client? && who.c < |s.coals| ==>
      who.c < |Next(s, a).coals| && SameStanding(s.coals[who.c], Next(s, a).coals[who.c])
  {
    match who {
      case Task(l) =>
        if l < |s.loops| {
          NextLoop(s, a, l);
          ForeignTask(s, a, l);
          if Cancelled(s, l) { CancelledNext(s, a, l); }
        }
      case Client(c) =>
        if c < |s.coals| { ForeignClient(s, a, c); }
    }
  }

  // What a loop's own step leaves of the state.
  lemma OwnStepFacts(s: State, l: nat, e: Event)
    requires Formed(s) && l < |s.loops| && Can(s, l, e)
    ensures var t, h := AfterStep(s, l, e), s.loops[l].home;
            && |t.loops| == |s.loops| && t.loops[l] == LoopAfter(s, l, e) && t.loops[l].home == h
            && t.log == s.log && t.trunc == s.trunc && t.batch == s.batch
            && |t.coals| == |s.coals| && t.coals[h].cancelled == s.coals[h].cancelled
            && t.disk == (if e.Persist? && e.applied then s.disk[s.loops[l].agent := s.loops[l].cursor] else s.disk)
  {
    StepFace(s, l, e);
  }

  lemma UndisturbedTransitive(s: State, m: State, t: State, who: Party)
    requires Undisturbed(s, m, who) && Undisturbed(m, t, who)
    ensures Undisturbed(s, t, who)
  {
    ExtendsTransitive(s, m, t);
  }

  lemma UndisturbedSelf(s: State, who: Party)
    requires Good(s)
    ensures Undisturbed(s, s, who)
  {
    ExtendsItself(s);
  }

  // A commit adds at most one unread changeset, and nothing else adds any.
  lemma UnreadStep(s: State, a: Action, l: nat)
    requires Good(s) && Enabled(s, a) && Foreign(a, Task(l)) && l < |s.loops|
    ensures Formed(Next(s, a)) && l < |Next(s, a).loops|
    ensures UnreadCount(Next(s, a), l) <= UnreadCount(s, l) + 1
  {
    hide Next, LoopNext, Foreign;
    NextFormed(s, a);
    NextLog(s, a);
    NextLoop(s, a, l);
    ForeignTask(s, a, l);
    var c := s.loops[l].next;
    if a.Commit? {
      KnownStage(s, l);
      FirstAtUnique(s.log + [a.cs], s.trunc, c, FirstAt(s.log, s.trunc, c));
    }
  }

  class Machine {
    var s: State
    var script: seq<Move>
    ghost const moves: seq<Move>   // the whole script
    ghost var trace: seq<Action>

    /** How many answers have failed so far. */
    ghost function Faults(): nat
      reads this
    {
      Failures(moves, script)
    }

    /** The state is what the recorded run leads to, and the script is what is left of the whole. */
    ghost predicate Valid()
      reads this
      ensures Valid() ==> 1 <= s.batch && Formed(s)
    {
      Inv(s) && Reaches(s.batch, trace, s) && IsRest(script, moves)
    }

    lemma InStage(l: nat)
      requires Valid() && l < |s.loops|
      ensures s.trunc <= |s.log| && Sorted(s.log) && s.loops[l].home < |s.coals| && Stage(s.loops[l])
    {
      assert LoopInv(s.batch, s.log, s.trunc, s.loops[l]);
    }

    lemma AtPace(l: nat)
      requires Valid() && l < |s.loops|
      ensures Pace(s.loops[l])
      ensures s.loops[l].pc == Load ==> s.loops[l].backoff == Backoff.RECONNECT_BACKOFF_START
    {
      assert LoopInv(s.batch, s.log, s.trunc, s.loops[l]);
      Backoff.AfterStep(0);
    }

    lemma Reached()
      requires Valid()
      ensures Reaches(s.batch, trace, s)
    {
    }

    lemma Holds(l: nat)
      requires Valid() && l < |s.loops|
      ensures Sorted(s.log) && s.loops[l].home < |s.coals|
      ensures Stage(s.loops[l]) && LostOk(s.log, s.trunc, s.loops[l]) && LiveEdge(s.log, s.loops[l])
      ensures NoLostWake(s.log, s.loops[l]) && Exact(s.batch, s.log, s.loops[l])
    {
      assert LoopInv(s.batch, s.log, s.trunc, s.loops[l]);
    }

    constructor (batch: nat, script: seq<Move>)
      requires 1 <= batch
      ensures Valid() && s == Init(batch) && this.script == script && trace == [] && Faults() == 0
    {
      s := Init(batch);
      this.script, moves := script, script;
      trace := [];
      new;
      InvInit(batch);
    }

    /** Take one enabled action. */
    method Do(a: Action)
      requires Valid() && Enabled(s, a)
      modifies this
      ensures Valid() && s == Next(old(s), a) && trace == old(trace) + [a]
      ensures script == old(script) && Faults() == old(Faults())
    {
      InvNext(s, a);
      RunOne(Init(s.batch), trace, a);
      NextLog(s, a);
      s := Next(s, a);
      trace := trace + [a];
    }

    /** A step of loop `l` itself. */
    method Take(l: nat, e: Event)
      requires Valid() && l < |s.loops| && Can(s, l, e)
      modifies this
      ensures Valid() && script == old(script) && Faults() == old(Faults()) && trace == old(trace) + [Step(l, e)]
      ensures s == AfterStep(old(s), l, e)
      ensures |s.loops| == |old(s).loops| && s.loops[l] == LoopAfter(old(s), l, e)
      ensures s.log == old(s).log && s.trunc == old(s).trunc && s.batch == old(s).batch
      ensures s.disk == (if e.Persist? && e.applied
                         then old(s).disk[old(s).loops[l].agent := old(s).loops[l].cursor] else old(s).disk)
      ensures s.loops[l].home == old(s).loops[l].home
      ensures s.coals[s.loops[l].home].cancelled == old(s).coals[s.loops[l].home].cancelled
    {
      OwnStepFacts(s, l, e);
      Do(Step(l, e));
    }

    /** Let somebody else make the next move of the script, if it is theirs and enabled. */
    method Play(who: Party)
      requires Valid() && script != [] && script[0].Act?
      requires who.Task? ==> who.l < |s.loops|
      modifies this
      ensures Valid() && Undisturbed(old(s), s, who) && old(trace) <= trace && Faults() == old(Faults())
      ensures script == old(script)[1..] && Played(s, script, who) == Played(old(s), old(script), who)
      ensures who.Task? ==> who.l < |s.loops|
      ensures who.Task? ==>
        && UnreadCount(s, who.l) <= UnreadCount(old(s), who.l) + 1
        && Pending(s.loops[who.l]) <= Pending(old(s).loops[who.l]) + 1
    {
      ExtendsItself(s);
      hide Inv, Reaches, Extends, Next, Pending, LostAbove, IsRest, Failures;
      var a := script[0].a;
      OneMove(moves, script);
      script := script[1..];
      if Enabled(s, a) && Foreign(a, who) {
        ForeignStep(s, a, who);
        if who.Task? {
          UnreadStep(s, a, who.l);
          NextLoop(s, a, who.l);
          ForeignTask(s, a, who.l);
        }
        Do(a);
      }
    }

    /** Let everybody else act until the next answer. */
    method PlayOn(who: Party)
      requires Valid()
      requires who.Task? ==> who.l < |s.loops|
      modifies this
      ensures Valid() && Undisturbed(old(s), s, who) && old(trace) <= trace && Faults() == old(Faults())
      ensures s == Played(old(s), old(script), who) && (script == [] || script[0].Answer?)
      ensures Rest(script) == Rest(old(script)) && Reply(script) == Reply(old(script))
      ensures |script| <= |old(script)| && (old(script) == [] ==> trace == old(trace))
      ensures |script| == |old(script)| ==> script == old(script)
      ensures who.Task? ==> who.l < |s.loops|
      ensures who.Task? ==>
        && UnreadCount(s, who.l) + |script| <= UnreadCount(old(s), who.l) + |old(script)|
        && Pending(s.loops[who.l]) + |script| <= Pending(old(s).loops[who.l]) + |old(script)|
    {
      UndisturbedSelf(s, who);
      hide Inv, Reaches, Extends, Next, Pending, UnreadCount, IsRest, Failures, Enabled, Foreign, Undisturbed;
      while script != [] && script[0].Act?
        invariant Valid() && Undisturbed(old(s), s, who) && old(trace) <= trace && Faults() == old(Faults())
        invariant Played(s, script, who) == Played(old(s), old(script), who)
        invariant Rest(script) == Rest(old(script)) && Reply(script) == Reply(old(script))
        invariant |script| <= |old(script)| && (old(script) == [] ==> trace == old(trace))
        invariant |script| == |old(script)| ==> script == old(script)
        invariant who.Task? ==> who.l < |s.loops|
        invariant who.Task? ==>
          && UnreadCount(s, who.l) + |script| <= UnreadCount(old(s), who.l) + |old(script)|
          && Pending(s.loops[who.l]) + |script| <= Pending(old(s).loops[who.l]) + |old(script)|
        decreases |script|
      {
        ghost var m := s;
        Play(who);
        UndisturbedTransitive(old(s), m, s, who);
      }
    }

    /** Suspend at an await: others act, then the await is answered. At the end of the script every await
        is answered with success. */
    method Pause(who: Party) returns (ok: bool, applied: bool)
      requires Valid()
      requires who.Task? ==> who.l < |s.loops|
      modifies this
      ensures Valid() && Undisturbed(old(s), s, who) && old(trace) <= trace
      ensures s == Played(old(s), old(script), who) && script == Rest(old(script))
      ensures ok == Reply(old(script)).ok && applied == (ok || Reply(old(script)).applied)
      ensures Faults() == old(Faults()) + if ok then 0 else 1
      ensures |script| <= |old(script)| && (old(script) != [] ==> |script| < |old(script)|)
      ensures !ok ==> |script| < |old(script)|
      ensures ok ==> applied
      ensures old(script) == [] ==> s == old(s) && trace == old(trace)
      ensures who.Task? ==>
        && UnreadCount(s, who.l) + |script| <= UnreadCount(old(s), who.l) + |old(script)|
        && Pending(s.loops[who.l]) + |script| <= Pending(old(s).loops[who.l]) + |old(script)|
        && (!ok ==> Pending(s.loops[who.l]) + |script| < Pending(old(s).loops[who.l]) + |old(script)|)
    {
      hide Inv, Reaches, Extends, Next, Pending, UnreadCount, IsRest, Failures, Undisturbed;
      PlayOn(who);
      if script == [] {
        return true, true;
      }
      ok, applied := script[0].ok, script[0].ok || script[0].applied;
      OneMove(moves, script);
      script := script[1..];
    }
  }
}
