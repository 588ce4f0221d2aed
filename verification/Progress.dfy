// Start-up within the bus's capacity: until `new` returns there is always something left to do, by it or by
// a loop it waits for, and only so much of it.

module Progress {
  import opened Wire
  import opened Protocol
  import opened LoopInvariant
  import opened Coverage
  import opened Bus
  import opened Sums
  import opened Guarantees
  import opened Shutdown
  import opened Startup

  /** `new` is still spawning its loops or waiting for them to become ready. */
  predicate Starting(c: Coalition) {
    c.phase == Creating || c.phase.Shaking?
  }

  /** What brings the start-up of coalition `c` forward: a step of `new`, or of a loop that is not ready. */
  predicate Advances(s: State, a: Action, c: nat) {
    || a == Spawn(c) || a == Handshake(c) || a == Return(c) || (a.Await? && a.c == c)
    || (a.Step? && a.l < |s.loops| && s.loops[a.l].home == c && !s.loops[a.l].ready && Own(a.e))
  }

  /** An outcome that is no failure of the database and no elapsed timeout. */
  predicate Smooth(a: Action) {
    && (a.Step? ==> !a.e.QueryFails? && !a.e.Crash? && (a.e.Persist? ==> a.e.ok))
    && (a.Await? ==> a.outcome != TimedOut)
  }

  // ---------------------------------------------------------------- there is something to do

  lemma UnreadyCanStep(s: State, l: nat) returns (e: Event)
    requires Formed(s) && l < |s.loops| && Stage(s.loops[l]) && !s.loops[l].ready && !Ended(s.loops[l])
    requires s.loops[l].pc == Forward && s.loops[l].todo != [] ==> Can(s, l, Send)
    ensures Can(s, l, e) && Own(e) && Smooth(Step(l, e))
  {
    match s.loops[l].pc {
      case Load => e := LoadOk;
      case Snap => e := SnapshotOk;
      case SaveStart => e := Persist(true, true);
      case Subscribe => e := SubscribeOk;
      case Read => e := ReadOk;
      case Forward => e := if s.loops[l].todo == [] then Advance else Send;
      case Save => e := Persist(true, true);
      case Drained => e := Settle;
      case Failed => e := GiveUp;
      case _ =>
    }
  }

  // While the replays of a coalition fit the bus, its `new` or one of its loops can always take a step that
  // is no failure; if none has failed so far, that step is no report of a failure either.
  lemma NewNeverStuck(batch: nat, acts: seq<Action>, s: State, c: nat) returns (a: Action)
    requires Reaches(batch, acts, s) && c < |s.coals| && Starting(s.coals[c])
    requires Sum(s.loops, Replay(c, s.log)) <= 256
    ensures Formed(s) && Enabled(s, a) && Advances(s, a, c) && Smooth(a)
    ensures AllSound(s, c) ==> a != Await(c, Dropped)
  {
    ReachesInv(batch, acts, s);
    BusHolds(s, c);
    var x := s.coals[c];
    if x.phase == Creating {
      a := if |x.members| < |x.names| then Spawn(c) else Handshake(c);
    } else if x.phase.awaited == |x.members| {
      a := Return(c);
    } else {
      a := AwaitedStep(batch, acts, s, c, x.members[x.phase.awaited]);
    }
  }

  lemma AwaitedStep(batch: nat, acts: seq<Action>, s: State, c: nat, l: nat) returns (a: Action)
    requires Reaches(batch, acts, s) && Formed(s) && c < |s.coals| && s.coals[c].phase.Shaking?
    requires Sum(s.loops, Replay(c, s.log)) <= INBOX_CAPACITY
    requires s.coals[c].phase.awaited < |s.coals[c].members| && l == s.coals[c].members[s.coals[c].phase.awaited]
    requires l < |s.loops| && s.loops[l].home == c
    ensures Enabled(s, a) && Advances(s, a, c) && Smooth(a)
    ensures AllSound(s, c) ==> a != Await(c, Dropped)
  {
    LoopHolds(batch, acts, s, l);
    if s.loops[l].ready {
      a := Await(c, Signalled);
    } else if Ended(s.loops[l]) {
      a := Await(c, Dropped);
    } else {
      if s.loops[l].pc == Forward && s.loops[l].todo != [] {
        StartupNeverBlocks(batch, acts, s, c, l);
      }
      var e := UnreadyCanStep(s, l);
      a := Step(l, e);
    }
  }

  // A send that fits the bus is not what a loop is stuck at.
  lemma StuckSend(batch: nat, acts: seq<Action>, s: State, c: nat, l: nat)
    requires Reaches(batch, acts, s) && c < |s.coals| && s.coals[c].phase == Unwinding
    requires Sum(s.loops, Replay(c, s.log)) <= INBOX_CAPACITY
    requires l < |s.loops| && s.loops[l].home == c && s.loops[l].pc == Forward
    ensures Formed(s) && (Can(s, l, Send) || Can(s, l, Advance))
  {
    LoopHolds(batch, acts, s, l);
    if s.loops[l].todo != [] {
      StartupNeverBlocks(batch, acts, s, c, l);
    }
  }

  lemma UnwindingStep(batch: nat, acts: seq<Action>, s: State, c: nat, l: nat) returns (e: Event)
    requires Reaches(batch, acts, s) && c < |s.coals| && s.coals[c].phase == Unwinding
    requires Sum(s.loops, Replay(c, s.log)) <= INBOX_CAPACITY
    requires l < |s.loops| && Cancelled(s, l) && s.loops[l].home == c && !Ended(s.loops[l])
    ensures Formed(s) && Enabled(s, Step(l, e)) && Own(e) && !e.Crash?
  {
    e := ShutdownNeverStuck(batch, acts, s, l);
    if !Can(s, l, e) {
      StuckSend(batch, acts, s, c, l);
      e := if Can(s, l, Send) then Send else Advance;
    }
  }

  // A loop the error path still waits for.
  lemma UnwindingMember(s: State, c: nat) returns (l: nat)
    requires Inv(s) && c < |s.coals| && s.coals[c].phase == Unwinding && !AllEnded(s, c)
    ensures Formed(s) && l < |s.loops| && Cancelled(s, l) && s.loops[l].home == c && !Ended(s.loops[l])
  {
    BusHolds(s, c);
    hide Inv, Traffic;
    var i :| 0 <= i < |s.coals[c].members| && !Ended(s.loops[s.coals[c].members[i]]);
    l := s.coals[c].members[i];
  }

  // The error path: as long as the replays fit, a loop it waits for can take a step, until all have ended
  // and `new` returns the error. ShutdownDrains bounds those steps.
  lemma UnwindingNeverStuck(batch: nat, acts: seq<Action>, s: State, c: nat) returns (a: Action)
    requires Reaches(batch, acts, s) && c < |s.coals| && s.coals[c].phase == Unwinding
    requires Sum(s.loops, Replay(c, s.log)) <= 256
    ensures Formed(s) && Enabled(s, a)
    ensures a == Unwound(c) || (a.Step? && s.loops[a.l].home == c && Own(a.e) && !a.e.Crash?)
  {
    ReachesInv(batch, acts, s);
    if AllEnded(s, c) {
      a := Unwound(c);
    } else {
      a := UnwindingAct(batch, acts, s, c);
    }
  }

  lemma UnwindingAct(batch: nat, acts: seq<Action>, s: State, c: nat) returns (a: Action)
    requires Reaches(batch, acts, s) && Formed(s) && c < |s.coals| && s.coals[c].phase == Unwinding && !AllEnded(s, c)
    requires Sum(s.loops, Replay(c, s.log)) <= 256
    ensures Enabled(s, a) && a.Step? && s.loops[a.l].home == c && Own(a.e) && !a.e.Crash?
  {
    ReachesInv(batch, acts, s);
    hide *;
    var l := UnwindingMember(s, c);
    var e := UnwindingStep(batch, acts, s, c, l);
    a := Step(l, e);
  }

  // ---------------------------------------------------------------- and only so much of it

  /** The work left until a loop is ready. */
  function LoopWork(s: State, l: nat): nat
    requires Formed(s) && l < |s.loops|
  {
    if s.loops[l].ready then 0 else Weight(s.log, s.trunc, s.loops[l])
  }

  /** The work left until the `k`-th name of the coalition is ready: none once it is. */
  function NameWeight(s: State, c: nat, k: nat): nat
    requires Formed(s) && c < |s.coals| && k < |s.coals[c].names|
  {
    if k < |s.coals[c].members| then LoopWork(s, s.coals[c].members[k])
    else Weight(s.log, s.trunc, Spawned(s.coals[c].names[k], c)) + 1
  }

  function NamesWeight(s: State, c: nat, n: nat): nat
    requires Formed(s) && c < |s.coals| && n <= |s.coals[c].names|
  {
    if n == 0 then 0 else NamesWeight(s, c, n - 1) + NameWeight(s, c, n - 1)
  }

  /** The steps `new` itself still has to take. */
  function ClientRank(c: Coalition): nat {
    match c.phase
    case Creating => |c.names| + 2
    case Shaking(awaited) => if awaited <= |c.names| then |c.names| - awaited + 1 else 1
    case _ => 0
  }

  function StartWeight(s: State, c: nat): nat
    requires Formed(s) && c < |s.coals|
  {
    NamesWeight(s, c, |s.coals[c].names|) + ClientRank(s.coals[c])
  }

  /** What an action can add to the work of one agent, and of the first `n` names. */
  function Adding(agent: AgentId, a: Action): nat {
    if a.Commit? then 3 + |Owned(agent, a.cs)| else 0
  }

  function AddingAll(names: seq<AgentId>, a: Action, n: nat): nat
    requires n <= |names|
  {
    if n == 0 then 0 else AddingAll(names, a, n - 1) + Adding(names[n - 1], a)
  }

  lemma FreshNext(s: State, a: Action, agent: AgentId, c: nat)
    requires Good(s) && Enabled(s, a)
    ensures Next(s, a).trunc <= |Next(s, a).log|
    ensures Weight(Next(s, a).log, Next(s, a).trunc, Spawned(agent, c))
         <= Weight(s.log, s.trunc, Spawned(agent, c)) + Adding(agent, a)
  {
    NextFormed(s, a);
    NextLog(s, a);
    var p := Spawned(agent, c);
    hide Next, Weight, Good;
    match a {
      case Commit(cs, _) => CommitWeight(s.log, s.trunc, p, p, cs);
      case Truncate(upto) => TruncateWeight(s.log, s.trunc, p, p, upto);
      case _ =>
    }
  }

  /** The action is a step of loop `l` before it is ready. */
  predicate StepsUnready(s: State, a: Action, l: nat) {
    a.Step? && a.l == l && l < |s.loops| && !s.loops[l].ready && Own(a.e)
  }

  lemma LoopWorkNext(s: State, a: Action, l: nat)
    requires Good(s) && Enabled(s, a) && l < |s.loops|
    ensures Formed(Next(s, a)) && l < |Next(s, a).loops|
    ensures LoopWork(Next(s, a), l) + (if StepsUnready(s, a, l) then 1 else 0)
         <= LoopWork(s, l) + Adding(s.loops[l].agent, a)
  {
    NextFormed(s, a);
    if s.loops[l].ready {
      NextReady(s, a);
    } else {
      WeightNext(s, a, l);
    }
  }

  // What an action leaves of a coalition that is still starting afterwards.
  lemma StartingNext(s: State, a: Action, c: nat)
    requires Formed(s) && Enabled(s, a) && c < |s.coals|
    ensures c < |Next(s, a).coals|
    ensures var x, y := s.coals[c], Next(s, a).coals[c];
            && y.names == x.names && y.members == (if a == Spawn(c) then x.members + [|s.loops|] else x.members)
            && (a == Spawn(c) ==> |x.members| < |x.names|)
            && (Starting(y) ==>
                  && Starting(x) && a != Return(c)
                  && ClientRank(y) + (if a == Handshake(c) || (a.Await? && a.c == c) then 1 else 0) <= ClientRank(x))
  {
    hide LoopAfter;
  }

  /** The name whose work the action reduces, if any. */
  predicate Hits(s: State, a: Action, c: nat, k: nat)
    requires Formed(s) && c < |s.coals|
  {
    if k < |s.coals[c].members| then StepsUnready(s, a, s.coals[c].members[k])
    else a == Spawn(c) && k == |s.coals[c].members|
  }

  lemma NameNext(s: State, a: Action, c: nat, k: nat)
    requires Inv(s) && Enabled(s, a) && Formed(Next(s, a)) && c < |s.coals| && k < |s.coals[c].names|
    ensures c < |Next(s, a).coals| && Next(s, a).coals[c].names == s.coals[c].names
    ensures NameWeight(Next(s, a), c, k) + (if Hits(s, a, c, k) then 1 else 0)
         <= NameWeight(s, c, k) + Adding(s.coals[c].names[k], a)
  {
    StartingNext(s, a, c);
    NextLoopCount(s, a);
    var x := s.coals[c];
    BusHolds(s, c);
    assert Good(s);
    hide Inv, Traffic, Phased, Next, Good, Weight, Starting, ClientRank;
    if k < |x.members| {
      assert s.loops[x.members[k]].agent == x.names[k];
      hide Enrolled, LoopWork;
      LoopWorkNext(s, a, x.members[k]);
    } else {
      FreshNext(s, a, x.names[k], c);
      NextLog(s, a);
    }
  }

  lemma {:induction false} NamesNext(s: State, t: State, a: Action, c: nat, n: nat, h: nat)
    requires Formed(s) && Formed(t) && c < |s.coals| && c < |t.coals| && t.coals[c].names == s.coals[c].names
    requires n <= |s.coals[c].names|
    requires forall k | 0 <= k < n ::
      NameWeight(t, c, k) + (if k == h then 1 else 0) <= NameWeight(s, c, k) + Adding(s.coals[c].names[k], a)
    ensures NamesWeight(t, c, n) + (if h < n then 1 else 0) <= NamesWeight(s, c, n) + AddingAll(s.coals[c].names, a, n)
  {
    hide Formed, NameWeight, Adding;
    if n > 0 {
      NamesNext(s, t, a, c, n - 1, h);
    }
  }

  // A step of an unready loop of the coalition is the step of one of its names.
  lemma StepHits(s: State, a: Action, c: nat) returns (k: nat)
    requires Inv(s) && c < |s.coals| && Enabled(s, a) && Advances(s, a, c)
    requires a == Spawn(c) || a.Step?
    ensures Formed(s) && k < |s.coals[c].names| && Hits(s, a, c, k)
  {
    BusHolds(s, c);
    hide Inv, Traffic, Phased;
    if a == Spawn(c) {
      k := |s.coals[c].members|;
    } else {
      assert a.l in s.coals[c].members;
      k :| 0 <= k < |s.coals[c].members| && s.coals[c].members[k] == a.l;
    }
  }

  // Everything that advances a start-up lowers its weight, and only commits raise it.
  lemma StartWeightNext(s: State, a: Action, c: nat)
    requires Inv(s) && Enabled(s, a) && Formed(Next(s, a)) && c < |s.coals|
    ensures c < |Next(s, a).coals| && Next(s, a).coals[c].names == s.coals[c].names
    ensures Starting(Next(s, a).coals[c]) ==>
      && Starting(s.coals[c])
      && StartWeight(Next(s, a), c) + (if Advances(s, a, c) then 1 else 0)
         <= StartWeight(s, c) + AddingAll(s.coals[c].names, a, |s.coals[c].names|)
  {
    StartingNext(s, a, c);
    var n := |s.coals[c].names|;
    if Starting(Next(s, a).coals[c]) {
      var h := n;
      if Advances(s, a, c) && (a == Spawn(c) || a.Step?) {
        h := StepHits(s, a, c);
      }
      hide Inv, Next, NamesWeight, NameWeight, Hits, ClientRank, AddingAll, Adding, Advances, Starting;
      forall k | 0 <= k < n
        ensures NameWeight(Next(s, a), c, k) + (if k == h then 1 else 0)
             <= NameWeight(s, c, k) + Adding(s.coals[c].names[k], a)
      {
        NameNext(s, a, c, k);
      }
      NamesNext(s, Next(s, a), a, c, n, h);
    }
  }

  // ---------------------------------------------------------------- whole runs

  /** How often a run has advanced the start-up of coalition `c`. */
  function Advanced(s: State, acts: seq<Action>, c: nat): nat
    requires Formed(s)
  {
    if acts == [] then 0
    else
      var init := acts[..|acts| - 1];
      Advanced(s, init, c) +
      match Run(s, init)
      case Some(m) => if Advances(m, acts[|acts| - 1], c) then 1 else 0
      case None => 0
  }

  /** What the commits of a run can add to the start-up of agents `names`. */
  function AddedWork(names: seq<AgentId>, acts: seq<Action>): nat {
    if acts == [] then 0
    else AddedWork(names, acts[..|acts| - 1]) + AddingAll(names, acts[|acts| - 1], |names|)
  }

  lemma {:induction false} StartUpBounded(s: State, acts: seq<Action>, c: nat)
    requires Inv(s) && Run(s, acts).Some? && c < |s.coals|
    ensures var u := Run(s, acts).value;
            && c < |u.coals| && u.coals[c].names == s.coals[c].names
            && (Starting(u.coals[c]) ==>
                  Advanced(s, acts, c) + StartWeight(u, c) <= StartWeight(s, c) + AddedWork(s.coals[c].names, acts))
  {
    if acts != [] {
      var init, a := acts[..|acts| - 1], acts[|acts| - 1];
      StartUpBounded(s, init, c);
      InvRun(s, init);
      RunLast(s, acts);
      hide Inv, Next, Enabled, StartWeight, Starting, Advances;
      StartWeightNext(Run(s, init).value, a, c);
    }
  }

  lemma {:induction false} RunConcat(batch: nat, before: seq<Action>, s: State, acts: seq<Action>)
    requires Reaches(batch, before, s) && Formed(s) && Run(s, acts).Some?
    ensures Reaches(batch, before + acts, Run(s, acts).value)
  {
    if acts == [] {
      assert before + acts == before;
    } else {
      var init := acts[..|acts| - 1];
      RunConcat(batch, before, s, init);
      RunLast(s, acts);
      assert before + acts == before + init + [acts[|acts| - 1]];
      hide Next, Enabled;
      RunOne(Init(batch), before + init, acts[|acts| - 1]);
    }
  }

  // The lower side of the threshold: as long as the replays of a coalition fit its bus, a `new` that has
  // not returned can always advance, without a failure, and over any run it advances less often than its
  // weight and the commits allow for. So it returns; above the threshold it never does.
  lemma NewReturns(batch: nat, before: seq<Action>, s: State, c: nat, acts: seq<Action>, u: State) returns (a: Action)
    requires Reaches(batch, before, s) && c < |s.coals|
    requires Formed(s) && Run(s, acts) == Some(u)
    requires c < |u.coals| && Starting(u.coals[c]) && Sum(u.loops, Replay(c, u.log)) <= 256
    ensures Formed(u) && Enabled(u, a) && Advances(u, a, c) && Smooth(a)
    ensures AllSound(u, c) ==> a != Await(c, Dropped)
    ensures Advanced(s, acts, c) < StartWeight(s, c) + AddedWork(s.coals[c].names, acts)
  {
    ReachesInv(batch, before, s);
    StartUpBounded(s, acts, c);
    RunConcat(batch, before, s, acts);
    hide Inv, Run, Enabled, Advances, Smooth;
    a := NewNeverStuck(batch, before + acts, u, c);
  }
}
