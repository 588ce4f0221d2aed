// Start-up and the bounded bus: nobody can read the inbox before `new` returns, so the bus capacity is a
// sharp threshold on how much the agents of a coalition may have to replay.

module Startup {
  import opened Wire
  import opened Feed
  import opened Protocol
  import opened LoopInvariant
  import opened Coverage
  import opened Bus
  import opened Sums
  import opened Guarantees
  import opened Shutdown

  predicate NotReturned(c: Coalition) {
    c.phase == Creating || c.phase.Shaking? || c.phase == Unwinding
  }

  /** What a loop of coalition `i` has to replay of the log as it stands. */
  function Replay(i: nat, log: Log): Loop -> nat {
    (p: Loop) => if p.home == i && p.begun then |OwnedAll(p.agent, Window(log, p.start, NextVs(log), p.lost))| else 0
  }

  /** What a loop of coalition `i` had to replay when it began. */
  function Inherited(i: nat, log: Log): Loop -> nat {
    (p: Loop) => if p.home == i && p.begun && p.born <= |log|
      then |OwnedAll(p.agent, Window(log[..p.born], p.start, NextVs(log[..p.born]), p.lost))| else 0
  }

  // ---------------------------------------------------------------- below the threshold

  lemma HandedWithinReplay(batch: nat, log: Log, p: Loop, i: nat)
    requires Sorted(log) && Exact(batch, log, p) && Stage(p)
    ensures Handed(i)(p) + (if p.home == i then |p.todo| else 0) <= Replay(i, log)(p)
  {
    if p.home == i && p.begun {
      WindowSplit(log, p.start, p.next, NextVs(log), p.lost);
      OwnedAllConcat(p.agent, Window(log, p.start, p.next, p.lost), Window(log, p.next, NextVs(log), p.lost));
    }
  }

  lemma UnreadBus(batch: nat, acts: seq<Action>, s: State, c: nat)
    requires Reaches(batch, acts, s) && c < |s.coals| && NotReturned(s.coals[c])
    ensures s.coals[c].receivers && |s.coals[c].queue| == Sum(s.loops, Handed(c)) <= INBOX_CAPACITY
  {
    hide Good, AllCovered, Run, Enrolled, Accepts;
    ReachesInv(batch, acts, s);
    assert Traffic(s.loops, c, s.coals[c]) && Roster(s.loops, c, s.coals[c]);
    assert s.coals[c].history == s.coals[c].queue;
  }

  // A loop has handed over at most what it has to replay, and less while it has a message in hand.
  lemma HandedBelow(s: State, c: nat, l: nat)
    requires Good(s) && l < |s.loops|
    ensures Handed(c)(s.loops[l]) <= Replay(c, s.log)(s.loops[l])
    ensures s.loops[l].home == c && s.loops[l].todo != [] ==> Handed(c)(s.loops[l]) < Replay(c, s.log)(s.loops[l])
  {
    Known(s, l);
    hide Good, LostOk, Pace, LiveEdge, NoLostWake;
    HandedWithinReplay(s.batch, s.log, s.loops[l], c);
  }

  lemma SumBelow(s: State, c: nat, l: nat)
    requires Good(s) && l < |s.loops| && s.loops[l].home == c && s.loops[l].todo != []
    ensures Sum(s.loops, Handed(c)) < Sum(s.loops, Replay(c, s.log))
  {
    hide Good, Sum;
    forall k | 0 <= k < |s.loops|
      ensures Handed(c)(s.loops[k]) <= Replay(c, s.log)(s.loops[k])
      ensures k == l ==> Handed(c)(s.loops[k]) < Replay(c, s.log)(s.loops[k])
    {
      HandedBelow(s, c, k);
    }
    SumMonoStrict(s.loops, s.loops, Handed(c), Replay(c, s.log), l);
  }

  // If what all loops of a coalition have to replay fits the bus, no start-up send ever blocks.
  lemma StartupNeverBlocks(batch: nat, acts: seq<Action>, s: State, c: nat, l: nat)
    requires Reaches(batch, acts, s) && c < |s.coals| && NotReturned(s.coals[c])
    requires Sum(s.loops, Replay(c, s.log)) <= 256
    requires l < |s.loops| && s.loops[l].home == c && s.loops[l].pc == Forward && s.loops[l].todo != []
    ensures Formed(s) && Can(s, l, Send)
  {
    ReachesInv(batch, acts, s);
    UnreadBus(batch, acts, s, c);
    SumBelow(s, c, l);
  }

  // ---------------------------------------------------------------- above the threshold

  /** No loop of the coalition loses a change to truncation that it still has to read. */
  predicate SparesUnread(s: State, upto: nat, c: nat) {
    forall l, t | 0 <= l < |s.loops| && s.loops[l].home == c && s.loops[l].begun
                  && s.trunc <= t < upto && t < |s.log| ::
      s.log[t].vs < s.loops[l].next
  }

  /** No database failure or crash hits the coalition, `new` is not dropped, and the feed is truncated only
      where the coalition has read it. */
  predicate Healthy(s: State, a: Action, c: nat) {
    && a != Abandon(c) && (a.Truncate? ==> SparesUnread(s, a.upto, c))
    && (a.Step? && a.l < |s.loops| && s.loops[a.l].home == c ==>
          !a.e.QueryFails? && !a.e.Crash? && (a.e.Persist? ==> a.e.ok))
  }

  /** The loop has never given up before its first drain. */
  predicate Sound(p: Loop) {
    p.pc != Dead && (p.pc == Failed || p.pc.Done? ==> p.ready)
  }

  predicate AllSound(s: State, c: nat) {
    forall l | 0 <= l < |s.loops| && s.loops[l].home == c :: Sound(s.loops[l])
  }

  predicate HealthyRun(s: State, acts: seq<Action>, c: nat)
    requires Formed(s)
  {
    acts == [] ||
    (HealthyRun(s, acts[..|acts| - 1], c) &&
     match Run(s, acts[..|acts| - 1])
     case Some(m) => Enabled(m, acts[|acts| - 1]) && Healthy(m, acts[|acts| - 1], c)
     case None => false)
  }

  lemma SoundStep(s: State, l: nat, e: Event, c: nat)
    requires Formed(s) && l < |s.loops| && Can(s, l, e) && Healthy(s, Step(l, e), c) && s.loops[l].home == c
    requires Sound(s.loops[l]) && Stage(s.loops[l])
    ensures Sound(LoopAfter(s, l, e))
  {
  }

  lemma SoundLoop(s: State, a: Action, c: nat, l: nat)
    requires Formed(s) && Enabled(s, a) && Healthy(s, a, c) && l < |s.loops| && Stage(s.loops[l])
    requires s.loops[l].home == c ==> Sound(s.loops[l])
    ensures LoopNext(s, a, l).home == c ==> Sound(LoopNext(s, a, l))
  {
    if a.Step? && a.l == l {
      StepFace(s, l, a.e);
      if s.loops[l].home == c { SoundStep(s, l, a.e, c); }
      hide LoopAfter;
    }
  }

  lemma SoundNext(s: State, a: Action, c: nat)
    requires Good(s) && Enabled(s, a) && Healthy(s, a, c) && AllSound(s, c)
    ensures AllSound(Next(s, a), c)
  {
    assert Formed(s);
    hide Next, LoopNext, LoopAfter, Good, Stage, Healthy;
    NextLoopCount(s, a);
    forall l | 0 <= l < |Next(s, a).loops| && Next(s, a).loops[l].home == c ensures Sound(Next(s, a).loops[l]) {
      if l < |s.loops| {
        NextLoop(s, a, l);
        KnownStage(s, l);
        SoundLoop(s, a, c, l);
      }
    }
  }

  lemma {:induction false} WindowBound(log: Log, lo: int, hi: int, hi2: int, lost: set<int>)
    requires forall t | 0 <= t < |log| :: log[t].vs in lost || (log[t].vs < hi && log[t].vs < hi2)
    ensures Window(log, lo, hi, lost) == Window(log, lo, hi2, lost)
  {
    if log != [] {
      WindowBound(log[..|log| - 1], lo, hi, hi2, lost);
    }
  }

  lemma {:induction false} WindowPrefix(agent: AgentId, log: Log, b: nat, lo: int, hi: int, lost: set<int>)
    requires b <= |log|
    ensures |OwnedAll(agent, Window(log[..b], lo, hi, lost))| <= |OwnedAll(agent, Window(log, lo, hi, lost))|
  {
    if b == |log| {
      assert log[..b] == log;
    } else {
      var init := log[..|log| - 1];
      WindowPrefix(agent, init, b, lo, hi, lost);
      assert init[..b] == log[..b];
      OwnedAllConcat(agent, Window(init, lo, hi, lost), [log[|log| - 1]]);
    }
  }

  // A ready loop has handed over at least what it inherited.
  lemma InheritedHanded(batch: nat, log: Log, p: Loop, i: nat)
    requires Sorted(log) && Exact(batch, log, p) && LiveEdge(log, p) && p.ready
    ensures Inherited(i, log)(p) <= Handed(i)(p)
  {
    if p.home == i && p.begun {
      var prefix := log[..p.born];
      assert forall t | 0 <= t < |prefix| :: prefix[t].vs < NextVs(prefix);
      assert ReadUpTo(log, p, p.born, p.cursor);
      WindowBound(prefix, p.start, NextVs(prefix), p.cursor, p.lost);
      WindowPrefix(p.agent, log, p.born, p.start, p.cursor, p.lost);
    }
  }

  // When `new` is about to return, every loop it spawned has been ready.
  lemma MemberReady(s: State, c: nat, a: Action, l: nat)
    requires Inv(s) && c < |s.coals| && AllSound(s, c) && Enabled(s, a) && (a == Return(c) || a == Unwound(c))
    requires l < |s.loops| && s.loops[l].home == c
    ensures s.loops[l].ready
  {
    BusHolds(s, c);
    hide Inv, Traffic;
    assert l in s.coals[c].members;
    var i :| 0 <= i < |s.coals[c].members| && s.coals[c].members[i] == l;
  }

  // `new` can only return once everything its loops inherited is in the bus, unread.
  lemma ReturnNeedsRoom(batch: nat, acts: seq<Action>, s: State, c: nat, a: Action)
    requires Reaches(batch, acts, s) && c < |s.coals| && AllSound(s, c)
    requires Formed(s) && Enabled(s, a) && (a == Return(c) || a == Unwound(c))
    ensures Sum(s.loops, Inherited(c, s.log)) <= 256
  {
    ReachesInv(batch, acts, s);
    UnreadBus(batch, acts, s, c);
    assert Good(s) && Sorted(s.log);
    hide Run, Reaches;
    forall l | 0 <= l < |s.loops| ensures Inherited(c, s.log)(s.loops[l]) <= Handed(c)(s.loops[l]) {
      if s.loops[l].home == c {
        MemberReady(s, c, a, l);
        Known(s, l);
        InheritedHanded(s.batch, s.log, s.loops[l], c);
      }
    }
    SumMono(s.loops, s.loops, Inherited(c, s.log), Handed(c));
  }

  lemma BegunStep(s: State, l: nat, e: Event)
    requires Formed(s) && l < |s.loops| && Can(s, l, e) && s.loops[l].begun && Stage(s.loops[l])
    ensures var p, q := s.loops[l], LoopAfter(s, l, e);
            && q.begun && q.start == p.start && q.lost == p.lost && q.born == p.born
            && q.agent == p.agent && q.home == p.home
  {
  }

  lemma ForgetsNothing(s: State, upto: nat, l: nat, c: nat)
    requires s.trunc <= upto <= |s.log| && SparesUnread(s, upto, c) && l < |s.loops| && s.loops[l].home == c
    ensures Forget(s.loops[l], s.log, s.trunc, upto) == s.loops[l]
  {
    if s.loops[l].begun {
      assert StampsFrom(s.log, s.trunc, upto, s.loops[l].next) == {};
      assert s.loops[l].lost + {} == s.loops[l].lost;
    }
  }

  lemma NextLoopStays(s: State, a: Action, l: nat, c: nat)
    requires Good(s) && Enabled(s, a) && Healthy(s, a, c) && l < |s.loops|
    ensures var p, q := s.loops[l], LoopNext(s, a, l);
            && p.born <= |s.log| && q.agent == p.agent && q.home == p.home
            && (p.home == c && p.begun ==> q.begun && q.start == p.start && q.lost == p.lost && q.born == p.born)
  {
    assert LoopInv(s.batch, s.log, s.trunc, s.loops[l]);
    assert Stage(s.loops[l]) && LiveEdge(s.log, s.loops[l]);
    NextLoopGrows(s, a, l);
    if a.Step? && a.l == l && s.loops[l].begun {
      BegunStep(s, l, a.e);
    } else if a.Truncate? && s.loops[l].home == c {
      ForgetsNothing(s, a.upto, l, c);
    }
  }

  lemma InheritedStays(log: Log, longer: Log, p: Loop, q: Loop, c: nat)
    requires log <= longer && p.born <= |log|
    requires p.home == c && p.begun ==> q.begun && q.start == p.start && q.lost == p.lost && q.born == p.born
    requires q.agent == p.agent && q.home == p.home
    ensures Inherited(c, log)(p) <= Inherited(c, longer)(q)
  {
    assert longer[..p.born] == log[..p.born];
  }

  lemma InheritedNext(s: State, a: Action, c: nat)
    requires Good(s) && Enabled(s, a) && Healthy(s, a, c)
    ensures Sum(s.loops, Inherited(c, s.log)) <= Sum(Next(s, a).loops, Inherited(c, Next(s, a).log))
  {
    NextLoopCount(s, a);
    NextLog(s, a);
    forall l | 0 <= l < |s.loops|
      ensures Inherited(c, s.log)(s.loops[l]) <= Inherited(c, Next(s, a).log)(Next(s, a).loops[l])
    {
      NextLoop(s, a, l);
      NextLoopStays(s, a, l, c);
      InheritedStays(s.log, Next(s, a).log, s.loops[l], LoopNext(s, a, l), c);
    }
    SumMono(s.loops, Next(s, a).loops, Inherited(c, s.log), Inherited(c, Next(s, a).log));
  }

  lemma PhaseNext(s: State, a: Action, c: nat)
    requires Formed(s) && Enabled(s, a) && c < |s.coals| && NotReturned(s.coals[c]) && a != Abandon(c)
    ensures c < |Next(s, a).coals|
    ensures NotReturned(Next(s, a).coals[c]) || a == Return(c) || a == Unwound(c)
  {
  }

  /** A coalition whose `new` has not returned, with more inherited than its bus holds. */
  predicate Overcommitted(s: State, c: nat) {
    && c < |s.coals| && NotReturned(s.coals[c]) && AllSound(s, c)
    && 256 < Sum(s.loops, Inherited(c, s.log))
  }

  lemma OvercommittedStays(batch: nat, acts: seq<Action>, s: State, c: nat, a: Action)
    requires Reaches(batch, acts, s) && Overcommitted(s, c)
    requires Formed(s) && Enabled(s, a) && Healthy(s, a, c)
    ensures Overcommitted(Next(s, a), c)
  {
    ReachesInv(batch, acts, s);
    assert Good(s);
    hide Inv, Run, Good, Next, AllSound, NotReturned;
    if a == Return(c) || a == Unwound(c) {
      ReturnNeedsRoom(batch, acts, s, c, a);
    }
    SoundNext(s, a, c);
    InheritedNext(s, a, c);
    PhaseNext(s, a, c);
  }

  // If the loops of a coalition inherited more than the bus holds, then no continuation without database
  // failures ever lets `new` return, neither with Ok nor through its own error path.
  lemma {:induction false} StartupDeadlocks(batch: nat, before: seq<Action>, s: State, c: nat, acts: seq<Action>)
    requires Reaches(batch, before, s) && Overcommitted(s, c)
    requires Formed(s) && HealthyRun(s, acts, c)
    ensures Run(s, acts).Some? && Reaches(batch, before + acts, Run(s, acts).value)
    ensures Overcommitted(Run(s, acts).value, c)
  {
    hide Overcommitted, Next, Healthy;
    if acts == [] {
      assert before + acts == before;
    } else {
      var init, a := acts[..|acts| - 1], acts[|acts| - 1];
      StartupDeadlocks(batch, before, s, c, init);
      var m := Run(s, init).value;
      assert (before + acts)[..|before + acts| - 1] == before + init;
      OvercommittedStays(batch, before + init, m, c, a);
    }
  }

  // ---------------------------------------------------------------- a stalled loop

  /** `new` has not returned, and loop `l` of its coalition has neither ended nor become ready. */
  predicate Stalled(s: State, c: nat, l: nat) {
    && c < |s.coals| && NotReturned(s.coals[c])
    && l < |s.loops| && s.loops[l].home == c && !s.loops[l].ready && !Ended(s.loops[l])
  }

  predicate TakesNoStep(acts: seq<Action>, l: nat) {
    forall n | 0 <= n < |acts| :: acts[n].Step? && acts[n].l == l ==> !Own(acts[n].e)
  }

  // `new` goes on waiting for a member that has not ended and that it has not counted as ready.
  lemma WaitingClient(s: State, a: Action, c: nat, i: nat)
    requires Formed(s) && Enabled(s, a) && !a.Step? && c < |s.coals| && a != Abandon(c) && NotReturned(s.coals[c])
    requires i < |s.coals[c].members| && !Ended(s.loops[s.coals[c].members[i]])
    requires s.coals[c].phase.Shaking? ==> s.coals[c].phase.awaited <= i
    ensures c < |Next(s, a).coals| && NotReturned(Next(s, a).coals[c])
    ensures Next(s, a).coals[c].queue == s.coals[c].queue
  {
  }

  lemma StalledNext(s: State, a: Action, c: nat, l: nat)
    requires Inv(s) && Enabled(s, a) && Stalled(s, c, l) && a != Abandon(c)
    requires a.Step? && a.l == l ==> !Own(a.e)
    ensures Stalled(Next(s, a), c, l)
  {
    var i := MemberOf(s, c, l);
    NextLoop(s, a, l);
    StalledLoop(s, a, l);
    hide Inv, LoopNext, LoopAfter;
    if a.Step? {
      StepKeepsPhase(s, a.l, a.e, c);
    } else {
      WaitingClient(s, a, c, i);
    }
  }

  lemma MemberOf(s: State, c: nat, l: nat) returns (i: nat)
    requires Inv(s) && Stalled(s, c, l)
    ensures Formed(s) && i < |s.coals[c].members| && s.coals[c].members[i] == l
    ensures s.coals[c].phase.Shaking? ==> s.coals[c].phase.awaited <= i
  {
    BusHolds(s, c);
    hide Inv, Traffic;
    assert l in s.coals[c].members;
    i :| 0 <= i < |s.coals[c].members| && s.coals[c].members[i] == l;
  }

  lemma StalledLoop(s: State, a: Action, l: nat)
    requires Formed(s) && Enabled(s, a) && l < |s.loops| && (a.Step? && a.l == l ==> !Own(a.e))
    ensures var p, q := s.loops[l], LoopNext(s, a, l); q.home == p.home && q.ready == p.ready && q.pc == p.pc
  {
    hide Owned, StampsFrom;
  }

  lemma StepKeepsPhase(s: State, k: nat, e: Event, c: nat)
    requires Formed(s) && k < |s.loops| && Can(s, k, e) && c < |s.coals|
    ensures c < |Next(s, Step(k, e)).coals| && Next(s, Step(k, e)).coals[c].phase == s.coals[c].phase
  {
    hide LoopAfter;
  }

  // The readiness timeout does not bound `new`: while a loop that is neither ready nor ended takes no step,
  // as when a query of its never comes back, no run lets `new` return, timeouts included, short of its end.
  lemma {:induction false} StalledForGood(batch: nat, before: seq<Action>, s: State, c: nat, l: nat, acts: seq<Action>)
    requires Reaches(batch, before, s) && Stalled(s, c, l)
    requires Formed(s) && Run(s, acts).Some? && Abandon(c) !in acts && TakesNoStep(acts, l)
    ensures Stalled(Run(s, acts).value, c, l)
  {
    if acts != [] {
      var init, a := acts[..|acts| - 1], acts[|acts| - 1];
      StalledForGood(batch, before, s, c, l, init);
      ReachesInv(batch, before, s);
      InvRun(s, init);
      RunLast(s, acts);
      assert a in acts;
      hide Inv, Run, Next, Enabled, Stalled;
      StalledNext(Run(s, init).value, a, c, l);
    }
  }

  // ---------------------------------------------------------------- a full bus

  /** Its bus is full, and the loop is blocked sending to it. */
  predicate Jammed(s: State, c: nat, l: nat) {
    && Stalled(s, c, l) && |s.coals[c].queue| == 256
    && s.loops[l].pc == Forward && s.loops[l].todo != []
  }

  /** The member of the coalition that `new` is waiting for. */
  predicate Awaited(s: State, c: nat, l: nat, i: nat) {
    && Jammed(s, c, l) && s.coals[c].receivers && i < |s.coals[c].members| && s.coals[c].members[i] == l
    && (s.coals[c].phase.Shaking? ==> s.coals[c].phase.awaited <= i)
  }

  // `new` is still waiting for a loop that has neither ended nor become ready.
  lemma AwaitsMember(s: State, c: nat, l: nat) returns (i: nat)
    requires Inv(s) && Jammed(s, c, l)
    ensures Formed(s) && Awaited(s, c, l, i)
  {
    i := MemberOf(s, c, l);
    BusHolds(s, c);
    hide Inv, Traffic, Enrolled;
  }

  // Nothing enters a full bus.
  lemma FullBusStep(s: State, k: nat, e: Event, c: nat)
    requires Formed(s) && k < |s.loops| && Can(s, k, e) && c < |s.coals|
    requires s.coals[c].receivers && INBOX_CAPACITY <= |s.coals[c].queue|
    ensures var d := Next(s, Step(k, e)).coals[c]; d.queue == s.coals[c].queue && d.phase == s.coals[c].phase
  {
    hide LoopAfter;
  }

  lemma JammedBus(s: State, a: Action, c: nat, l: nat, i: nat)
    requires Formed(s) && Enabled(s, a) && Awaited(s, c, l, i) && a != Abandon(c)
    ensures c < |Next(s, a).coals|
    ensures Next(s, a).coals[c].queue == s.coals[c].queue
    ensures NotReturned(Next(s, a).coals[c])
  {
    if a.Step? {
      hide LoopAfter, AfterStep, Can;
      FullBusStep(s, a.l, a.e, c);
    } else {
      WaitingClient(s, a, c, i);
    }
  }

  // The blocked loop stays where it is.
  lemma BlockedStep(s: State, l: nat, e: Event)
    requires Formed(s) && l < |s.loops| && Can(s, l, e) && !e.Crash?
    requires s.loops[l].pc == Forward && s.loops[l].todo != [] && s.coals[s.loops[l].home].receivers
    requires INBOX_CAPACITY <= |s.coals[s.loops[l].home].queue|
    ensures var p, q := s.loops[l], LoopAfter(s, l, e);
            q.home == p.home && q.pc == p.pc && q.todo == p.todo && q.ready == p.ready
  {
  }

  lemma FeedTask(s: State, a: Action, l: nat)
    requires Formed(s) && Enabled(s, a) && l < |s.loops| && !(a.Step? && a.l == l)
    ensures var p, q := s.loops[l], LoopNext(s, a, l);
            q.home == p.home && q.pc == p.pc && q.todo == p.todo && q.ready == p.ready
  {
    hide Owned, StampsFrom;
  }

  lemma JammedLoop(s: State, a: Action, c: nat, l: nat, i: nat)
    requires Formed(s) && Enabled(s, a) && Awaited(s, c, l, i) && a != Step(l, Crash)
    ensures var q := LoopNext(s, a, l);
            q.home == c && q.pc == Forward && q.todo != [] && !q.ready
  {
    if a.Step? && a.l == l {
      BlockedStep(s, l, a.e);
      hide LoopAfter;
    } else {
      FeedTask(s, a, l);
      hide LoopNext;
    }
  }

  // Once the bus is full and a loop that `new` waits for is blocked sending to it, nothing but that loop's
  // crash or the end of `new` itself changes that: failed queries and saves, commits, truncation,
  // whatever else the other loops do, `new` does not return.
  lemma {:induction false} JammedForGood(batch: nat, before: seq<Action>, s: State, c: nat, l: nat, acts: seq<Action>)
    requires Reaches(batch, before, s) && Jammed(s, c, l)
    requires Formed(s) && Run(s, acts).Some? && Abandon(c) !in acts && Step(l, Crash) !in acts
    ensures Jammed(Run(s, acts).value, c, l)
  {
    if acts != [] {
      var init, a := acts[..|acts| - 1], acts[|acts| - 1];
      JammedForGood(batch, before, s, c, l, init);
      ReachesInv(batch, before, s);
      InvRun(s, init);
      RunLast(s, acts);
      var m := Run(s, init).value;
      assert a in acts;
      hide Inv, Run, Next, LoopNext, Enabled;
      var i := AwaitsMember(m, c, l);
      JammedBus(m, a, c, l, i);
      JammedLoop(m, a, c, l, i);
      NextLoop(m, a, l);
    }
  }
}
