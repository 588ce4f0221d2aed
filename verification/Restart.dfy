// The rounds of one agent: over any number of shutdowns, crashes, failed saves and restarts, with one loop
// at a time, each round starts where the previous one was last saved.

module Restart {
  import opened Wire
  import opened Feed
  import opened Protocol
  import opened LoopInvariant
  import opened Coverage
  import opened Bus
  import opened Guarantees
  import opened CursorRow

  /** The rounds of an agent: its loops that got as far as owning the cursor row, oldest first. */
  function Rounds(loops: seq<Loop>, agent: AgentId): seq<nat> {
    if loops == [] then []
    else
      var n := |loops| - 1;
      var r := Rounds(loops[..n], agent);
      if loops[n].agent == agent && loops[n].saved.Some? then r + [n] else r
  }

  // ---------------------------------------------------------------- what each round keeps

  /** The stages before a start cursor is known to be in the row. */
  predicate Early(pc: Pc) {
    pc == Load || pc == Snap || pc == SaveStart
  }

  /** A loop without a saved cursor has not got far; for any other, all up to the saved cursor was forwarded. */
  predicate RoundOk(log: Log, p: Loop) {
    match p.saved
    case None => p.forwarded == [] && !p.ready && (Early(p.pc) || p.pc == Failed || Ended(p))
    case Some(v) =>
      p.begun && p.start <= v <= p.cursor && !Early(p.pc) && Due(log, p, p.start, v) <= p.forwarded
  }

  lemma AtCursor(batch: nat, log: Log, p: Loop)
    requires Exact(batch, log, p) && p.saved == Some(p.cursor) && p.begun && !Early(p.pc)
    ensures RoundOk(log, p)
  {
  }

  /** What is known of a loop from the state of its saves alone. */
  predicate Placed(p: Loop) {
    match p.saved
    case None => !p.ready && (Early(p.pc) || p.pc == Failed || Ended(p))
    case Some(v) => p.begun && !Early(p.pc)
  }

  /** Nothing below the saved cursor is touched; the loop may move on. */
  predicate MovesOn(p: Loop, q: Loop) {
    && p.saved.Some? && q.saved == p.saved && q.begun && q.agent == p.agent && q.start == p.start && q.lost == p.lost
    && p.cursor <= q.cursor && p.forwarded <= q.forwarded && !Early(q.pc)
  }

  /** What a step can do to a round: save its cursor, move on, or get no further than before. */
  predicate Kind(p: Loop, q: Loop) {
    || (q.saved == Some(q.cursor) && q.begun && !Early(q.pc))
    || MovesOn(p, q)
    || (p.saved.None? && q.saved.None? && q.forwarded == p.forwarded && !q.ready
        && (Early(q.pc) || q.pc == Failed || Ended(q)))
  }

  lemma StartKind(s: State, l: nat, e: Event)
    requires Formed(s) && l < |s.loops| && Can(s, l, e) && Stage(s.loops[l]) && Starts(e) && Placed(s.loops[l])
    ensures Kind(s.loops[l], LoopAfter(s, l, e))
  {
    hide Snapshot, StampsFrom;
  }

  lemma DrainKind(s: State, l: nat, e: Event)
    requires Formed(s) && l < |s.loops| && Can(s, l, e) && Stage(s.loops[l]) && Drains(e) && Placed(s.loops[l])
    requires s.loops[l].cursor <= s.loops[l].next
    ensures Kind(s.loops[l], LoopAfter(s, l, e))
  {
    hide Show, OwnedAll;
  }

  lemma OtherKind(s: State, l: nat, e: Event)
    requires Formed(s) && l < |s.loops| && Can(s, l, e) && Stage(s.loops[l]) && !Starts(e) && !Drains(e)
    requires Placed(s.loops[l])
    ensures Kind(s.loops[l], LoopAfter(s, l, e))
  {
    hide Snapshot, Show, StampsFrom, OwnedAll;
  }

  lemma StepKind(s: State, l: nat, e: Event)
    requires Formed(s) && l < |s.loops| && Can(s, l, e) && Stage(s.loops[l]) && Placed(s.loops[l])
    requires s.loops[l].cursor <= s.loops[l].next
    ensures Kind(s.loops[l], LoopAfter(s, l, e))
  {
    hide LoopAfter, Can, Stage, Placed, Kind;
    if Starts(e) {
      StartKind(s, l, e);
    } else if Drains(e) {
      DrainKind(s, l, e);
    } else {
      OtherKind(s, l, e);
    }
  }

  lemma KindKeeps(batch: nat, log: Log, p: Loop, q: Loop)
    requires RoundOk(log, p) && Exact(batch, log, q) && Kind(p, q)
    ensures RoundOk(log, q)
  {
    hide Window, OwnedAll;
    if q.saved == Some(q.cursor) && q.begun && !Early(q.pc) {
      AtCursor(batch, log, q);
    }
  }

  lemma RoundStep(s: State, l: nat, e: Event)
    requires Good(s) && l < |s.loops| && Can(s, l, e) && RoundOk(s.log, s.loops[l])
    ensures RoundOk(s.log, LoopAfter(s, l, e))
  {
    Known(s, l);
    StepKeepsExact(s, l, e);
    StepKind(s, l, e);
    hide LoopAfter, Can, Good, LoopInv, Exact, RoundOk, Kind;
    KindKeeps(s.batch, s.log, s.loops[l], LoopAfter(s, l, e));
  }

  lemma RoundUntouched(log: Log, p: Loop, q: Loop)
    requires RoundOk(log, p) && SameProgress(p, q) && q.saved == p.saved && q.ready == p.ready && q.pc == p.pc
    ensures RoundOk(log, q)
  {
  }

  lemma RoundCommit(batch: nat, log: Log, p: Loop, q: Loop, cs: Changeset)
    requires Exact(batch, log, p) && RoundOk(log, p) && NextVs(log) <= cs.vs
    requires SameProgress(p, q) && q.saved == p.saved && q.ready == p.ready && q.pc == p.pc
    ensures RoundOk(log + [cs], q)
  {
    hide Window, OwnedAll;
    if p.saved.Some? {
      WindowBelow(log, cs, p.start, p.saved.value, p.lost);
    }
  }

  lemma RoundTruncate(batch: nat, log: Log, trunc: nat, p: Loop, upto: nat)
    requires trunc <= upto <= |log| && Exact(batch, log, p) && RoundOk(log, p)
    ensures RoundOk(log, Forget(p, log, trunc, upto))
  {
    hide Window, OwnedAll;
    if p.begun && p.saved.Some? {
      WindowLost(log, p.start, p.saved.value, p.lost, StampsFrom(log, trunc, upto, p.next));
    }
  }

  // What the feed does to a loop leaves its progress and its saves alone.
  lemma FeedFace(s: State, a: Action, l: nat)
    requires Formed(s) && Enabled(s, a) && l < |s.loops| && !(a.Step? && a.l == l)
    ensures var p, q := s.loops[l], LoopNext(s, a, l);
            if a.Truncate? then q == Forget(p, s.log, s.trunc, a.upto)
            else SameProgress(p, q) && q.saved == p.saved && q.ready == p.ready && q.pc == p.pc
  {
    hide Forget, Owned;
  }

  lemma RoundNext(s: State, a: Action, l: nat)
    requires Good(s) && Enabled(s, a) && l < |s.loops| && RoundOk(s.log, s.loops[l])
    ensures RoundOk(if a.Commit? then s.log + [a.cs] else s.log, LoopNext(s, a, l))
  {
    if a.Step? && a.l == l {
      RoundStep(s, l, a.e);
    } else {
      Known(s, l);
      FeedFace(s, a, l);
      hide LoopNext, Good, LostOk, Stage, Pace, LiveEdge, NoLostWake, RoundOk, Exact, Forget;
      match a {
        case Commit(cs, breaks) => RoundCommit(s.batch, s.log, s.loops[l], LoopNext(s, a, l), cs);
        case Truncate(upto) => RoundTruncate(s.batch, s.log, s.trunc, s.loops[l], upto);
        case _ => RoundUntouched(s.log, s.loops[l], LoopNext(s, a, l));
      }
    }
  }

  // ---------------------------------------------------------------- how rounds follow each other

  predicate IdsOk(loops: seq<Loop>, ids: seq<nat>) {
    forall i | 0 <= i < |ids| :: ids[i] < |loops| && loops[ids[i]].saved.Some?
  }

  /** The cursor row is the last round's, and each round starts where the previous one was saved. */
  predicate Chained(loops: seq<Loop>, disk: map<AgentId, int>, agent: AgentId, ids: seq<nat>)
    requires IdsOk(loops, ids)
  {
    && (agent in disk <==> ids != [])
    && (ids != [] ==> disk[agent] == loops[ids[|ids| - 1]].saved.value)
    && (forall i | 0 <= i < |ids| - 1 :: loops[ids[i]].saved.value == loops[ids[i + 1]].start)
  }

  predicate FirstRun(loops: seq<Loop>, disk: map<AgentId, int>, agent: AgentId) {
    forall l | 0 <= l < |loops| && loops[l].agent == agent && (loops[l].pc == Snap || loops[l].pc == SaveStart) ::
      agent !in disk
  }

  lemma {:induction false} RoundsAre(loops: seq<Loop>, agent: AgentId)
    ensures forall i | 0 <= i < |Rounds(loops, agent)| ::
      var l := Rounds(loops, agent)[i]; l < |loops| && loops[l].agent == agent && loops[l].saved.Some?
    ensures forall i, j | 0 <= i < j < |Rounds(loops, agent)| :: Rounds(loops, agent)[i] < Rounds(loops, agent)[j]
    ensures forall l | 0 <= l < |loops| && loops[l].agent == agent && loops[l].saved.Some? :: l in Rounds(loops, agent)
  {
    if loops != [] {
      RoundsAre(loops[..|loops| - 1], agent);
    }
  }

  lemma {:induction false} RoundsSame(loops: seq<Loop>, after: seq<Loop>, agent: AgentId)
    requires |loops| == |after|
    requires forall l | 0 <= l < |loops| :: after[l].agent == loops[l].agent
    requires forall l | 0 <= l < |loops| && loops[l].agent == agent :: after[l].saved.Some? == loops[l].saved.Some?
    ensures Rounds(after, agent) == Rounds(loops, agent)
  {
    if loops != [] {
      RoundsSame(loops[..|loops| - 1], after[..|loops| - 1], agent);
    }
  }

  lemma {:induction false} RoundsGain(loops: seq<Loop>, l: nat, q: Loop, agent: AgentId)
    requires l < |loops| && loops[l].agent == q.agent == agent && loops[l].saved.None? && q.saved.Some?
    requires forall k | l < k < |loops| :: loops[k].agent != agent
    ensures Rounds(loops[l := q], agent) == Rounds(loops, agent) + [l]
  {
    var n := |loops| - 1;
    if l == n {
      assert loops[l := q][..n] == loops[..n];
    } else {
      assert loops[l := q][..n] == loops[..n][l := q];
      RoundsGain(loops[..n], l, q, agent);
    }
  }

  predicate RoundsInv(s: State, agent: AgentId) {
    && IdsOk(s.loops, Rounds(s.loops, agent))
    && OneAtATime(s.loops, agent)
    && Chained(s.loops, s.disk, agent, Rounds(s.loops, agent))
    && FirstRun(s.loops, s.disk, agent)
    && (forall l | 0 <= l < |s.loops| && s.loops[l].agent == agent :: RoundOk(s.log, s.loops[l]))
  }

  /** What a step of the agent's live loop may do to its place in the chain. */
  predicate ChainMove(p: Loop, q: Loop, disk: map<AgentId, int>, after: map<AgentId, int>) {
    && q.agent == p.agent && (p.saved.Some? ==> q.saved.Some? && q.start == p.start)
    && (if p.saved.Some?
        then || (q.saved == p.saved && after == disk)
             || (!Ended(p) && after == disk[p.agent := q.saved.value])
        else if q.saved.Some?
        then || (p.agent in disk && q.start == q.saved.value == disk[p.agent] && after == disk)
             || (p.pc == SaveStart && after == disk[p.agent := q.saved.value])
        else after == disk)
    && (q.pc == Snap || q.pc == SaveStart ==> q.saved.None? && (p.pc == Snap || p.pc == SaveStart || p.agent !in disk))
    && (Ended(p) ==> Ended(q))
  }

  lemma ChainStart(s: State, l: nat, e: Event)
    requires Formed(s) && l < |s.loops| && Can(s, l, e) && Starts(e) && s.loops[l].saved.None?
    ensures ChainMove(s.loops[l], LoopAfter(s, l, e), s.disk, AfterStep(s, l, e).disk)
  {
    hide Snapshot, StampsFrom;
  }

  lemma ChainStep(s: State, l: nat, e: Event)
    requires Formed(s) && l < |s.loops| && Can(s, l, e) && Placed(s.loops[l])
    ensures ChainMove(s.loops[l], LoopAfter(s, l, e), s.disk, AfterStep(s, l, e).disk)
  {
    if Starts(e) {
      ChainStart(s, l, e);
    } else {
      hide Snapshot, Show, StampsFrom, OwnedAll;
    }
  }

  // A loop already in the chain moves the end of the chain, if it moves anything.
  lemma MoveWithinChain(loops: seq<Loop>, disk: map<AgentId, int>, l: nat, q: Loop, after: map<AgentId, int>,
        agent: AgentId)
    requires l < |loops| && loops[l].agent == agent && ChainMove(loops[l], q, disk, after)
    requires loops[l].saved.Some? == q.saved.Some?
    requires IdsOk(loops, Rounds(loops, agent))
    requires OneAtATime(loops, agent) && Chained(loops, disk, agent, Rounds(loops, agent))
    ensures IdsOk(loops[l := q], Rounds(loops, agent))
    ensures Chained(loops[l := q], after, agent, Rounds(loops, agent))
  {
    if loops[l].saved.Some? && !Ended(loops[l]) {
      LastIsLatest(loops, agent, l);
    }
  }

  // A loop that enters the chain starts where the chain ends.
  lemma MoveExtendsChain(loops: seq<Loop>, disk: map<AgentId, int>, l: nat, q: Loop, after: map<AgentId, int>,
        agent: AgentId)
    requires l < |loops| && loops[l].agent == agent && ChainMove(loops[l], q, disk, after)
    requires loops[l].saved.None? && q.saved.Some?
    requires IdsOk(loops, Rounds(loops, agent))
    requires Chained(loops, disk, agent, Rounds(loops, agent))
    requires loops[l].pc == SaveStart ==> agent !in disk
    ensures IdsOk(loops[l := q], Rounds(loops, agent) + [l])
    ensures Chained(loops[l := q], after, agent, Rounds(loops, agent) + [l])
  {
    forall i | 0 <= i < |Rounds(loops, agent)| ensures Rounds(loops, agent)[i] != l {
      assert loops[Rounds(loops, agent)[i]].saved.Some?;
    }
  }

  lemma MoveKeepsChain(loops: seq<Loop>, disk: map<AgentId, int>, l: nat, q: Loop, after: map<AgentId, int>,
        agent: AgentId)
    requires l < |loops| && loops[l].agent == agent && ChainMove(loops[l], q, disk, after)
    requires IdsOk(loops, Rounds(loops, agent))
    requires OneAtATime(loops, agent) && Chained(loops, disk, agent, Rounds(loops, agent))
    requires loops[l].pc == SaveStart ==> agent !in disk
    requires loops[l].saved.None? && q.saved.Some? ==> !Ended(loops[l])
    ensures IdsOk(loops[l := q], Rounds(loops[l := q], agent))
    ensures Chained(loops[l := q], after, agent, Rounds(loops[l := q], agent))
  {
    if loops[l].saved.Some? == q.saved.Some? {
      RoundsSame(loops, loops[l := q], agent);
      MoveWithinChain(loops, disk, l, q, after, agent);
    } else {
      RoundsGain(loops, l, q, agent);
      MoveExtendsChain(loops, disk, l, q, after, agent);
    }
  }

  lemma OwnStepKeepsChain(s: State, l: nat, e: Event, agent: AgentId)
    requires Good(s) && l < |s.loops| && Can(s, l, e) && s.loops[l].agent == agent
    requires RoundsInv(s, agent)
    ensures var t := AfterStep(s, l, e);
            && IdsOk(t.loops, Rounds(t.loops, agent))
            && OneAtATime(t.loops, agent)
            && Chained(t.loops, t.disk, agent, Rounds(t.loops, agent))
            && FirstRun(t.loops, t.disk, agent)
  {
    assert RoundOk(s.log, s.loops[l]);
    ChainStep(s, l, e);
    LiveToGain(s, l, e);
    MoveKeepsChain(s.loops, s.disk, l, LoopAfter(s, l, e), AfterStep(s, l, e).disk, agent);
    OthersNotFirst(s.loops, s.disk, l, LoopAfter(s, l, e), AfterStep(s, l, e).disk, agent);
  }

  lemma LiveToGain(s: State, l: nat, e: Event)
    requires Formed(s) && l < |s.loops| && Can(s, l, e)
    ensures s.loops[l].saved.None? && LoopAfter(s, l, e).saved.Some? ==> !Ended(s.loops[l])
    ensures Ended(s.loops[l]) ==> LoopAfter(s, l, e).saved == s.loops[l].saved && AfterStep(s, l, e).disk == s.disk
  {
  }

  lemma OthersNotFirst(loops: seq<Loop>, disk: map<AgentId, int>, l: nat, q: Loop, after: map<AgentId, int>,
        agent: AgentId)
    requires l < |loops| && loops[l].agent == agent && ChainMove(loops[l], q, disk, after)
    requires OneAtATime(loops, agent) && FirstRun(loops, disk, agent)
    requires Ended(loops[l]) ==> after == disk
    ensures OneAtATime(loops[l := q], agent) && FirstRun(loops[l := q], after, agent)
  {
  }

  // A live loop of the agent that owns the row is its last round.
  lemma LastIsLatest(loops: seq<Loop>, agent: AgentId, l: nat)
    requires l < |loops| && loops[l].agent == agent && loops[l].saved.Some? && !Ended(loops[l])
    requires OneAtATime(loops, agent)
    ensures Rounds(loops, agent) != [] && Rounds(loops, agent)[|Rounds(loops, agent)| - 1] == l
    ensures forall i | 0 <= i < |Rounds(loops, agent)| - 1 :: Rounds(loops, agent)[i] != l
  {
    RoundsAre(loops, agent);
    var ids := Rounds(loops, agent);
    forall i | 0 <= i < |ids| - 1 ensures Ended(loops[ids[i]]) {
      assert ids[i] < ids[|ids| - 1];
      assert loops[ids[i]].agent == agent && loops[ids[|ids| - 1]].agent == agent;
    }
    assert l in ids;
  }

  // Actions that leave the agent's rounds alone.
  lemma OtherActionKeepsChain(s: State, t: State, agent: AgentId)
    requires RoundsInv(s, agent) && |s.loops| == |t.loops|
    requires forall l | 0 <= l < |s.loops| :: t.loops[l].agent == s.loops[l].agent
    requires forall l | 0 <= l < |s.loops| && s.loops[l].agent == agent ::
      && t.loops[l].saved == s.loops[l].saved && t.loops[l].start == s.loops[l].start && t.loops[l].pc == s.loops[l].pc
    requires (agent in s.disk <==> agent in t.disk) && (agent in s.disk ==> t.disk[agent] == s.disk[agent])
    ensures IdsOk(t.loops, Rounds(t.loops, agent))
    ensures OneAtATime(t.loops, agent)
    ensures Chained(t.loops, t.disk, agent, Rounds(t.loops, agent))
    ensures FirstRun(t.loops, t.disk, agent)
  {
    RoundsSame(s.loops, t.loops, agent);
    RoundsAre(s.loops, agent);
  }

  lemma NextUntouched(s: State, a: Action, agent: AgentId, l: nat)
    requires Formed(s) && Enabled(s, a) && l < |s.loops|
    ensures LoopNext(s, a, l).agent == s.loops[l].agent
    ensures !(a.Step? && a.l == l) ==>
      var q := LoopNext(s, a, l); q.saved == s.loops[l].saved && q.start == s.loops[l].start && q.pc == s.loops[l].pc
  {
    if a.Step? && a.l == l {
      StepFace(s, l, a.e);
      hide LoopAfter;
    }
  }

  lemma RoundsNext(s: State, a: Action, agent: AgentId)
    requires Good(s) && Enabled(s, a) && Serial(s, a, agent) && RoundsInv(s, agent)
    ensures RoundsInv(Next(s, a), agent)
  {
    var t := Next(s, a);
    NextLog(s, a);
    NextLoopCount(s, a);
    forall l | 0 <= l < |t.loops| && t.loops[l].agent == agent ensures RoundOk(t.log, t.loops[l]) {
      if l < |s.loops| {
        NextLoop(s, a, l);
        NextUntouched(s, a, agent, l);
        RoundNext(s, a, l);
      }
    }
    if a.Step? && s.loops[a.l].agent == agent {
      OwnStepKeepsChain(s, a.l, a.e, agent);
    } else if a.Spawn? {
      SpawnKeepsChain(s, t.loops[|s.loops|], agent);
    } else {
      forall l | 0 <= l < |s.loops|
        ensures t.loops[l].agent == s.loops[l].agent
        ensures s.loops[l].agent == agent ==>
          t.loops[l].saved == s.loops[l].saved && t.loops[l].start == s.loops[l].start && t.loops[l].pc == s.loops[l].pc
      {
        NextLoop(s, a, l);
        NextUntouched(s, a, agent, l);
      }
      OtherActionKeepsChain(s, t, agent);
    }
  }

  lemma SpawnKeepsChain(s: State, p: Loop, agent: AgentId)
    requires RoundsInv(s, agent) && p == Spawned(p.agent, p.home)
    requires p.agent == agent ==> forall l | 0 <= l < |s.loops| && s.loops[l].agent == agent :: Ended(s.loops[l])
    ensures var loops := s.loops + [p];
            && IdsOk(loops, Rounds(loops, agent))
            && OneAtATime(loops, agent)
            && Chained(loops, s.disk, agent, Rounds(loops, agent))
            && FirstRun(loops, s.disk, agent)
  {
    assert (s.loops + [p])[..|s.loops|] == s.loops;
    RoundsAre(s.loops, agent);
  }

  lemma {:induction false} RoundsRun(batch: nat, acts: seq<Action>, agent: AgentId)
    requires 1 <= batch && SerialRun(Init(batch), acts, agent)
    ensures Run(Init(batch), acts).Some? && Inv(Run(Init(batch), acts).value)
    ensures RoundsInv(Run(Init(batch), acts).value, agent)
  {
    if acts == [] {
      InvInit(batch);
    } else {
      RoundsRun(batch, acts[..|acts| - 1], agent);
      var m := Run(Init(batch), acts[..|acts| - 1]).value;
      InvNext(m, acts[|acts| - 1]);
      RoundsNext(m, acts[|acts| - 1], agent);
    }
  }
}
