// Rounds whose cursor saves succeed: then what a round leaves unsaved is at most one page, and only a
// crash, or a page in hand, leaves anything.

module Tidy {
  import opened Wire
  import opened Feed
  import opened Protocol
  import opened LoopInvariant
  import opened Coverage
  import opened Guarantees
  import opened CursorRow
  import opened Acceptance
  import opened Restart
  import opened Accounting

  /** Saves of the agent's cursor succeed, and a loop for it starts only after the previous one ended. */
  predicate TidyAction(s: State, a: Action, agent: AgentId)
    requires Formed(s) && Enabled(s, a)
  {
    && Serial(s, a, agent)
    && (a.Step? && s.loops[a.l].agent == agent && a.e.Persist? ==> a.e.ok)
  }

  predicate TidyRun(s: State, acts: seq<Action>, agent: AgentId)
    requires Formed(s)
  {
    acts == [] ||
    (TidyRun(s, acts[..|acts| - 1], agent) &&
     match Run(s, acts[..|acts| - 1])
     case Some(m) => Enabled(m, acts[|acts| - 1]) && TidyAction(m, acts[|acts| - 1], agent)
     case None => false)
  }

  lemma {:induction false} TidyIsSerial(s: State, acts: seq<Action>, agent: AgentId)
    requires Formed(s) && TidyRun(s, acts, agent)
    ensures SerialRun(s, acts, agent)
  {
    if acts != [] {
      TidyIsSerial(s, acts[..|acts| - 1], agent);
    }
  }

  // ---------------------------------------------------------------- at most one page ahead of the row

  /** The saved cursor is the cursor, except between a cursor's move and its save, and at most a page behind. */
  predicate Tight(batch: nat, log: Log, p: Loop) {
    match p.saved
    case None => p.pc != Save
    case Some(v) =>
      (p.pc != Save && p.pc != Dead ==> v == p.cursor) && |Window(log, v, p.next, p.lost)| <= batch
  }

  /** What a step with a successful save, if any, can do to a round. */
  predicate TightKind(p: Loop, q: Loop, e: Event) {
    || q.saved == Some(q.cursor)
    || (SameProgress(p, q) && q.saved == p.saved && (q.pc == p.pc || q.pc == Dead))
    || (e.Advance? && p.saved.Some? && p.pc == Forward && q == p.(pc := Save, cursor := p.next))
    || (q.saved.None? && q.pc != Save)
  }

  lemma TightStart(s: State, l: nat, e: Event)
    requires Formed(s) && l < |s.loops| && Can(s, l, e) && Starts(e) && Placed(s.loops[l])
    ensures TightKind(s.loops[l], LoopAfter(s, l, e), e)
  {
    hide Snapshot, StampsFrom;
  }

  lemma TightDrain(s: State, l: nat, e: Event)
    requires Formed(s) && l < |s.loops| && Can(s, l, e) && Drains(e) && Placed(s.loops[l]) && (e.Persist? ==> e.ok)
    requires s.loops[l].saved.Some? && s.loops[l].pc != Save && s.loops[l].pc != Dead ==>
      s.loops[l].saved == Some(s.loops[l].cursor)
    ensures TightKind(s.loops[l], LoopAfter(s, l, e), e)
  {
    hide Show, OwnedAll;
  }

  lemma TightOther(s: State, l: nat, e: Event)
    requires Formed(s) && l < |s.loops| && Can(s, l, e) && !Starts(e) && !Drains(e) && Placed(s.loops[l])
    requires s.loops[l].saved.Some? && s.loops[l].pc != Save && s.loops[l].pc != Dead ==>
      s.loops[l].saved == Some(s.loops[l].cursor)
    requires s.loops[l].saved.None? ==> s.loops[l].pc != Save
    ensures TightKind(s.loops[l], LoopAfter(s, l, e), e)
  {
    hide Snapshot, Show, StampsFrom, OwnedAll;
  }

  lemma TightKeeps(batch: nat, log: Log, p: Loop, q: Loop, e: Event)
    requires Exact(batch, log, p) && Exact(batch, log, q) && Tight(batch, log, p) && TightKind(p, q, e)
    ensures Tight(batch, log, q)
  {
    hide Window, OwnedAll;
  }

  lemma TightStep(s: State, l: nat, e: Event)
    requires Good(s) && l < |s.loops| && Can(s, l, e) && (e.Persist? ==> e.ok)
    requires RoundOk(s.log, s.loops[l]) && Tight(s.batch, s.log, s.loops[l])
    ensures Tight(s.batch, s.log, LoopAfter(s, l, e))
  {
    var p, q := s.loops[l], LoopAfter(s, l, e);
    Known(s, l);
    StepKeepsExact(s, l, e);
    assert Placed(p);
    hide LoopAfter, Can, Good, LoopInv, Exact, RoundOk, Placed, TightKind, Window;
    if Starts(e) {
      TightStart(s, l, e);
    } else if Drains(e) {
      TightDrain(s, l, e);
    } else {
      TightOther(s, l, e);
    }
    hide Tight;
    TightKeeps(s.batch, s.log, p, q, e);
  }

  lemma TightFeed(s: State, a: Action, l: nat)
    requires Good(s) && Enabled(s, a) && l < |s.loops| && !(a.Step? && a.l == l)
    requires RoundOk(s.log, s.loops[l]) && Tight(s.batch, s.log, s.loops[l])
    ensures Tight(s.batch, if a.Commit? then s.log + [a.cs] else s.log, LoopNext(s, a, l))
  {
    var p := s.loops[l];
    FeedFace(s, a, l);
    KnownStage(s, l);
    hide LoopNext, Good, Stage, Window, OwnedAll;
    match a {
      case Commit(cs, _) => if p.saved.Some? { WindowBelow(s.log, cs, p.saved.value, p.next, p.lost); }
      case Truncate(upto) =>
        if p.begun && p.saved.Some? {
          WindowLost(s.log, p.saved.value, p.next, p.lost, StampsFrom(s.log, s.trunc, upto, p.next));
        }
      case _ =>
    }
  }

  lemma TightNext(s: State, a: Action, agent: AgentId, l: nat)
    requires Good(s) && Enabled(s, a) && TidyAction(s, a, agent) && l < |s.loops| && s.loops[l].agent == agent
    requires RoundOk(s.log, s.loops[l]) && Tight(s.batch, s.log, s.loops[l])
    ensures Next(s, a).batch == s.batch && Tight(s.batch, Next(s, a).log, LoopNext(s, a, l))
  {
    NextLog(s, a);
    if a.Step? && a.l == l {
      TightStep(s, l, a.e);
    } else {
      TightFeed(s, a, l);
    }
  }

  lemma {:induction false} TightRun(batch: nat, acts: seq<Action>, agent: AgentId, s: State, l: nat)
    requires 1 <= batch && TidyRun(Init(batch), acts, agent) && Run(Init(batch), acts) == Some(s)
    requires l < |s.loops| && s.loops[l].agent == agent
    ensures Tight(s.batch, s.log, s.loops[l])
  {
    if acts != [] {
      var init := acts[..|acts| - 1];
      var m, a := LastAction(batch, acts, s);
      TidyIsSerial(Init(batch), init, agent);
      RoundsRun(batch, init, agent);
      NextLoopCount(m, a);
      if l < |m.loops| {
        NextUntouched(m, a, agent, l);
        NextLoop(m, a, l);
        TightRun(batch, init, agent, m, l);
        assert RoundOk(m.log, m.loops[l]) && TidyAction(m, a, agent) && Good(m);
        hide Next, LoopNext, Inv, Good, RoundsInv, Tight, TidyAction, TidyRun, Run;
        TightNext(m, a, agent, l);
      }
    }
  }

  // ---------------------------------------------------------------- what it means for deliveries

  lemma TidyFacts(batch: nat, acts: seq<Action>, agent: AgentId, s: State, l: nat)
    requires 1 <= batch && TidyRun(Init(batch), acts, agent) && Run(Init(batch), acts) == Some(s)
    requires l < |s.loops| && s.loops[l].agent == agent
    ensures Sorted(s.log) && Exact(s.batch, s.log, s.loops[l]) && Stage(s.loops[l])
    ensures RoundOk(s.log, s.loops[l]) && Tight(s.batch, s.log, s.loops[l])
    ensures UnsavedOk(acts, s.log, s.loops[l], l)
  {
    TidyIsSerial(Init(batch), acts, agent);
    RoundFacts(batch, acts, agent, s, l);
    TightRun(batch, acts, agent, s, l);
    UnsavedRun(batch, acts, agent, s, l);
  }

  // A round forwards its settled part and then a surplus: nothing when it ended gracefully, else the
  // beginning of one page of at most `batch` changesets from its saved cursor on.
  lemma RoundAccount(batch: nat, acts: seq<Action>, agent: AgentId, s: State, l: nat)
    requires 1 <= batch && TidyRun(Init(batch), acts, agent) && Run(Init(batch), acts) == Some(s)
    requires l < |s.loops| && s.loops[l].agent == agent
    ensures s.loops[l].saved.None? ==> s.loops[l].forwarded == []
    ensures s.loops[l].saved.Some? ==>
      var p := s.loops[l];
      var page := Window(s.log, p.saved.value, p.next, p.lost);
      && p.forwarded == Settled(s.log, p) + Surplus(s.log, p)
      && Surplus(s.log, p) <= OwnedAll(agent, page) && |page| <= s.batch
      && (p.pc.Done? ==> Surplus(s.log, p) == [])
  {
    TidyFacts(batch, acts, agent, s, l);
    var p := s.loops[l];
    if p.saved.Some? {
      SurplusInPage(s.batch, s.log, p);
      if p.pc.Done? {
        assert p.forwarded + [] == p.forwarded;
      }
    }
  }

  lemma UnsavedShape(acts: seq<Action>, batch: nat, log: Log, p: Loop, l: nat)
    requires Sorted(log) && Exact(batch, log, p) && Stage(p) && RoundOk(log, p) && Tight(batch, log, p)
    requires UnsavedOk(acts, log, p, l) && 0 < Unsaved(acts, l)
    ensures p.pc == Forward || p.pc == Save || p.pc == Dead
    ensures p.saved.Some? && p.saved.value < p.next && Unsaved(acts, l) == |Surplus(log, p)|
  {
    SurplusInPage(batch, log, p);
    hide Unsaved, OwnedAll, Sorted;
  }

  // A round has unsaved sends only while it has a page in hand or to save, or if it crashed then: a round
  // at rest, or gracefully ended, has none.
  lemma UnsavedMeans(batch: nat, acts: seq<Action>, agent: AgentId, s: State, l: nat)
    requires 1 <= batch && TidyRun(Init(batch), acts, agent) && Run(Init(batch), acts) == Some(s)
    requires l < |s.loops| && s.loops[l].agent == agent && 0 < Unsaved(acts, l)
    ensures var p := s.loops[l];
            && (p.pc == Forward || p.pc == Save || p.pc == Dead)
            && p.saved.Some? && p.saved.value < p.next && Unsaved(acts, l) == |Surplus(s.log, p)|
  {
    TidyFacts(batch, acts, agent, s, l);
    hide TidyRun, Run, Sorted, Exact, Stage, RoundOk, Tight, UnsavedOk, Unsaved, Surplus;
    UnsavedShape(acts, s.batch, s.log, s.loops[l], l);
  }

  // So if every round but the last ended gracefully, the last one is not in the middle of a page, and no
  // round sent to a bus without receivers, then the deliveries are exactly the filtered log.
  lemma GracefulRounds(batch: nat, acts: seq<Action>, agent: AgentId, s: State)
    requires 1 <= batch && TidyRun(Init(batch), acts, agent) && Run(Init(batch), acts) == Some(s)
    requires agent in s.disk
    requires forall l | 0 <= l < |s.loops| && s.loops[l].agent == agent ::
      && s.loops[l].pc != Forward && s.loops[l].pc != Save && s.loops[l].pc != Dead
      && !SendsUnheard(acts, l, s.loops[l].home)
    ensures var ids := Rounds(s.loops, agent);
            && IdsOk(s.loops, ids) && InIds(s, ids) && ids != []
            && Delivered(s, ids)
               == OwnedAll(agent, Window(s.log, s.loops[ids[0]].start, s.disk[agent], Missed(s.loops, ids)))
  {
    TidyIsSerial(Init(batch), acts, agent);
    RoundsPartitionLog(batch, acts, agent, s);
    RoundsAre(s.loops, agent);
    var ids := Rounds(s.loops, agent);
    forall i | 0 <= i < |ids| ensures Unsaved(acts, ids[i]) == 0 {
      if 0 < Unsaved(acts, ids[i]) {
        UnsavedMeans(batch, acts, agent, s, ids[i]);
      }
    }
  }
}
