// Restart accounting: the rounds of an agent partition the filtered log, whatever crashes and whichever
// saves fail. What is delivered beyond it is exactly what was sent since the last save when a round ended,
// and it is delivered again by the next round.

module Accounting {
  import opened Wire
  import opened Feed
  import opened Protocol
  import opened LoopInvariant
  import opened Coverage
  import opened Bus
  import opened Guarantees
  import opened CursorRow
  import opened Acceptance
  import opened Restart

  /** What a round forwarded, up to its saved cursor. */
  function Settled(log: Log, p: Loop): seq<Message>
    requires p.saved.Some?
  {
    Due(log, p, p.start, p.saved.value)
  }

  /** What it forwarded beyond it, which the next round delivers again. */
  function Surplus(log: Log, p: Loop): seq<Message>
    requires p.saved.Some?
  {
    var n := |Settled(log, p)|;
    if n <= |p.forwarded| then p.forwarded[n..] else []
  }

  lemma SurplusInPage(batch: nat, log: Log, p: Loop)
    requires Sorted(log) && Exact(batch, log, p) && Stage(p) && p.saved.Some? && RoundOk(log, p)
    ensures p.forwarded == Settled(log, p) + Surplus(log, p)
    ensures Surplus(log, p) <= OwnedAll(p.agent, Window(log, p.saved.value, p.next, p.lost))
  {
    var v := p.saved.value;
    WindowSplit(log, p.start, v, p.next, p.lost);
    OwnedAllConcat(p.agent, Window(log, p.start, v, p.lost), Window(log, v, p.next, p.lost));
    hide Window, OwnedAll, Sorted;
    var settled, page := Settled(log, p), OwnedAll(p.agent, Window(log, v, p.next, p.lost));
    assert p.forwarded + p.todo == settled + page;
    assert Surplus(log, p) + p.todo == page by {
      assert (p.forwarded + p.todo)[|settled|..] == Surplus(log, p) + p.todo;
      assert (settled + page)[|settled|..] == page;
    }
  }

  lemma ChainHolds(batch: nat, acts: seq<Action>, agent: AgentId, s: State)
    requires 1 <= batch && SerialRun(Init(batch), acts, agent) && Run(Init(batch), acts) == Some(s)
    ensures Sorted(s.log)
    ensures IdsOk(s.loops, Rounds(s.loops, agent))
    ensures forall i | 0 <= i < |Rounds(s.loops, agent)| :: s.loops[Rounds(s.loops, agent)[i]].agent == agent
    ensures Chained(s.loops, s.disk, agent, Rounds(s.loops, agent))
  {
    RoundsRun(batch, acts, agent);
    RoundsAre(s.loops, agent);
  }

  // ---------------------------------------------------------------- what is delivered again

  /** What the first round lost of a range the second one covers, the second one lost as well. */
  predicate LossesCarry(log: Log, p: Loop, q: Loop) {
    q.begun ==> forall t | 0 <= t < |log| && q.start <= log[t].vs < p.next && log[t].vs in p.lost :: log[t].vs in q.lost
  }

  predicate AllLossesCarry(s: State, agent: AgentId) {
    forall l, k | 0 <= l < k < |s.loops| && s.loops[l].agent == agent && s.loops[k].agent == agent ::
      LossesCarry(s.log, s.loops[l], s.loops[k])
  }

  lemma LaterStep(s: State, l: nat, e: Event)
    requires Formed(s) && l < |s.loops| && Can(s, l, e) && Stage(s.loops[l])
    ensures var p, q := s.loops[l], LoopAfter(s, l, e);
            && (p.begun ==> q.begun && q.start == p.start && q.lost == p.lost)
            && (!p.begun && q.begun ==> q.lost == StampsFrom(s.log, 0, s.trunc, q.start))
            && (Ended(p) ==> q.lost == p.lost && q.next == p.next)
  {
    hide Snapshot, Show, OwnedAll;
  }

  lemma CarryStep(s: State, a: Action, l: nat, k: nat)
    requires Good(s) && Enabled(s, a) && a.Step? && l < |s.loops| && k < |s.loops| && l != k
    requires Ended(s.loops[l]) && LossesCarry(s.log, s.loops[l], s.loops[k])
    ensures LossesCarry(s.log, LoopNext(s, a, l), LoopNext(s, a, k))
  {
    Known(s, l);
    KnownStage(s, a.l);
    LaterStep(s, a.l, a.e);
    hide LoopAfter, Can, Good, Exact, Stage, Pace, LiveEdge, NoLostWake;
  }

  lemma CarryFeed(log: Log, more: Log, p: Loop, p1: Loop, q: Loop, q1: Loop)
    requires LossesCarry(log, p, q) && log <= more && p.next <= NextVs(log) && Sorted(more)
    requires p1.next == p.next && p.lost <= p1.lost && (forall v | v in p1.lost && v !in p.lost :: p.next <= v)
    requires q1.begun == q.begun && q1.start == q.start && q.lost <= q1.lost
    ensures LossesCarry(more, p1, q1)
  {
    forall t | |log| <= t < |more| ensures NextVs(log) <= more[t].vs {
      LogTailAbove(log, more, t);
    }
  }

  lemma LossFace(s: State, a: Action, l: nat)
    requires Formed(s) && Enabled(s, a) && !a.Step? && l < |s.loops|
    ensures var p, q := s.loops[l], LoopNext(s, a, l);
            && q.begun == p.begun && q.start == p.start && q.next == p.next && p.lost <= q.lost
            && (forall v | v in q.lost && v !in p.lost :: p.next <= v)
  {
    hide Owned;
  }

  lemma CarryNext(s: State, a: Action, l: nat, k: nat)
    requires Good(s) && Enabled(s, a) && l < |s.loops| && k < |s.loops| && l != k
    requires Ended(s.loops[l]) && LossesCarry(s.log, s.loops[l], s.loops[k])
    ensures LossesCarry(Next(s, a).log, LoopNext(s, a, l), LoopNext(s, a, k))
  {
    NextLog(s, a);
    if a.Step? {
      CarryStep(s, a, l, k);
    } else {
      KnownStage(s, l);
      GoodNext(s, a);
      assert Sorted(Next(s, a).log);
      LossFace(s, a, l);
      LossFace(s, a, k);
      hide LoopNext, Next, Good, Stage, LossesCarry, Sorted;
      CarryFeed(s.log, Next(s, a).log, s.loops[l], LoopNext(s, a, l), s.loops[k], LoopNext(s, a, k));
    }
  }

  lemma LossesNext(s: State, a: Action, agent: AgentId)
    requires Good(s) && Enabled(s, a) && OneAtATime(s.loops, agent) && AllLossesCarry(s, agent)
    ensures AllLossesCarry(Next(s, a), agent)
  {
    var t := Next(s, a);
    NextLoopCount(s, a);
    forall l, k | 0 <= l < k < |t.loops| && t.loops[l].agent == agent && t.loops[k].agent == agent
      ensures LossesCarry(t.log, t.loops[l], t.loops[k])
    {
      if k < |s.loops| {
        NextLoop(s, a, l);
        NextLoop(s, a, k);
        NextUntouched(s, a, agent, l);
        NextUntouched(s, a, agent, k);
        hide Next, LoopNext, Good;
        CarryNext(s, a, l, k);
      }
    }
  }

  lemma {:induction false} LossesRun(batch: nat, acts: seq<Action>, agent: AgentId, s: State)
    requires 1 <= batch && SerialRun(Init(batch), acts, agent) && Run(Init(batch), acts) == Some(s)
    ensures AllLossesCarry(s, agent)
  {
    if acts != [] {
      var init := acts[..|acts| - 1];
      var m, a := LastAction(batch, acts, s);
      LossesRun(batch, init, agent, m);
      RoundsRun(batch, init, agent);
      assert OneAtATime(m.loops, agent) && Good(m);
      hide *;
      LossesNext(m, a, agent);
    }
  }

  lemma DeliveredAgain(batch: nat, log: Log, p: Loop, q: Loop)
    requires Sorted(log) && Exact(batch, log, p) && Stage(p) && p.saved.Some? && RoundOk(log, p)
    requires Exact(batch, log, q) && q.agent == p.agent && q.start == p.saved.value && p.next <= q.next
    requires forall t | 0 <= t < |log| && p.saved.value <= log[t].vs < p.next ::
      log[t].vs in p.lost <==> log[t].vs in q.lost
    ensures Surplus(log, p) <= q.forwarded + q.todo
    ensures p.next <= q.cursor ==> Surplus(log, p) <= q.forwarded
  {
    SurplusInPage(batch, log, p);
    WindowAgrees(log, p.saved.value, p.next, p.lost, q.lost);
    WindowSplit(log, q.start, p.next, q.next, q.lost);
    OwnedAllConcat(q.agent, Window(log, q.start, p.next, q.lost), Window(log, p.next, q.next, q.lost));
    if p.next <= q.cursor {
      WindowSplit(log, q.start, p.next, q.cursor, q.lost);
      OwnedAllConcat(q.agent, Window(log, q.start, p.next, q.lost), Window(log, p.next, q.cursor, q.lost));
    }
  }

  lemma RoundFacts(batch: nat, acts: seq<Action>, agent: AgentId, s: State, l: nat)
    requires 1 <= batch && SerialRun(Init(batch), acts, agent) && Run(Init(batch), acts) == Some(s)
    requires l < |s.loops| && s.loops[l].agent == agent
    ensures Sorted(s.log) && Exact(s.batch, s.log, s.loops[l]) && Stage(s.loops[l]) && RoundOk(s.log, s.loops[l])
  {
    RoundsRun(batch, acts, agent);
    Known(s, l);
  }

  /** Of the page `p` had in hand, `q` lost nothing that `p` had read. */
  predicate Spared(log: Log, p: Loop, q: Loop)
    requires p.saved.Some?
  {
    forall t | 0 <= t < |log| && p.saved.value <= log[t].vs < p.next && log[t].vs !in p.lost :: log[t].vs !in q.lost
  }

  // What a round left unsaved is delivered again, in the same order, by the next round once that is past
  // the same page, unless part of the page was truncated before the next round could read it.
  lemma SurplusDeliveredAgain(batch: nat, acts: seq<Action>, agent: AgentId, s: State, i: nat)
    requires 1 <= batch && SerialRun(Init(batch), acts, agent) && Run(Init(batch), acts) == Some(s)
    requires i + 1 < |Rounds(s.loops, agent)|
    ensures IdsOk(s.loops, Rounds(s.loops, agent))
    ensures var p, q := s.loops[Rounds(s.loops, agent)[i]], s.loops[Rounds(s.loops, agent)[i + 1]];
            && (p.next <= q.next && Spared(s.log, p, q) ==> Surplus(s.log, p) <= q.forwarded + q.todo)
            && (p.next <= q.cursor && Spared(s.log, p, q) ==> Surplus(s.log, p) <= q.forwarded)
    ensures var p, k := s.loops[Rounds(s.loops, agent)[i]], Rounds(s.loops, agent)[i + 1];
            && s.loops[k].home < |s.coals|
            && (p.next <= s.loops[k].cursor && Spared(s.log, p, s.loops[k]) && !SendsUnheard(acts, k, s.loops[k].home)
                ==> Surplus(s.log, p) <= Accepted(s, k))
  {
    ChainHolds(batch, acts, agent, s);
    LossesRun(batch, acts, agent, s);
    RoundsAre(s.loops, agent);
    var l, k := Rounds(s.loops, agent)[i], Rounds(s.loops, agent)[i + 1];
    var p, q := s.loops[l], s.loops[k];
    RoundFacts(batch, acts, agent, s, l);
    RoundFacts(batch, acts, agent, s, k);
    AcceptedExactly(batch, acts, s, k);
    assert LossesCarry(s.log, p, q) && p.saved.value == q.start;
    hide SerialRun, Run, RoundOk, Exact, Stage, Sorted, Rounds, Accepted, SendsUnheard;
    if p.next <= q.next && Spared(s.log, p, q) {
      RoundBegun(s.log, q);
      CursorBelowNext(s.batch, s.log, q);
      DeliveredAgain(s.batch, s.log, p, q);
    }
  }

  lemma CursorBelowNext(batch: nat, log: Log, p: Loop)
    requires Exact(batch, log, p)
    ensures p.cursor <= p.next
  {
  }

  lemma RoundBegun(log: Log, p: Loop)
    requires RoundOk(log, p) && p.saved.Some?
    ensures p.begun
  {
  }

  // ---------------------------------------------------------------- unsaved sends

  /** The sends of loop `l` since its cursor was last saved. */
  function Unsaved(acts: seq<Action>, l: nat): nat {
    if acts == [] then 0
    else
      var n, a := Unsaved(acts[..|acts| - 1], l), acts[|acts| - 1];
      if a == Step(l, Send) then n + 1
      else if a == Step(l, Persist(true, true)) || a == Step(l, Persist(true, false)) then 0
      else n
  }

  lemma {:induction false} UnsavedAreSends(acts: seq<Action>, l: nat)
    ensures Unsaved(acts, l) <= Sends(acts, l)
  {
    if acts != [] {
      UnsavedAreSends(acts[..|acts| - 1], l);
    }
  }

  /** What the run says of a round's unsaved sends. */
  predicate UnsavedOk(acts: seq<Action>, log: Log, p: Loop, l: nat) {
    match p.saved
    case None => Unsaved(acts, l) == 0
    case Some(_) => |Settled(log, p)| + Unsaved(acts, l) == |p.forwarded|
  }

  lemma UnsavedKept(acts: seq<Action>, a: Action, log: Log, more: Log, p: Loop, q: Loop, l: nat)
    requires UnsavedOk(acts, log, p, l)
    requires a != Step(l, Send) && a != Step(l, Persist(true, true)) && a != Step(l, Persist(true, false))
    requires q.saved == p.saved && q.forwarded == p.forwarded && (p.saved.Some? ==> Settled(more, q) == Settled(log, p))
    ensures UnsavedOk(acts + [a], more, q, l)
  {
    assert (acts + [a])[..|acts|] == acts;
  }

  /** A step either changes neither the saved cursor nor what lies below it, or saves all there is. */
  predicate Settles(p: Loop, q: Loop, e: Event) {
    && (q.saved == p.saved || q.saved == Some(q.cursor))
    && (q.saved != p.saved ==>
          || (e.Persist? && e.applied)
          || (e.LoadOk? && p.saved.None? && q.start == q.cursor && q.forwarded == []))
    && (e.Persist? && e.applied ==>
          q.saved == Some(q.cursor) && q.todo == [] && q.next == q.cursor && q.forwarded == p.forwarded)
    && (p.saved.Some? ==> q.start == p.start && q.lost == p.lost && q.agent == p.agent)
    && (!e.Send? ==> q.forwarded == p.forwarded)
  }

  lemma SettledStart(s: State, l: nat, e: Event)
    requires Formed(s) && l < |s.loops| && Can(s, l, e) && Stage(s.loops[l]) && Starts(e) && Placed(s.loops[l])
    ensures Settles(s.loops[l], LoopAfter(s, l, e), e)
  {
    hide Snapshot, StampsFrom;
  }

  lemma SettledStep(s: State, l: nat, e: Event)
    requires Formed(s) && l < |s.loops| && Can(s, l, e) && Stage(s.loops[l])
    requires Placed(s.loops[l])
    ensures Settles(s.loops[l], LoopAfter(s, l, e), e)
  {
    if Starts(e) {
      SettledStart(s, l, e);
    } else {
      hide Snapshot, Show, OwnedAll, StampsFrom;
    }
  }

  lemma SettledFeed(s: State, a: Action, l: nat)
    requires Good(s) && Enabled(s, a) && l < |s.loops| && !(a.Step? && a.l == l)
    requires s.loops[l].saved.Some? && s.loops[l].saved.value <= s.loops[l].next
    ensures var p, q := s.loops[l], LoopNext(s, a, l);
            && q.saved == p.saved && q.forwarded == p.forwarded
            && Settled(if a.Commit? then s.log + [a.cs] else s.log, q) == Settled(s.log, p)
  {
    var p, q := s.loops[l], LoopNext(s, a, l);
    FeedFace(s, a, l);
    KnownStage(s, l);
    hide Good, Stage, LoopNext;
    match a {
      case Commit(cs, _) => WindowBelow(s.log, cs, p.start, p.saved.value, p.lost);
      case Truncate(upto) =>
        if p.begun {
          WindowLost(s.log, p.start, p.saved.value, p.lost, StampsFrom(s.log, s.trunc, upto, p.next));
        }
      case _ =>
    }
  }

  lemma UnsavedSend(acts: seq<Action>, log: Log, p: Loop, q: Loop, l: nat)
    requires UnsavedOk(acts, log, p, l) && p.saved.Some? && q.saved == p.saved
    requires |q.forwarded| == |p.forwarded| + 1 && Settled(log, q) == Settled(log, p)
    ensures UnsavedOk(acts + [Step(l, Send)], log, q, l)
  {
    assert (acts + [Step(l, Send)])[..|acts|] == acts;
  }

  // A loop with its cursor saved and no page in hand has no unsaved sends.
  lemma UnsavedReset(acts: seq<Action>, batch: nat, log: Log, q: Loop, l: nat)
    requires Exact(batch, log, q) && q.saved == Some(q.cursor) && q.todo == [] && q.next == q.cursor
    requires Unsaved(acts, l) == 0
    ensures UnsavedOk(acts, log, q, l)
  {
    assert q.forwarded + [] == q.forwarded;
  }

  lemma UnsavedStart(acts: seq<Action>, log: Log, q: Loop, l: nat)
    requires q.saved == Some(q.start) && q.forwarded == [] && Unsaved(acts, l) == 0
    ensures UnsavedOk(acts, log, q, l)
  {
    WindowSlice(log, q.start, q.start, q.lost, 0, 0);
  }

  lemma NoneUnsaved(acts: seq<Action>, log: Log, p: Loop, l: nat)
    requires UnsavedOk(acts, log, p, l) && p.saved.None?
    ensures Unsaved(acts, l) == 0
  {
  }

  lemma UnsavedStep(acts: seq<Action>, s: State, l: nat, e: Event)
    requires Good(s) && l < |s.loops| && Can(s, l, e)
    requires RoundOk(s.log, s.loops[l]) && UnsavedOk(acts, s.log, s.loops[l], l)
    ensures UnsavedOk(acts + [Step(l, e)], s.log, LoopAfter(s, l, e), l)
  {
    var p, q, more := s.loops[l], LoopAfter(s, l, e), acts + [Step(l, e)];
    assert more[..|acts|] == acts;
    Known(s, l);
    SettledStep(s, l, e);
    StepKeepsExact(s, l, e);
    StepFace(s, l, e);
    assert e.Persist? && e.ok ==> e.applied;
    assert e.Send? ==> p.saved.Some?;
    hide LoopAfter, Can, Good, LoopInv, Exact, RoundOk, Window, OwnedAll, UnsavedOk;
    if e.Persist? && e.applied {
      UnsavedReset(more, s.batch, s.log, q, l);
    } else if q.saved != p.saved {
      NoneUnsaved(acts, s.log, p, l);
      UnsavedStart(more, s.log, q, l);
    } else if e.Send? {
      UnsavedSend(acts, s.log, p, q, l);
    } else {
      UnsavedKept(acts, Step(l, e), s.log, s.log, p, q, l);
    }
  }

  lemma UnsavedNew(batch: nat, acts: seq<Action>, s: State, l: nat)
    requires Reaches(batch, acts, s) && l < |s.loops| && s.loops[l].forwarded == [] && s.loops[l].saved.None?
    ensures UnsavedOk(acts, s.log, s.loops[l], l)
  {
    TalliedRun(batch, acts, s);
    assert TalliedLoop(acts, s, l);
    hide Reaches, Sends, Heard;
    UnsavedAreSends(acts, l);
  }

  lemma {:induction false} UnsavedRun(batch: nat, acts: seq<Action>, agent: AgentId, s: State, l: nat)
    requires 1 <= batch && SerialRun(Init(batch), acts, agent) && Run(Init(batch), acts) == Some(s)
    requires l < |s.loops| && s.loops[l].agent == agent
    ensures UnsavedOk(acts, s.log, s.loops[l], l)
  {
    if acts != [] {
      var init := acts[..|acts| - 1];
      var m, a := LastAction(batch, acts, s);
      RoundsRun(batch, init, agent);
      NextLoopCount(m, a);
      hide Next, Reaches;
      if l < |m.loops| {
        NextUntouched(m, a, agent, l);
        NextLoop(m, a, l);
        UnsavedRun(batch, init, agent, m, l);
        assert RoundOk(m.log, m.loops[l]) && Serial(m, a, agent) && Good(m);
        hide *;
        UnsavedNext(init, m, a, agent, l);
      } else {
        UnsavedNew(batch, acts, s, l);
      }
    }
  }

  lemma UnsavedNext(acts: seq<Action>, m: State, a: Action, agent: AgentId, l: nat)
    requires Good(m) && Enabled(m, a) && Serial(m, a, agent) && l < |m.loops| && m.loops[l].agent == agent
    requires RoundOk(m.log, m.loops[l]) && UnsavedOk(acts, m.log, m.loops[l], l)
    ensures UnsavedOk(acts + [a], Next(m, a).log, LoopNext(m, a, l), l)
  {
    NextLog(m, a);
    KnownStage(m, l);
    hide Good, Stage, Next, UnsavedOk;
    if a.Step? && a.l == l {
      UnsavedStep(acts, m, l, a.e);
    } else {
      FeedFace(m, a, l);
      if m.loops[l].saved.Some? { SettledFeed(m, a, l); }
      ForwardedNext(m, a, l);
      hide LoopNext;
      UnsavedKept(acts, a, m.log, Next(m, a).log, m.loops[l], LoopNext(m, a, l), l);
    }
  }

  // ---------------------------------------------------------------- all rounds together

  function Concatenated(log: Log, loops: seq<Loop>, ids: seq<nat>): seq<Message>
    requires IdsOk(loops, ids)
  {
    if ids == [] then [] else Concatenated(log, loops, ids[..|ids| - 1]) + Settled(log, loops[ids[|ids| - 1]])
  }

  /** The versionstamps truncated from a settled range before its round had read them. */
  function Missed(loops: seq<Loop>, ids: seq<nat>): set<int>
    requires IdsOk(loops, ids)
  {
    if ids == [] then {}
    else
      var p := loops[ids[|ids| - 1]];
      Missed(loops, ids[..|ids| - 1]) + set v | v in p.lost && p.start <= v < p.saved.value
  }

  predicate InIds(s: State, ids: seq<nat>) {
    forall i | 0 <= i < |ids| :: ids[i] < |s.loops| && s.loops[ids[i]].home < |s.coals|
  }

  /** What the buses of the rounds accepted, round after round. */
  function Delivered(s: State, ids: seq<nat>): seq<Message>
    requires InIds(s, ids)
  {
    if ids == [] then [] else Delivered(s, ids[..|ids| - 1]) + Accepted(s, ids[|ids| - 1])
  }

  /** What the rounds sent after their last saves. */
  function AllUnsaved(acts: seq<Action>, ids: seq<nat>): nat {
    if ids == [] then 0 else AllUnsaved(acts, ids[..|ids| - 1]) + Unsaved(acts, ids[|ids| - 1])
  }

  /** The rounds follow each other, the last one up to `upto`. */
  predicate Chain(loops: seq<Loop>, agent: AgentId, ids: seq<nat>) {
    && IdsOk(loops, ids)
    && (forall i | 0 <= i < |ids| :: loops[ids[i]].agent == agent && loops[ids[i]].start <= loops[ids[i]].saved.value)
    && (forall i | 0 <= i < |ids| - 1 :: loops[ids[i]].saved.value == loops[ids[i + 1]].start)
  }

  lemma {:induction false} MissedBelow(loops: seq<Loop>, agent: AgentId, ids: seq<nat>)
    requires ids != [] && Chain(loops, agent, ids)
    ensures loops[ids[0]].start <= loops[ids[|ids| - 1]].saved.value
    ensures forall v | v in Missed(loops, ids) :: v < loops[ids[|ids| - 1]].saved.value
  {
    if |ids| > 1 {
      MissedBelow(loops, agent, ids[..|ids| - 1]);
    } else {
      assert Missed(loops, ids[..0]) == {};
    }
  }

  lemma {:induction false} ChainConcatenates(log: Log, loops: seq<Loop>, agent: AgentId, ids: seq<nat>)
    requires Sorted(log) && ids != [] && Chain(loops, agent, ids)
    ensures loops[ids[0]].start <= loops[ids[|ids| - 1]].saved.value
    ensures Concatenated(log, loops, ids)
         == OwnedAll(agent, Window(log, loops[ids[0]].start, loops[ids[|ids| - 1]].saved.value, Missed(loops, ids)))
  {
    var last, missed := loops[ids[|ids| - 1]], Missed(loops, ids);
    var init := ids[..|ids| - 1];
    if |ids| == 1 {
      assert Missed(loops, init) == {} && Concatenated(log, loops, init) == [];
      WindowAgrees(log, last.start, last.saved.value, last.lost, missed);
    } else {
      var first := loops[ids[0]].start;
      ChainConcatenates(log, loops, agent, init);
      MissedBelow(loops, agent, init);
      assert loops[init[|init| - 1]].saved.value == last.start;
      WindowAgrees(log, first, last.start, Missed(loops, init), missed);
      WindowAgrees(log, last.start, last.saved.value, last.lost, missed);
      WindowSplit(log, first, last.start, last.saved.value, missed);
      OwnedAllConcat(agent, Window(log, first, last.start, missed), Window(log, last.start, last.saved.value, missed));
    }
  }

  /** Each round forwarded its settled range and then what it left unsaved. */
  predicate Accounted(acts: seq<Action>, s: State, ids: seq<nat>) {
    && IdsOk(s.loops, ids)
    && forall i | 0 <= i < |ids| :: Settled(s.log, s.loops[ids[i]]) <= s.loops[ids[i]].forwarded
                                    && UnsavedOk(acts, s.log, s.loops[ids[i]], ids[i])
  }

  predicate AllHeard(acts: seq<Action>, loops: seq<Loop>, ids: seq<nat>)
    requires forall i | 0 <= i < |ids| :: ids[i] < |loops|
  {
    forall i | 0 <= i < |ids| :: !SendsUnheard(acts, ids[i], loops[ids[i]].home)
  }

  lemma {:induction false} DeliveredLength(acts: seq<Action>, s: State, ids: seq<nat>)
    requires Accounted(acts, s, ids) && InIds(s, ids)
    requires forall i | 0 <= i < |ids| :: Accepted(s, ids[i]) == s.loops[ids[i]].forwarded
    ensures |Delivered(s, ids)| == |Concatenated(s.log, s.loops, ids)| + AllUnsaved(acts, ids)
    ensures AllUnsaved(acts, ids) == 0 ==> Delivered(s, ids) == Concatenated(s.log, s.loops, ids)
    ensures AllUnsaved(acts, ids) == 0 <==> forall i | 0 <= i < |ids| :: Unsaved(acts, ids[i]) == 0
  {
    hide Settled, Accepted, Unsaved;
    if ids != [] {
      var init, last := ids[..|ids| - 1], ids[|ids| - 1];
      DeliveredLength(acts, s, init);
      assert Unsaved(acts, last) == 0 ==> s.loops[last].forwarded == Settled(s.log, s.loops[last]);
      assert forall i | 0 <= i < |init| :: init[i] == ids[i];
    }
  }

  /** What is known of one round. */
  predicate RoundHolds(acts: seq<Action>, s: State, agent: AgentId, l: nat) {
    && l < |s.loops| && s.loops[l].home < |s.coals|
    && var p := s.loops[l];
       && p.agent == agent && p.saved.Some? && p.start <= p.saved.value
       && Settled(s.log, p) <= p.forwarded && UnsavedOk(acts, s.log, p, l)
       && (!SendsUnheard(acts, l, p.home) ==> Accepted(s, l) == p.forwarded)
  }

  lemma RoundShape(batch: nat, acts: seq<Action>, agent: AgentId, s: State, l: nat)
    requires 1 <= batch && SerialRun(Init(batch), acts, agent) && Run(Init(batch), acts) == Some(s)
    requires l < |s.loops| && s.loops[l].agent == agent && s.loops[l].saved.Some?
    ensures RoundHolds(acts, s, agent, l)
  {
    RoundFacts(batch, acts, agent, s, l);
    UnsavedRun(batch, acts, agent, s, l);
    AcceptedExactly(batch, acts, s, l);
  }

  lemma ChainAccounted(acts: seq<Action>, s: State, agent: AgentId, ids: seq<nat>)
    requires forall i | 0 <= i < |ids| :: RoundHolds(acts, s, agent, ids[i])
    requires IdsOk(s.loops, ids) && Chained(s.loops, s.disk, agent, ids)
    ensures Chain(s.loops, agent, ids) && Accounted(acts, s, ids) && InIds(s, ids)
    ensures AllHeard(acts, s.loops, ids) ==>
      forall i | 0 <= i < |ids| :: Accepted(s, ids[i]) == s.loops[ids[i]].forwarded
  {
    hide Settled, UnsavedOk, Accepted, SendsUnheard;
  }

  lemma RoundsAccounted(batch: nat, acts: seq<Action>, agent: AgentId, s: State)
    requires 1 <= batch && SerialRun(Init(batch), acts, agent) && Run(Init(batch), acts) == Some(s)
    ensures var ids := Rounds(s.loops, agent);
            && Sorted(s.log) && Chain(s.loops, agent, ids) && Accounted(acts, s, ids) && InIds(s, ids)
            && Chained(s.loops, s.disk, agent, ids)
            && (AllHeard(acts, s.loops, ids) ==>
                  forall i | 0 <= i < |ids| :: Accepted(s, ids[i]) == s.loops[ids[i]].forwarded)
  {
    ChainHolds(batch, acts, agent, s);
    var ids := Rounds(s.loops, agent);
    hide Run, Rounds, SerialRun, RoundHolds, Chained, Accounted, InIds, AllHeard, Sorted;
    forall i | 0 <= i < |ids| ensures RoundHolds(acts, s, agent, ids[i]) {
      RoundShape(batch, acts, agent, s, ids[i]);
    }
    ChainAccounted(acts, s, agent, ids);
  }

  // The settled ranges of all rounds concatenate to exactly the filtered log from the first round's start
  // to the persisted cursor, less what was truncated before its round could read it. As long as no round
  // sent to a bus without receivers, the buses together accepted that much and what the rounds sent since
  // their last saves: exactly the filtered log if and only if no round sent anything since its last save.
  lemma RoundsPartitionLog(batch: nat, acts: seq<Action>, agent: AgentId, s: State)
    requires 1 <= batch && SerialRun(Init(batch), acts, agent) && Run(Init(batch), acts) == Some(s)
    ensures IdsOk(s.loops, Rounds(s.loops, agent)) && InIds(s, Rounds(s.loops, agent))
    ensures agent in s.disk <==> Rounds(s.loops, agent) != []
    ensures agent in s.disk ==>
      var ids := Rounds(s.loops, agent);
      var filtered := OwnedAll(agent, Window(s.log, s.loops[ids[0]].start, s.disk[agent], Missed(s.loops, ids)));
      && Concatenated(s.log, s.loops, ids) == filtered
      && (AllHeard(acts, s.loops, ids) ==>
            && |Delivered(s, ids)| == |filtered| + AllUnsaved(acts, ids)
            && (Delivered(s, ids) == filtered <==> forall i | 0 <= i < |ids| :: Unsaved(acts, ids[i]) == 0))
  {
    RoundsAccounted(batch, acts, agent, s);
    hide SerialRun, Run, Rounds, Accounted, InIds, AllHeard, Sorted, Chain, Chained;
    Partition(acts, s, agent, Rounds(s.loops, agent));
  }

  lemma Partition(acts: seq<Action>, s: State, agent: AgentId, ids: seq<nat>)
    requires Sorted(s.log) && Chain(s.loops, agent, ids) && Accounted(acts, s, ids) && InIds(s, ids)
    requires Chained(s.loops, s.disk, agent, ids)
    requires AllHeard(acts, s.loops, ids) ==>
      forall i | 0 <= i < |ids| :: Accepted(s, ids[i]) == s.loops[ids[i]].forwarded
    ensures agent in s.disk <==> ids != []
    ensures agent in s.disk ==>
      var filtered := OwnedAll(agent, Window(s.log, s.loops[ids[0]].start, s.disk[agent], Missed(s.loops, ids)));
      && Concatenated(s.log, s.loops, ids) == filtered
      && (AllHeard(acts, s.loops, ids) ==>
            && |Delivered(s, ids)| == |filtered| + AllUnsaved(acts, ids)
            && (Delivered(s, ids) == filtered <==> forall i | 0 <= i < |ids| :: Unsaved(acts, ids[i]) == 0))
  {
    if ids != [] {
      ChainConcatenates(s.log, s.loops, agent, ids);
      hide Sorted, Chain, Accounted, AllHeard, Accepted, Unsaved, AllUnsaved, Delivered, Concatenated, Missed,
          Window, OwnedAll;
      if AllHeard(acts, s.loops, ids) {
        DeliveredLength(acts, s, ids);
      }
    }
  }

  // Only truncation takes anything out of a settled range.
  lemma {:induction false} MissedTruncated(batch: nat, acts: seq<Action>, s: State, ids: seq<nat>, t: nat)
    requires Reaches(batch, acts, s) && IdsOk(s.loops, ids) && t < |s.log| && s.log[t].vs in Missed(s.loops, ids)
    ensures t < s.trunc
  {
    var last := ids[|ids| - 1];
    if s.log[t].vs in s.loops[last].lost {
      LoopHolds(batch, acts, s, last);
    } else {
      MissedTruncated(batch, acts, s, ids[..|ids| - 1], t);
    }
  }
}
