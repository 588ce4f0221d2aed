// At-least-once over whole runs: whatever mix of crashes, failures, restarts and racing loops, every
// versionstamp from the agent's largest first-run snapshot up to any cursor, in memory or on disk, lies
// in the range some loop of that agent has forwarded in full.

module Coverage {
  import opened Wire
  import opened Feed
  import opened Protocol
  import opened LoopInvariant

  predicate Good(s: State) {
    && 1 <= s.batch && Formed(s) && Sorted(s.log)
    && (forall l | 0 <= l < |s.loops| :: LoopInv(s.batch, s.log, s.trunc, s.loops[l]))
    && (forall a | a in s.disk :: s.disk[a] <= NextVs(s.log))
  }

  lemma Known(s: State, l: nat)
    requires Good(s) && l < |s.loops|
    ensures LoopInv(s.batch, s.log, s.trunc, s.loops[l])
  {
  }

  lemma KnownStage(s: State, l: nat)
    requires Good(s) && l < |s.loops|
    ensures Stage(s.loops[l]) && s.loops[l].start <= s.loops[l].cursor <= s.loops[l].next <= NextVs(s.log)
    ensures s.loops[l].born <= s.loops[l].edge <= |s.log|
  {
    Known(s, l);
  }

  lemma GoodLoop(s: State, a: Action, l: nat)
    requires Good(s) && Enabled(s, a) && l < |s.loops|
    ensures var log := if a.Commit? then s.log + [a.cs] else s.log;
            var trunc := if a.Truncate? then a.upto else s.trunc;
            LoopInv(s.batch, log, trunc, LoopNext(s, a, l))
  {
    match a {
      case Step(k, e) => if k == l { StepKeeps(s, l, e); }
      case Commit(cs, breaks) => CommitKeeps(s.batch, s.log, s.trunc, s.loops[l], cs, l in breaks);
      case Truncate(upto) => TruncateKeeps(s.batch, s.log, s.trunc, s.loops[l], upto);
      case _ =>
    }
  }

  lemma GoodNext(s: State, a: Action)
    requires Good(s) && Enabled(s, a)
    ensures Good(Next(s, a))
  {
    hide Next, LoopNext, LoopInv, Show, Stage;
    NextFormed(s, a);
    NextLog(s, a);
    NextLoopCount(s, a);
    var t := Next(s, a);
    if a.Step? { KnownStage(s, a.l); }
    forall l | 0 <= l < |t.loops| ensures LoopInv(t.batch, t.log, t.trunc, t.loops[l]) {
      if l < |s.loops| {
        NextLoop(s, a, l);
        GoodLoop(s, a, l);
      } else {
        SpawnedOk(s.batch, s.log, s.trunc, t.loops[l].agent, t.loops[l].home);
      }
    }
  }

  lemma SpawnedOk(batch: nat, log: Log, trunc: nat, agent: AgentId, home: nat)
    requires trunc <= |log| && Sorted(log)
    ensures LoopInv(batch, log, trunc, Spawned(agent, home))
  {
    WindowSlice(log, 0, 0, {}, 0, 0);
    Backoff.AfterStep(0);
  }

  // ---------------------------------------------------------------- coverage

  predicate Spans(s: State, agent: AgentId, v: int) {
    exists l | 0 <= l < |s.loops| :: s.loops[l].agent == agent && s.loops[l].start <= v < s.loops[l].cursor
  }

  predicate Covered(s: State, agent: AgentId, x: int) {
    agent in s.floor && forall v | s.floor[agent] <= v < x :: Spans(s, agent, v)
  }

  predicate AllCovered(s: State) {
    && (forall a | a in s.disk :: Covered(s, a, s.disk[a]))
    && (forall l | 0 <= l < |s.loops| && s.loops[l].begun :: Covered(s, s.loops[l].agent, s.loops[l].start))
  }

  predicate LoopGrows(p: Loop, q: Loop) {
    && q.agent == p.agent && q.home == p.home
    && (p.begun ==> q.begun && q.start == p.start && p.cursor <= q.cursor)
    && (!p.begun ==> p.start == p.cursor)
  }

  predicate Grows(s: State, t: State) {
    && |s.loops| <= |t.loops|
    && (forall l | 0 <= l < |s.loops| :: LoopGrows(s.loops[l], t.loops[l]))
    && (forall a | a in s.floor :: a in t.floor && s.floor[a] <= t.floor[a])
  }

  lemma CoveredGrows(s: State, t: State, agent: AgentId, x: int)
    requires Grows(s, t) && Covered(s, agent, x)
    ensures Covered(t, agent, x)
  {
    forall v | t.floor[agent] <= v < x ensures Spans(t, agent, v) {
      assert Spans(s, agent, v);
      var l :| 0 <= l < |s.loops| && s.loops[l].agent == agent && s.loops[l].start <= v < s.loops[l].cursor;
      assert LoopGrows(s.loops[l], t.loops[l]);
      assert t.loops[l].start <= v < t.loops[l].cursor;
    }
  }

  lemma StepGrows(s: State, l: nat, e: Event)
    requires Formed(s) && l < |s.loops| && Can(s, l, e)
    requires Stage(s.loops[l]) && s.loops[l].start <= s.loops[l].cursor <= s.loops[l].next
    ensures LoopGrows(s.loops[l], LoopAfter(s, l, e))
  {
  }

  lemma NextLoopGrows(s: State, a: Action, l: nat)
    requires Formed(s) && Enabled(s, a) && l < |s.loops|
    requires Stage(s.loops[l]) && s.loops[l].start <= s.loops[l].cursor <= s.loops[l].next
    ensures LoopGrows(s.loops[l], LoopNext(s, a, l))
  {
    if a.Step? && a.l == l {
      StepGrows(s, l, a.e);
    }
  }

  lemma NextGrows(s: State, a: Action)
    requires Good(s) && Enabled(s, a)
    ensures Grows(s, Next(s, a))
  {
    var t := Next(s, a);
    NextLoopCount(s, a);
    NextLog(s, a);
    forall l | 0 <= l < |s.loops| ensures LoopGrows(s.loops[l], t.loops[l]) {
      NextLoop(s, a, l);
      NextLoopGrows(s, a, l);
    }
  }

  // A loop's own cursor is covered: below its start by those before it, from there on by itself.
  lemma CursorCovered(s: State, l: nat)
    requires l < |s.loops| && s.loops[l].begun && Covered(s, s.loops[l].agent, s.loops[l].start)
    ensures Covered(s, s.loops[l].agent, s.loops[l].cursor)
  {
    forall v | s.floor[s.loops[l].agent] <= v < s.loops[l].cursor ensures Spans(s, s.loops[l].agent, v) {
    }
  }

  lemma CoverageNext(s: State, a: Action)
    requires Good(s) && AllCovered(s) && Enabled(s, a)
    ensures AllCovered(Next(s, a))
  {
    hide LoopInv, Spans, StampsFrom, Show;
    var t := Next(s, a);
    NextGrows(s, a);
    forall g | g in t.disk ensures Covered(t, g, t.disk[g]) {
      if g in s.disk && t.disk[g] == s.disk[g] {
        CoveredGrows(s, t, g, s.disk[g]);
      } else {
        var p := s.loops[a.l];
        KnownStage(s, a.l);
        CoveredGrows(s, t, g, p.start);
        CursorCovered(t, a.l);
      }
    }
    forall l | 0 <= l < |t.loops| && t.loops[l].begun ensures Covered(t, t.loops[l].agent, t.loops[l].start) {
      if l < |s.loops| && s.loops[l].begun {
        CoveredGrows(s, t, s.loops[l].agent, s.loops[l].start);
      } else if l < |s.loops| && a.Step? && a.e.LoadOk? {
        CoveredGrows(s, t, s.loops[l].agent, s.disk[s.loops[l].agent]);
      }
    }
  }

  // ---------------------------------------------------------------- the floor

  /** The floor of the agent is where one of its loops started. */
  predicate StartsAt(s: State, agent: AgentId, at: int) {
    exists l | 0 <= l < |s.loops| :: s.loops[l].agent == agent && s.loops[l].begun && s.loops[l].start == at
  }

  predicate Grounded(s: State) {
    forall a | a in s.floor :: StartsAt(s, a, s.floor[a])
  }

  lemma GroundedNext(s: State, a: Action)
    requires Good(s) && Grounded(s) && Enabled(s, a)
    ensures Grounded(Next(s, a))
  {
    hide Next, LoopInv, Show, Snapshot;
    var t := Next(s, a);
    NextGrows(s, a);
    NextLog(s, a);
    forall g | g in t.floor ensures StartsAt(t, g, t.floor[g]) {
      if g in s.floor && t.floor[g] == s.floor[g] {
        assert StartsAt(s, g, s.floor[g]);
        var l :| 0 <= l < |s.loops| && s.loops[l].agent == g && s.loops[l].begun && s.loops[l].start == s.floor[g];
        assert LoopGrows(s.loops[l], t.loops[l]);
      } else {
        NextLoop(s, a, a.l);
      }
    }
  }
}
