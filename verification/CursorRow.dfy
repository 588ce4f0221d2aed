// The persisted cursor of an agent is overwritten without looking: it only goes forward as long as the
// agent has one running loop at a time, whatever else fails.

module CursorRow {
  import opened Wire
  import opened Protocol
  import opened LoopInvariant
  import opened Coverage
  import opened Bus
  import opened Guarantees

  /** A loop for the agent starts only after the previous ones have ended. */
  predicate Serial(s: State, a: Action, agent: AgentId)
    requires Formed(s) && Enabled(s, a)
  {
    a.Spawn? && s.coals[a.c].names[|s.coals[a.c].members|] == agent ==>
      forall l | 0 <= l < |s.loops| && s.loops[l].agent == agent :: Ended(s.loops[l])
  }

  predicate SerialRun(s: State, acts: seq<Action>, agent: AgentId)
    requires Formed(s)
  {
    acts == [] ||
    (SerialRun(s, acts[..|acts| - 1], agent) &&
     match Run(s, acts[..|acts| - 1])
     case Some(m) => Enabled(m, acts[|acts| - 1]) && Serial(m, acts[|acts| - 1], agent)
     case None => false)
  }

  predicate OneAtATime(loops: seq<Loop>, agent: AgentId) {
    forall l, k | 0 <= l < k < |loops| && loops[l].agent == agent && loops[k].agent == agent :: Ended(loops[l])
  }

  /** A running loop is not behind its agent's row, and takes a first-run snapshot only without a row. */
  predicate NotBehind(p: Loop, disk: map<AgentId, int>) {
    p.agent in disk && !Ended(p) ==>
      && p.pc != Snap && p.pc != SaveStart
      && (p.begun ==> disk[p.agent] <= p.cursor)
  }

  predicate RowInv(s: State, agent: AgentId) {
    && OneAtATime(s.loops, agent)
    && (forall l | 0 <= l < |s.loops| && s.loops[l].agent == agent :: NotBehind(s.loops[l], s.disk))
  }

  /** A row that is there stays and does not go backwards. */
  predicate RowGrows(before: map<AgentId, int>, after: map<AgentId, int>, agent: AgentId) {
    agent in before ==> agent in after && before[agent] <= after[agent]
  }

  lemma OwnStepRow(s: State, l: nat, e: Event)
    requires Formed(s) && l < |s.loops| && Can(s, l, e) && Stage(s.loops[l])
    requires s.loops[l].cursor <= s.loops[l].next && NotBehind(s.loops[l], s.disk)
    ensures var p, q, t := s.loops[l], LoopAfter(s, l, e), AfterStep(s, l, e);
            && NotBehind(q, t.disk) && q.agent == p.agent && RowGrows(s.disk, t.disk, p.agent)
            && (Ended(p) ==> Ended(q) && t.disk == s.disk)
  {
  }

  // Steps of other loops, commits and truncation leave the agent's loop where it is.
  lemma OtherLoopRow(s: State, a: Action, l: nat)
    requires Formed(s) && Enabled(s, a) && l < |s.loops| && !(a.Step? && a.l == l)
    ensures var p, q := s.loops[l], LoopNext(s, a, l);
            q.agent == p.agent && q.pc == p.pc && q.begun == p.begun && q.cursor == p.cursor
  {
  }

  lemma OneAfter(loops: seq<Loop>, after: seq<Loop>, agent: AgentId)
    requires |loops| == |after| && OneAtATime(loops, agent)
    requires forall k | 0 <= k < |loops| :: after[k].agent == loops[k].agent && (Ended(loops[k]) ==> Ended(after[k]))
    ensures OneAtATime(after, agent)
  {
  }

  // A loop that writes the row while another one of the agent is there is the only one running.
  lemma OthersEnded(loops: seq<Loop>, agent: AgentId, l: nat, k: nat)
    requires OneAtATime(loops, agent) && l < |loops| && k < |loops| && l != k
    requires loops[l].agent == agent && loops[k].agent == agent
    ensures Ended(loops[l]) || Ended(loops[k])
  {
  }

  // A loop whose row somebody else's step may have written.
  lemma OtherKept(s: State, a: Action, agent: AgentId, k: nat)
    requires Good(s) && Enabled(s, a) && RowInv(s, agent) && k < |s.loops| && s.loops[k].agent == agent
    requires !(a.Step? && a.l == k)
    ensures NotBehind(LoopNext(s, a, k), Next(s, a).disk)
  {
    NextLog(s, a);
    OtherLoopRow(s, a, k);
    if a.Step? && s.loops[a.l].agent == agent {
      KnownStage(s, a.l);
      OwnStepRow(s, a.l, a.e);
      hide Good, LoopAfter, Can, Next, LoopNext;
      OthersEnded(s.loops, agent, a.l, k);
    }
  }

  lemma LoopRow(s: State, a: Action, agent: AgentId, k: nat)
    requires Good(s) && Enabled(s, a) && RowInv(s, agent) && k < |s.loops|
    ensures var q := LoopNext(s, a, k);
            && q.agent == s.loops[k].agent && (Ended(s.loops[k]) ==> Ended(q))
            && (q.agent == agent ==> NotBehind(q, Next(s, a).disk))
  {
    KnownStage(s, k);
    hide LoopAfter, Can, Good;
    if a.Step? && a.l == k {
      StepFace(s, k, a.e);
      if s.loops[k].agent == agent { OwnStepRow(s, k, a.e); }
    } else {
      OtherLoopRow(s, a, k);
      if s.loops[k].agent == agent { OtherKept(s, a, agent, k); }
    }
  }

  lemma RowNext(s: State, a: Action, agent: AgentId)
    requires Good(s) && Enabled(s, a) && Serial(s, a, agent) && RowInv(s, agent)
    ensures RowInv(Next(s, a), agent) && RowGrows(s.disk, Next(s, a).disk, agent)
  {
    var t := Next(s, a);
    NextLoopCount(s, a);
    NextLog(s, a);
    forall k | 0 <= k < |s.loops|
      ensures t.loops[k].agent == s.loops[k].agent && (Ended(s.loops[k]) ==> Ended(t.loops[k]))
      ensures t.loops[k].agent == agent ==> NotBehind(t.loops[k], t.disk)
    {
      LoopRow(s, a, agent, k);
      NextLoop(s, a, k);
    }
    if a.Step? && s.loops[a.l].agent == agent {
      KnownStage(s, a.l);
      OwnStepRow(s, a.l, a.e);
    }
    hide Good, Next, LoopAfter, Can;
    if !a.Spawn? {
      OneAfter(s.loops, t.loops, agent);
    }
  }

  // However many loops the agent has had, and whatever failed, the row never goes backwards as long as a
  // loop starts only after the previous ones have ended.
  lemma {:induction false} RowOnlyGrows(batch: nat, acts: seq<Action>, agent: AgentId, n: nat)
    requires 1 <= batch && SerialRun(Init(batch), acts, agent) && n <= |acts|
    ensures Run(Init(batch), acts).Some? && Run(Init(batch), acts[..n]).Some?
    ensures RowInv(Run(Init(batch), acts).value, agent)
    ensures RowGrows(Run(Init(batch), acts[..n]).value.disk, Run(Init(batch), acts).value.disk, agent)
  {
    if n == |acts| {
      assert acts[..n] == acts;
    }
    if acts != [] {
      var init, a := acts[..|acts| - 1], acts[|acts| - 1];
      var k := if n < |acts| then n else n - 1;
      RowOnlyGrows(batch, init, agent, k);
      assert init[..k] == acts[..k];
      var m := Run(Init(batch), init).value;
      ReachesInv(batch, init, m);
      hide RowInv, Good, Next, Serial;
      RowNext(m, a, agent);
    }
  }
}
