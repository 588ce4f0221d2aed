// What every listen loop keeps, in every reachable state: the sequence it has handed to the bus is the
// filtered log from its start cursor, and a loop that waits cannot miss a wake-up.

module LoopInvariant {
  import opened Wire
  import opened Feed
  import opened Protocol
  import Backoff

  /** The messages for the loop's agent in [lo, hi), except those truncated before it read them. */
  function Due(log: Log, p: Loop, lo: int, hi: int): seq<Message> {
    OwnedAll(p.agent, Window(log, lo, hi, p.lost))
  }

  /** No gap, no duplicate, no reordering; and everything below the cursor has been forwarded. */
  predicate Exact(batch: nat, log: Log, p: Loop) {
    && p.start <= p.cursor <= p.next <= NextVs(log)
    && p.forwarded + p.todo == Due(log, p, p.start, p.next)
    && Due(log, p, p.start, p.cursor) <= p.forwarded
    && |Window(log, p.cursor, p.next, p.lost)| <= batch
  }

  /** What is lost to a loop is what was truncated before it read it, and nothing else. */
  predicate LostOk(log: Log, trunc: nat, p: Loop)
    requires trunc <= |log|
  {
    && (forall v | v in p.lost :: p.start <= v < NextVs(log))
    && (p.begun ==> forall t | 0 <= t < trunc :: p.next <= log[t].vs ==> log[t].vs in p.lost)
    && (forall t | trunc <= t < |log| :: log[t].vs !in p.lost)
  }

  predicate HasSubscription(p: Loop) {
    p.pc == Read || p.pc == Forward || p.pc == Save || p.pc == Drained || p.pc == Wait
  }

  /** How the stage the loop is suspended in relates to its other state. */
  predicate Stage(p: Loop) {
    && (p.pc == Forward || p.pc == Dead || (p.todo == [] && p.next == p.cursor))
    && (p.pc == Load || p.pc == Snap ==> !p.begun)
    && (p.begun || p.pc == Load || p.pc == Snap || p.pc == Failed || Ended(p))
    && (!p.begun ==>
          && p.start == p.next == 0 && p.forwarded == [] && p.todo == []
          && p.lost == {} && p.saved.None? && !p.ready)
    && (p.pc == Load || p.pc == Snap || p.pc == SaveStart ==> !p.ready)
    && (p.pc == Wait || p.pc.Sleep? || p.pc == Done(true) ==> p.ready)
    && (HasSubscription(p) ==> p.stream.Live?)
  }

  /** The delay of the next reconnect depends only on the sleeps since the last successful drain. */
  predicate Pace(p: Loop) {
    && p.backoff == Backoff.After(p.sleeps)
    && (p.pc == Wait || p.pc == Load || p.pc == Snap || p.pc == SaveStart ==> p.sleeps == 0)
  }

  /** Every changeset before index `upto` is below `c` or was lost. */
  predicate ReadUpTo(log: Log, p: Loop, upto: nat, c: int) {
    forall t | 0 <= t < upto && t < |log| :: log[t].vs < c || log[t].vs in p.lost
  }

  predicate LiveEdge(log: Log, p: Loop) {
    && p.born <= p.edge <= |log|
    && ((p.pc == Forward || p.pc == Save) && p.short ==> ReadUpTo(log, p, p.edge, p.next))
    && (p.pc == Drained || p.pc == Wait ==> ReadUpTo(log, p, p.edge, p.next))
    && (p.ready ==> ReadUpTo(log, p, p.born, p.cursor))
  }

  /** A wake-up is queued, or the stream is broken and will force a reconnect and a drain. */
  predicate WillWake(p: Loop) {
    p.stream.Live? && (p.stream.queued > 0 || p.stream.broken)
  }

  predicate NoLostWake(log: Log, p: Loop) {
    p.pc == Forward || p.pc == Save || p.pc == Drained || p.pc == Wait ==>
      forall t | p.edge <= t < |log| && Owned(p.agent, log[t]) != [] :: WillWake(p)
  }

  predicate LoopInv(batch: nat, log: Log, trunc: nat, p: Loop)
    requires trunc <= |log|
  {
    && Exact(batch, log, p) && LostOk(log, trunc, p) && Stage(p) && Pace(p) && LiveEdge(log, p) && NoLostWake(log, p)
  }

  // ---------------------------------------------------------------- start cursors

  lemma PageStamps(page: seq<Changeset>)
    requires page != [] && forall i, j | 0 <= i < j < |page| :: page[i].vs < page[j].vs
    ensures MaxVersionstamp(Arr(EncodeAll(page))) == page[|page| - 1].vs
  {
    StampsRoundTrip(page);
    var xs := Stamps(EncodeAll(page));
    assert xs[|page| - 1] in xs;
  }

  // The first-run snapshot is one past the last changeset it saw, even when the snapshot is capped:
  // never past the next versionstamp to be allocated, and exactly there when the cap is not reached.
  lemma SnapshotValue(log: Log, trunc: nat)
    requires Sorted(log) && trunc <= |log|
    ensures 1 <= Snapshot(log, trunc) <= NextVs(log)
    ensures trunc < |log| <= trunc + 1_000_000 ==> Snapshot(log, trunc) == NextVs(log)
    ensures trunc < |log| ==>
      forall t | trunc <= t < |log| :: log[t].vs < Snapshot(log, trunc) <==> t < trunc + 1_000_000
  {
    var page := Show(log, trunc, 0, SNAPSHOT_LIMIT);
    assert FirstAt(log, trunc, 0) == trunc;
    if page != [] {
      assert page == log[trunc..trunc + |page|];
      assert page[|page| - 1] == log[trunc + |page| - 1];
      PageStamps(page);
    } else {
      assert EncodeAll(page) == [];
    }
  }

  // ---------------------------------------------------------------- preservation

  lemma BeginKeeps(batch: nat, log: Log, trunc: nat, p: Loop, at: int)
    requires Sorted(log) && trunc <= |log| && LoopInv(batch, log, trunc, p) && !p.begun && at <= NextVs(log)
    ensures var q := Begin(p, at, log, trunc);
            Exact(batch, log, q) && LostOk(log, trunc, q) && q.start == q.next == at && q.todo == []
  {
    var q := Begin(p, at, log, trunc);
    WindowSlice(log, at, at, q.lost, 0, 0);
  }

  // Events that leave the forwarded sequence, the page in hand and the cursor alone keep exactness.
  predicate SameProgress(p: Loop, q: Loop) {
    && q.agent == p.agent && q.start == p.start && q.cursor == p.cursor && q.next == p.next
    && q.forwarded == p.forwarded && q.todo == p.todo && q.lost == p.lost && q.begun == p.begun
  }

  lemma ProgressKeeps(batch: nat, log: Log, trunc: nat, p: Loop, q: Loop)
    requires trunc <= |log| && SameProgress(p, q)
    ensures Exact(batch, log, p) ==> Exact(batch, log, q)
    ensures LostOk(log, trunc, p) ==> LostOk(log, trunc, q)
  {
  }

  lemma ReadKeepsExact(batch: nat, log: Log, trunc: nat, p: Loop)
    requires 1 <= batch && Sorted(log) && trunc <= |log| && p.begun && p.todo == [] && p.next == p.cursor
    requires Exact(batch, log, p) && LostOk(log, trunc, p)
    ensures var q := TakePage(p, Show(log, trunc, p.cursor, batch), batch, |log|);
            && Exact(batch, log, q) && LostOk(log, trunc, q)
            && (q.pc == Drained || q.short ==> ReadUpTo(log, q, |log|, q.next))
  {
    var page := Show(log, trunc, p.cursor, batch);
    var q := TakePage(p, page, batch, |log|);
    PageIsWindow(log, trunc, p.cursor, batch, p.lost);
    hide Show, OwnedAll, Window;
    if page == [] {
      ProgressKeeps(batch, log, trunc, p, q);
    } else {
      WindowSplit(log, p.start, p.cursor, q.next, p.lost);
      OwnedAllConcat(p.agent, Window(log, p.start, p.cursor, p.lost), page);
      assert p.forwarded + [] == p.forwarded;
      assert Due(log, q, p.start, p.cursor) == p.forwarded;
    }
  }

  predicate Startable(s: State, agent: AgentId) {
    agent in s.disk ==> s.disk[agent] <= NextVs(s.log)
  }

  lemma StartKeepsExact(s: State, l: nat, e: Event)
    requires Formed(s) && Sorted(s.log) && l < |s.loops| && Can(s, l, e) && (e.LoadOk? || e.SnapshotOk?)
    requires Startable(s, s.loops[l].agent)
    requires LoopInv(s.batch, s.log, s.trunc, s.loops[l])
    ensures Exact(s.batch, s.log, LoopAfter(s, l, e)) && LostOk(s.log, s.trunc, LoopAfter(s, l, e))
  {
    var p := s.loops[l];
    var q := LoopAfter(s, l, e);
    if e.SnapshotOk? {
      SnapshotValue(s.log, s.trunc);
    }
    if q.begun {
      BeginKeeps(s.batch, s.log, s.trunc, p, q.start);
      ProgressKeeps(s.batch, s.log, s.trunc, Begin(p, q.start, s.log, s.trunc), q);
    } else {
      ProgressKeeps(s.batch, s.log, s.trunc, p, q);
    }
  }

  lemma SendKeepsExact(batch: nat, log: Log, trunc: nat, p: Loop, q: Loop)
    requires trunc <= |log| && Exact(batch, log, p) && LostOk(log, trunc, p) && p.todo != []
    requires q == p.(forwarded := p.forwarded + [p.todo[0]], todo := p.todo[1..])
    ensures Exact(batch, log, q) && LostOk(log, trunc, q)
  {
    assert q.forwarded + q.todo == p.forwarded + p.todo;
  }

  lemma AdvanceKeepsExact(batch: nat, log: Log, trunc: nat, p: Loop, q: Loop)
    requires trunc <= |log| && Exact(batch, log, p) && LostOk(log, trunc, p) && p.todo == []
    requires q == p.(pc := Save, cursor := p.next)
    ensures Exact(batch, log, q) && LostOk(log, trunc, q)
  {
    WindowSlice(log, q.cursor, q.cursor, q.lost, 0, 0);
    assert p.forwarded + [] == p.forwarded;
  }

  predicate Starts(e: Event) {
    e.LoadOk? || e.SnapshotOk?
  }

  /** What any later event does to the page in hand and the cursor. */
  predicate Shaped(s: State, p: Loop, q: Loop, e: Event)
    requires s.trunc <= |s.log|
  {
    match e
    case ReadOk => p.pc == Read && q == TakePage(p, Show(s.log, s.trunc, p.cursor, s.batch), s.batch, |s.log|)
    case Send => p.todo != [] && q == p.(forwarded := p.forwarded + [p.todo[0]], todo := p.todo[1..])
    case Advance => p.todo == [] && q == p.(pc := Save, cursor := p.next)
    case _ => SameProgress(p, q)
  }

  lemma StepShape(s: State, l: nat, e: Event)
    requires Formed(s) && l < |s.loops| && Can(s, l, e) && !Starts(e)
    ensures Shaped(s, s.loops[l], LoopAfter(s, l, e), e)
  {
    hide Show, TakePage;
  }

  lemma ShapeKeepsExact(s: State, p: Loop, q: Loop, e: Event)
    requires 1 <= s.batch && s.trunc <= |s.log| && Sorted(s.log) && Stage(p) && Shaped(s, p, q, e)
    requires Exact(s.batch, s.log, p) && LostOk(s.log, s.trunc, p)
    ensures Exact(s.batch, s.log, q) && LostOk(s.log, s.trunc, q)
  {
    hide Exact, LostOk, Show;
    match e {
      case ReadOk => ReadKeepsExact(s.batch, s.log, s.trunc, p);
      case Send => SendKeepsExact(s.batch, s.log, s.trunc, p, q);
      case Advance => AdvanceKeepsExact(s.batch, s.log, s.trunc, p, q);
      case _ => ProgressKeeps(s.batch, s.log, s.trunc, p, q);
    }
  }

  lemma StepKeepsExact(s: State, l: nat, e: Event)
    requires 1 <= s.batch && Formed(s) && Sorted(s.log) && l < |s.loops| && Can(s, l, e)
    requires Startable(s, s.loops[l].agent)
    requires LoopInv(s.batch, s.log, s.trunc, s.loops[l])
    ensures Exact(s.batch, s.log, LoopAfter(s, l, e)) && LostOk(s.log, s.trunc, LoopAfter(s, l, e))
  {
    if Starts(e) {
      StartKeepsExact(s, l, e);
    } else {
      hide LoopAfter, Can, Exact, LostOk, Stage, Pace, LiveEdge, NoLostWake, Shaped;
      StepShape(s, l, e);
      ShapeKeepsExact(s, s.loops[l], LoopAfter(s, l, e), e);
    }
  }

  /** The events of a drain, from the subscription on. */
  predicate Drains(e: Event) {
    e.SubscribeOk? || e.ReadOk? || e.Persist? || e.Send? || e.Advance? || e.Settle? || e.Wake?
  }

  lemma StartKeepsStage(s: State, l: nat, e: Event)
    requires Formed(s) && l < |s.loops| && Can(s, l, e) && Stage(s.loops[l]) && Starts(e)
    ensures Stage(LoopAfter(s, l, e))
  {
    hide Snapshot, StampsFrom;
  }

  lemma DrainKeepsStage(s: State, l: nat, e: Event)
    requires Formed(s) && l < |s.loops| && Can(s, l, e) && Stage(s.loops[l]) && Drains(e)
    ensures Stage(LoopAfter(s, l, e))
  {
    hide Show, OwnedAll;
  }

  lemma OtherKeepsStage(s: State, l: nat, e: Event)
    requires Formed(s) && l < |s.loops| && Can(s, l, e) && Stage(s.loops[l]) && !Starts(e) && !Drains(e)
    ensures Stage(LoopAfter(s, l, e))
  {
    hide Snapshot, Show, StampsFrom, OwnedAll;
  }

  lemma StepKeepsStage(s: State, l: nat, e: Event)
    requires Formed(s) && l < |s.loops| && Can(s, l, e) && Stage(s.loops[l])
    ensures Stage(LoopAfter(s, l, e))
  {
    hide LoopAfter, Can, Stage;
    if Starts(e) {
      StartKeepsStage(s, l, e);
    } else if Drains(e) {
      DrainKeepsStage(s, l, e);
    } else {
      OtherKeepsStage(s, l, e);
    }
  }

  lemma StepKeepsPace(s: State, l: nat, e: Event)
    requires Formed(s) && l < |s.loops| && Can(s, l, e) && Pace(s.loops[l])
    ensures Pace(LoopAfter(s, l, e))
  {
    Backoff.AfterStep(s.loops[l].sleeps);
  }

  lemma StepKeepsWake(s: State, l: nat, e: Event)
    requires Formed(s) && l < |s.loops| && Can(s, l, e)
    requires NoLostWake(s.log, s.loops[l])
    ensures NoLostWake(s.log, LoopAfter(s, l, e))
  {
    hide Snapshot, Show, StampsFrom, Owned;
  }

  lemma StepKeepsLive(s: State, l: nat, e: Event)
    requires Formed(s) && l < |s.loops| && Can(s, l, e) && s.loops[l].cursor <= s.loops[l].next
    requires Stage(s.loops[l]) && LiveEdge(s.log, s.loops[l])
    requires e.ReadOk? ==> var q := LoopAfter(s, l, e);
             q.lost == s.loops[l].lost && (q.pc == Drained || q.short ==> ReadUpTo(s.log, q, |s.log|, q.next))
    ensures LiveEdge(s.log, LoopAfter(s, l, e))
  {
    hide Snapshot, Show, StampsFrom, Owned, OwnedAll;
  }

  lemma StepKeepsEdge(s: State, l: nat, e: Event)
    requires 1 <= s.batch && Formed(s) && Sorted(s.log) && l < |s.loops| && Can(s, l, e)
    requires LoopInv(s.batch, s.log, s.trunc, s.loops[l])
    ensures LiveEdge(s.log, LoopAfter(s, l, e)) && NoLostWake(s.log, LoopAfter(s, l, e))
  {
    if e.ReadOk? {
      ReadKeepsExact(s.batch, s.log, s.trunc, s.loops[l]);
    }
    assert s.loops[l].cursor <= s.loops[l].next;
    hide Exact, LostOk, Pace, Show, LiveEdge, NoLostWake, ReadUpTo;
    StepKeepsWake(s, l, e);
    StepKeepsLive(s, l, e);
  }

  lemma StepKeeps(s: State, l: nat, e: Event)
    requires 1 <= s.batch && Formed(s) && Sorted(s.log) && l < |s.loops| && Can(s, l, e)
    requires Startable(s, s.loops[l].agent)
    requires LoopInv(s.batch, s.log, s.trunc, s.loops[l])
    ensures LoopInv(s.batch, s.log, s.trunc, LoopAfter(s, l, e))
  {
    StepKeepsExact(s, l, e);
    StepKeepsStage(s, l, e);
    StepKeepsPace(s, l, e);
    StepKeepsEdge(s, l, e);
  }

  lemma CommitKeepsExact(batch: nat, log: Log, p: Loop, cs: Changeset)
    requires Sorted(log) && NextVs(log) <= cs.vs && Exact(batch, log, p)
    ensures Exact(batch, log + [cs], p)
  {
    hide Window, OwnedAll;
    WindowBelow(log, cs, p.start, p.next, p.lost);
    WindowBelow(log, cs, p.start, p.cursor, p.lost);
    WindowBelow(log, cs, p.cursor, p.next, p.lost);
  }

  lemma CommitKeepsEdge(log: Log, p: Loop, cs: Changeset, breaks: bool)
    requires LiveEdge(log, p) && NoLostWake(log, p) && Stage(p)
    ensures LiveEdge(log + [cs], Notify(p, cs, breaks)) && NoLostWake(log + [cs], Notify(p, cs, breaks))
  {
    assert forall t | 0 <= t < |log| :: (log + [cs])[t] == log[t];
  }

  lemma CommitKeepsLost(log: Log, trunc: nat, p: Loop, cs: Changeset)
    requires trunc <= |log| && Sorted(log) && NextVs(log) <= cs.vs && LostOk(log, trunc, p)
    ensures LostOk(log + [cs], trunc, p)
  {
  }

  lemma CommitKeeps(batch: nat, log: Log, trunc: nat, p: Loop, cs: Changeset, breaks: bool)
    requires trunc <= |log| && Sorted(log) && NextVs(log) <= cs.vs && LoopInv(batch, log, trunc, p)
    ensures LoopInv(batch, log + [cs], trunc, Notify(p, cs, breaks))
  {
    var q := Notify(p, cs, breaks);
    hide Window, OwnedAll;
    CommitKeepsLost(log, trunc, p, cs);
    CommitKeepsExact(batch, log, p, cs);
    hide Exact, LostOk;
    ProgressKeeps(batch, log + [cs], trunc, p, q);
    CommitKeepsEdge(log, p, cs, breaks);
  }

  lemma TruncateKeeps(batch: nat, log: Log, trunc: nat, p: Loop, upto: nat)
    requires Sorted(log) && trunc <= upto <= |log| && LoopInv(batch, log, trunc, p)
    ensures LoopInv(batch, log, upto, Forget(p, log, trunc, upto))
  {
    hide Window, OwnedAll;
    if p.begun {
      var more := StampsFrom(log, trunc, upto, p.next);
      WindowLost(log, p.start, p.next, p.lost, more);
      WindowLost(log, p.start, p.cursor, p.lost, more);
      WindowLost(log, p.cursor, p.next, p.lost, more);
    }
  }
}
