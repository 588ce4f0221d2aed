// The bus's promises as statements about every run.

module Guarantees {
  import opened Wire
  import opened Feed
  import opened Protocol
  import opened LoopInvariant
  import opened Coverage
  import opened Bus
  import opened Sums
  import Backoff

  predicate Inv(s: State) {
    Good(s) && AllCovered(s) && Grounded(s) && Buses(s)
  }

  lemma InvInit(batch: nat)
    requires 1 <= batch
    ensures Inv(Init(batch))
  {
  }

  lemma InvNext(s: State, a: Action)
    requires Inv(s) && Enabled(s, a)
    ensures Inv(Next(s, a))
  {
    GoodNext(s, a);
    CoverageNext(s, a);
    GroundedNext(s, a);
    BusesNext(s, a);
  }

  lemma {:induction false} InvRun(s: State, acts: seq<Action>)
    requires Inv(s) && Run(s, acts).Some?
    ensures Inv(Run(s, acts).value)
  {
    if acts != [] {
      InvRun(s, acts[..|acts| - 1]);
      InvNext(Run(s, acts[..|acts| - 1]).value, acts[|acts| - 1]);
    }
  }

  /** `acts` is a run of the system from its empty start to `s`. */
  predicate Reaches(batch: nat, acts: seq<Action>, s: State) {
    1 <= batch && Run(Init(batch), acts) == Some(s)
  }

  lemma ReachesInv(batch: nat, acts: seq<Action>, s: State)
    requires Reaches(batch, acts, s)
    ensures Inv(s)
  {
    InvInit(batch);
    InvRun(Init(batch), acts);
  }

  // The last action of a run, and the state it was taken in.
  lemma LastAction(batch: nat, acts: seq<Action>, s: State) returns (m: State, a: Action)
    requires Reaches(batch, acts, s) && acts != []
    ensures Reaches(batch, acts[..|acts| - 1], m) && acts == acts[..|acts| - 1] + [a] && Inv(m)
    ensures Formed(m) && Enabled(m, a) && s == Next(m, a) && Formed(s)
  {
    assert Formed(Init(batch));
    hide Inv, Next, Enabled, Formed;
    RunLast(Init(batch), acts);
    m, a := Run(Init(batch), acts[..|acts| - 1]).value, acts[|acts| - 1];
    ReachesInv(batch, acts[..|acts| - 1], m);
  }

  lemma LoopHolds(batch: nat, acts: seq<Action>, s: State, l: nat)
    requires Reaches(batch, acts, s) && l < |s.loops|
    ensures Formed(s) && s.loops[l].home < |s.coals| && LoopInv(s.batch, s.log, s.trunc, s.loops[l])
  {
    ReachesInv(batch, acts, s);
  }

  // ---------------------------------------------------------------- forwarding

  // Within one loop's life, across any reconnects and failures, what it handed to the bus is the
  // filtered log from its start cursor: exactly up to the cursor whenever no page is in hand.
  lemma ExactForwarding(batch: nat, acts: seq<Action>, s: State, l: nat)
    requires Reaches(batch, acts, s) && l < |s.loops|
    ensures var p := s.loops[l];
            && p.forwarded + p.todo == Due(s.log, p, p.start, p.next)
            && Due(s.log, p, p.start, p.cursor) <= p.forwarded
            && (p.pc != Forward && p.pc != Dead ==> p.forwarded == Due(s.log, p, p.start, p.cursor))
  {
    ReachesInv(batch, acts, s);
    var p := s.loops[l];
    assert LoopInv(s.batch, s.log, s.trunc, p);
    if p.pc != Forward && p.pc != Dead {
      assert p.forwarded + [] == p.forwarded;
    }
  }

  // A changeset in a loop's range was forwarded as one contiguous run, unless the feed lost it first.
  lemma ForwardedIn(batch: nat, log: Log, trunc: nat, p: Loop, t: nat) returns (k: nat)
    requires trunc <= |log| && Exact(batch, log, p) && LostOk(log, trunc, p)
    requires t < |log| && p.start <= log[t].vs < p.cursor
    ensures log[t].vs in p.lost ==> t < trunc
    ensures log[t].vs !in p.lost ==>
      RunsAt(p.forwarded, k, Owned(p.agent, log[t]))
  {
    k := 0;
    if log[t].vs !in p.lost {
      var w := Window(log, p.start, p.cursor, p.lost);
      var i := WindowMember(log, p.start, p.cursor, p.lost, t);
      OwnedInPage(p.agent, w, i);
      k := |OwnedAll(p.agent, w[..i])|;
      var due := OwnedAll(p.agent, w);
      assert due[k..k + |Owned(p.agent, w[i])|] == Owned(p.agent, w[i]);
      assert p.forwarded[..|due|] == due;
    }
  }

  lemma ForwardedRun(batch: nat, acts: seq<Action>, s: State, l: nat, t: nat) returns (k: nat)
    requires Reaches(batch, acts, s) && l < |s.loops| && t < |s.log|
    requires s.loops[l].start <= s.log[t].vs < s.loops[l].cursor
    ensures s.log[t].vs in s.loops[l].lost ==> t < s.trunc
    ensures var p, own := s.loops[l], Owned(s.loops[l].agent, s.log[t]);
            s.log[t].vs !in p.lost ==> RunsAt(p.forwarded, k, own)
  {
    LoopHolds(batch, acts, s, l);
    hide Reaches, Exact, Stage, Pace, LiveEdge, NoLostWake;
    k := ForwardedIn(s.batch, s.log, s.trunc, s.loops[l], t);
  }

  /** `x` is a cursor of the agent: its persisted row, or the cursor of one of its loops. */
  predicate CursorOf(s: State, agent: AgentId, x: int) {
    || (agent in s.disk && x == s.disk[agent])
    || (exists j | 0 <= j < |s.loops| :: s.loops[j].agent == agent && s.loops[j].begun && s.loops[j].cursor == x)
  }

  lemma SpannedBy(s: State, agent: AgentId, v: int)
    requires Spans(s, agent, v)
    ensures exists l | 0 <= l < |s.loops| :: s.loops[l].agent == agent && s.loops[l].start <= v < s.loops[l].cursor
  {
  }

  lemma SpanningLoop(batch: nat, acts: seq<Action>, s: State, agent: AgentId, x: int, v: int) returns (l: nat)
    requires Reaches(batch, acts, s) && CursorOf(s, agent, x)
    requires v < x && (agent in s.floor ==> s.floor[agent] <= v)
    ensures agent in s.floor && l < |s.loops| && s.loops[l].agent == agent
    ensures s.loops[l].start <= v < s.loops[l].cursor
  {
    ReachesInv(batch, acts, s);
    assert AllCovered(s);
    hide Inv, Good, Run, Spans;
    if !(agent in s.disk && x == s.disk[agent]) {
      var j :| 0 <= j < |s.loops| && s.loops[j].agent == agent && s.loops[j].begun && s.loops[j].cursor == x;
      CursorCovered(s, j);
    }
    assert Covered(s, agent, x);
    assert Spans(s, agent, v);
    SpannedBy(s, agent, v);
    l :| 0 <= l < |s.loops| && s.loops[l].agent == agent && s.loops[l].start <= v < s.loops[l].cursor;
  }

  // The floor below which nothing is promised is no further up than it must be: it is the start cursor of
  // one of the agent's own loops, and no cursor was ever saved for an agent without one.
  lemma FloorIsAStart(batch: nat, acts: seq<Action>, s: State, agent: AgentId) returns (l: nat)
    requires Reaches(batch, acts, s) && (agent in s.floor || agent in s.disk)
    ensures agent in s.floor && l < |s.loops| && s.loops[l].agent == agent && s.loops[l].begun
    ensures s.loops[l].start == s.floor[agent] <= NextVs(s.log)
  {
    ReachesInv(batch, acts, s);
    if agent in s.disk { assert Covered(s, agent, s.disk[agent]); }
    assert StartsAt(s, agent, s.floor[agent]);
    l :| 0 <= l < |s.loops| && s.loops[l].agent == agent && s.loops[l].begun && s.loops[l].start == s.floor[agent];
    LoopHolds(batch, acts, s, l);
  }

  // ---------------------------------------------------------------- wake-ups

  lemma WaitingWakes(log: Log, trunc: nat, p: Loop, t: nat)
    requires trunc <= t < |log| && p.pc == Wait && p.next == p.cursor
    requires LostOk(log, trunc, p) && LiveEdge(log, p) && NoLostWake(log, p)
    requires p.cursor <= log[t].vs && Owned(p.agent, log[t]) != []
    ensures WillWake(p)
  {
    assert ReadUpTo(log, p, p.edge, p.next);
  }

  // A loop that waits while an unread change for it is retained has a wake-up queued or a broken stream,
  // so its select can only take cancellation, a wake (and drain), or the end of the stream (and reconnect).
  lemma NoLostWakeUp(batch: nat, acts: seq<Action>, s: State, l: nat, t: nat)
    requires Reaches(batch, acts, s) && l < |s.loops| && s.loops[l].pc == Wait
    requires s.trunc <= t < |s.log| && s.loops[l].cursor <= s.log[t].vs
    ensures Formed(s)
    ensures Owned(s.loops[l].agent, s.log[t]) != [] ==>
      WillWake(s.loops[l]) && (Can(s, l, Wake) || Can(s, l, StreamEnd) || Can(s, l, TakeCancel))
  {
    LoopHolds(batch, acts, s, l);
    hide Reaches, Exact, Pace;
    if Owned(s.loops[l].agent, s.log[t]) != [] {
      WaitingWakes(s.log, s.trunc, s.loops[l], t);
    }
  }

  // ---------------------------------------------------------------- nothing skipped

  // Every cursor, loaded, snapshotted, drained or persisted, is at most the next versionstamp.
  lemma CursorsBounded(batch: nat, acts: seq<Action>, s: State, agent: AgentId, x: int)
    requires Reaches(batch, acts, s) && CursorOf(s, agent, x)
    ensures x <= NextVs(s.log)
  {
    ReachesInv(batch, acts, s);
    if !(agent in s.disk && x == s.disk[agent]) {
      var j :| 0 <= j < |s.loops| && s.loops[j].agent == agent && s.loops[j].begun && s.loops[j].cursor == x;
      assert LoopInv(s.batch, s.log, s.trunc, s.loops[j]);
    }
  }

  predicate Extends(s: State, t: State) {
    && Grows(s, t) && s.log <= t.log
    && (forall l | 0 <= l < |s.loops| :: s.loops[l].ready ==> t.loops[l].ready)
    && (forall l | 0 <= l < |s.loops| && Ended(s.loops[l]) ::
          Ended(t.loops[l]) && t.loops[l].ready == s.loops[l].ready)
  }

  lemma NextReady(s: State, a: Action)
    requires Formed(s) && Enabled(s, a)
    ensures forall l | 0 <= l < |s.loops| && s.loops[l].ready :: l < |Next(s, a).loops| && Next(s, a).loops[l].ready
    ensures forall l | 0 <= l < |s.loops| && Ended(s.loops[l]) ::
      l < |Next(s, a).loops| && Ended(Next(s, a).loops[l]) && Next(s, a).loops[l].ready == s.loops[l].ready
  {
    forall l | 0 <= l < |s.loops|
      ensures l < |Next(s, a).loops| && (s.loops[l].ready ==> Next(s, a).loops[l].ready)
      ensures Ended(s.loops[l]) ==> Ended(Next(s, a).loops[l]) && Next(s, a).loops[l].ready == s.loops[l].ready
    {
      NextLoop(s, a, l);
      LoopReady(s, a, l);
    }
  }

  lemma LoopReady(s: State, a: Action, l: nat)
    requires Formed(s) && Enabled(s, a) && l < |s.loops|
    ensures var p, q := s.loops[l], LoopNext(s, a, l);
            (p.ready ==> q.ready) && (Ended(p) ==> Ended(q) && q.ready == p.ready)
  {
    if a.Step? && a.l == l {
      StepFace(s, l, a.e);
      hide LoopAfter;
    }
  }

  lemma NextExtends(s: State, a: Action)
    requires Good(s) && Enabled(s, a)
    ensures Extends(s, Next(s, a))
  {
    NextGrows(s, a);
    NextLog(s, a);
    NextReady(s, a);
  }

  lemma ExtendsItself(s: State)
    requires Good(s)
    ensures Extends(s, s)
  {
    forall l | 0 <= l < |s.loops| ensures LoopGrows(s.loops[l], s.loops[l]) {
      assert LoopInv(s.batch, s.log, s.trunc, s.loops[l]);
    }
  }

  lemma ExtendsTransitive(s: State, m: State, t: State)
    requires Extends(s, m) && Extends(m, t)
    ensures Extends(s, t)
  {
    GrowsTransitive(s, m, t);
  }

  lemma {:induction false} RunExtends(s: State, acts: seq<Action>)
    requires Inv(s) && Run(s, acts).Some?
    ensures Extends(s, Run(s, acts).value)
  {
    if acts == [] {
      ExtendsItself(s);
    } else {
      var init, a := acts[..|acts| - 1], acts[|acts| - 1];
      RunExtends(s, init);
      InvRun(s, init);
      var m := Run(s, init).value;
      NextExtends(m, a);
      ExtendsTransitive(s, m, Next(m, a));
    }
  }

  lemma GrowsTransitive(s: State, m: State, t: State)
    requires Grows(s, m) && Grows(m, t)
    ensures Grows(s, t)
  {
    forall l | 0 <= l < |s.loops| ensures LoopGrows(s.loops[l], t.loops[l]) {
      assert LoopGrows(s.loops[l], m.loops[l]) && LoopGrows(m.loops[l], t.loops[l]);
    }
  }

  /** What becomes of the changeset at index `t` for a loop: pending, lost by truncation, or forwarded. */
  predicate NotSkipped(log: Log, trunc: nat, p: Loop, t: nat, k: nat)
    requires t < |log|
  {
    var own := Owned(p.agent, log[t]);
    && p.start <= log[t].vs
    && (log[t].vs in p.lost ==> t < trunc)
    && (log[t].vs < p.cursor && log[t].vs !in p.lost ==>
          RunsAt(p.forwarded, k, own))
  }

  lemma LaterChange(batch: nat, log: Log, longer: Log, trunc: nat, p: Loop, q: Loop, t: nat) returns (k: nat)
    requires Sorted(longer) && log <= longer && |log| <= t < |longer| && trunc <= |longer|
    requires p.begun && p.cursor <= NextVs(log) && LoopGrows(p, q)
    requires p.start <= p.cursor && Exact(batch, longer, q) && LostOk(longer, trunc, q)
    ensures p.cursor <= longer[t].vs && NotSkipped(longer, trunc, q, t, k)
  {
    LogTailAbove(log, longer, t);
    hide Sorted;
    k := 0;
    if longer[t].vs < q.cursor {
      k := ForwardedIn(batch, longer, trunc, q, t);
    }
  }

  // A change committed after a loop has begun lies at or above the cursor the loop then had; from then on
  // it is pending, lost by truncation, or forwarded.
  lemma LaterChangeNotSkipped(s: State, l: nat, acts: seq<Action>, u: State, t: nat) returns (k: nat)
    requires Inv(s) && l < |s.loops| && s.loops[l].begun
    requires Run(s, acts) == Some(u) && |s.log| <= t < |u.log|
    ensures s.loops[l].cursor <= u.log[t].vs && l < |u.loops| && NotSkipped(u.log, u.trunc, u.loops[l], t, k)
  {
    RunExtends(s, acts);
    InvRun(s, acts);
    KnownStage(s, l);
    Known(u, l);
    assert LoopGrows(s.loops[l], u.loops[l]) && s.log <= u.log && Sorted(u.log);
    hide Inv, Run, Good, Extends, Stage, Pace, LiveEdge, NoLostWake, Exact, LostOk, Sorted, LoopGrows, NotSkipped;
    k := LaterChange(u.batch, s.log, u.log, u.trunc, s.loops[l], u.loops[l], t);
  }

  lemma LogTailAbove(log: Log, longer: Log, t: nat)
    requires Sorted(longer) && log <= longer && |log| <= t < |longer|
    ensures NextVs(log) <= longer[t].vs
  {
    if log != [] {
      assert longer[|log| - 1] == log[|log| - 1];
    }
  }

  lemma ReturnedMember(batch: nat, acts: seq<Action>, s: State, c: nat, m: nat)
    requires Reaches(batch, acts, s) && c < |s.coals| && s.coals[c].phase == ReturnedOk && m < |s.coals[c].names|
    ensures m < |s.coals[c].members| && s.coals[c].members[m] < |s.loops|
    ensures var p := s.loops[s.coals[c].members[m]]; p.agent == s.coals[c].names[m] && p.ready && p.begun
  {
    ReachesInv(batch, acts, s);
    assert Roster(s.loops, c, s.coals[c]);
    assert Stage(s.loops[s.coals[c].members[m]]) by {
      assert LoopInv(s.batch, s.log, s.trunc, s.loops[s.coals[c].members[m]]);
    }
  }

  // The handshake guarantee: once `new` has returned Ok, a change committed later for any member lies at
  // or above that member's cursor, and is then pending, lost by truncation, or forwarded: never skipped.
  lemma HandshakeGuarantee(batch: nat, before: seq<Action>, s: State, c: nat, m: nat,
                           acts: seq<Action>, u: State, t: nat)
    returns (l: nat, k: nat)
    requires Reaches(batch, before, s) && c < |s.coals| && s.coals[c].phase == ReturnedOk && m < |s.coals[c].names|
    requires Formed(s) && Run(s, acts) == Some(u) && |s.log| <= t < |u.log|
    ensures m < |s.coals[c].members| && l == s.coals[c].members[m] && l < |s.loops|
    ensures s.loops[l].agent == s.coals[c].names[m] && s.loops[l].cursor <= u.log[t].vs
    ensures l < |u.loops| && NotSkipped(u.log, u.trunc, u.loops[l], t, k)
  {
    ReturnedMember(batch, before, s, c, m);
    ReachesInv(batch, before, s);
    l := s.coals[c].members[m];
    hide Inv, Reaches, NotSkipped, Run;
    k := LaterChangeNotSkipped(s, l, acts, u, t);
  }

  // Every owned change at or above a loop's start is still pending in the feed, or was truncated from it
  // while the loop had not read it, the only way to lose one, or lies as one run of messages in what the
  // loop has forwarded and has in hand.
  lemma EveryChangeAccountedFor(batch: nat, acts: seq<Action>, s: State, l: nat, t: nat) returns (k: nat)
    requires Reaches(batch, acts, s) && l < |s.loops| && s.loops[l].begun
    requires t < |s.log| && s.loops[l].start <= s.log[t].vs
    ensures var p, vs, own := s.loops[l], s.log[t].vs, Owned(s.loops[l].agent, s.log[t]);
            && (vs in p.lost ==> t < s.trunc && s.log[t] !in Window(s.log, p.start, p.next, p.lost))
            && (vs !in p.lost && p.next <= vs ==> s.trunc <= t)
            && (vs !in p.lost && vs < p.next ==>
                  RunsAt(p.forwarded + p.todo, k, own))
  {
    LoopHolds(batch, acts, s, l);
    var p := s.loops[l];
    WindowExcludesLost(s.log, p.start, p.next, p.lost);
    k := 0;
    if s.log[t].vs !in p.lost && s.log[t].vs < p.next {
      hide Reaches, LostOk, Stage, Pace, LiveEdge, NoLostWake;
      var w := Window(s.log, p.start, p.next, p.lost);
      var i := WindowMember(s.log, p.start, p.next, p.lost, t);
      OwnedInPage(p.agent, w, i);
      k := |OwnedAll(p.agent, w[..i])|;
    }
  }

  lemma {:induction false} WindowExcludesLost(log: Log, lo: int, hi: int, lost: set<int>)
    ensures forall cs | cs in Window(log, lo, hi, lost) :: InWindow(cs, lo, hi, lost)
  {
    if log != [] {
      WindowExcludesLost(log[..|log| - 1], lo, hi, lost);
    }
  }

  // Retention sweeps never disturb delivery: the forwarded sequence is that of the log without them.
  lemma SweepsNeverDelivered(batch: nat, acts: seq<Action>, s: State, l: nat)
    requires Reaches(batch, acts, s) && l < |s.loops|
    ensures var p := s.loops[l];
            p.forwarded + p.todo == OwnedAll(p.agent, Window(WithoutSweeps(s.log), p.start, p.next, p.lost))
  {
    ExactForwarding(batch, acts, s, l);
    var p := s.loops[l];
    SweepsAreInvisible(p.agent, s.log, p.start, p.next, p.lost);
  }

  // ---------------------------------------------------------------- the shared bus

  lemma {:induction false} AcceptedPrefix(xs: seq<Item>, ys: seq<Item>, l: nat)
    ensures AcceptedFrom(xs + ys, l) == AcceptedFrom(xs, l) + AcceptedFrom(ys, l)
  {
    if ys == [] {
      assert xs + ys == xs;
    } else {
      assert (xs + ys)[..|xs + ys| - 1] == xs + ys[..|ys| - 1];
      AcceptedPrefix(xs, ys[..|ys| - 1], l);
    }
  }

  // Conservation and order for any number of loops and competing consumers: every accepted delivery is
  // queued or was received once, the queue is bounded, and consumers together see of each loop a prefix
  // of what it forwarded, in order.
  lemma BusConservesAndOrders(batch: nat, acts: seq<Action>, s: State, c: nat, l: nat)
    requires Reaches(batch, acts, s) && c < |s.coals| && l < |s.loops| && s.loops[l].home == c
    ensures s.coals[c].history == Items(s.coals[c].received) + s.coals[c].queue
    ensures |s.coals[c].queue| <= 256
    ensures AcceptedFrom(Items(s.coals[c].received), l) <= s.loops[l].forwarded
    ensures s.coals[c].receivers ==>
      AcceptedFrom(Items(s.coals[c].received), l) + AcceptedFrom(s.coals[c].queue, l) == s.loops[l].forwarded
  {
    ReachesInv(batch, acts, s);
    assert Traffic(s.loops, c, s.coals[c]);
    AcceptedPrefix(Items(s.coals[c].received), s.coals[c].queue, l);
  }

  lemma BusHolds(s: State, c: nat)
    requires Inv(s) && c < |s.coals|
    ensures Traffic(s.loops, c, s.coals[c]) && Roster(s.loops, c, s.coals[c])
  {
  }

  function ReceivedFor(items: seq<Item>, agent: AgentId): seq<Message> {
    if items == [] then []
    else
      var r := ReceivedFor(items[..|items| - 1], agent);
      var last := items[|items| - 1];
      if last.delivery.recipient == agent then r + [last.delivery.message] else r
  }

  lemma {:induction false} RecipientIsLoop(items: seq<Item>, agent: AgentId, l: nat)
    requires forall k | 0 <= k < |items| :: items[k].delivery.recipient == agent <==> items[k].loop == l
    ensures ReceivedFor(items, agent) == AcceptedFrom(items, l)
  {
    if items != [] {
      RecipientIsLoop(items[..|items| - 1], agent, l);
    }
  }

  // With distinct names, an item of the bus is for a member exactly when that member's loop sent it.
  lemma RecipientIsMember(loops: seq<Loop>, i: nat, c: Coalition, m: nat, item: Item)
    requires Enrolled(loops, i, c) && m < |c.members|
    requires forall j, k | 0 <= j < k < |c.names| :: c.names[j] != c.names[k]
    requires item.loop < |loops| && loops[item.loop].home == i && item.delivery.recipient == loops[item.loop].agent
    ensures item.delivery.recipient == c.names[m] <==> item.loop == c.members[m]
  {
    assert item.loop in c.members;
    var j :| 0 <= j < |c.members| && c.members[j] == item.loop;
  }

  // Then the dequeue order projected on a recipient is that agent's forwarded sequence.
  lemma RecipientOrder(batch: nat, acts: seq<Action>, s: State, c: nat, m: nat)
    requires Reaches(batch, acts, s) && c < |s.coals| && m < |s.coals[c].members| && s.coals[c].members[m] < |s.loops|
    requires forall i, j | 0 <= i < j < |s.coals[c].names| :: s.coals[c].names[i] != s.coals[c].names[j]
    ensures m < |s.coals[c].names|
    ensures ReceivedFor(Items(s.coals[c].received), s.coals[c].names[m]) <= s.loops[s.coals[c].members[m]].forwarded
    ensures s.coals[c].receivers && s.coals[c].queue == [] ==>
      ReceivedFor(Items(s.coals[c].received), s.coals[c].names[m]) == s.loops[s.coals[c].members[m]].forwarded
  {
    ReachesInv(batch, acts, s);
    BusHolds(s, c);
    var l := s.coals[c].members[m];
    BusConservesAndOrders(batch, acts, s, c, l);
    hide Inv, Run, Counts, Accepts, Phased, AcceptedFrom, ReceivedFor;
    var items := Items(s.coals[c].received);
    forall k | 0 <= k < |items|
      ensures items[k].delivery.recipient == s.coals[c].names[m] <==> items[k].loop == l
    {
      assert items[k] == s.coals[c].history[k];
      RecipientIsMember(s.loops, c, s.coals[c], m, items[k]);
    }
    RecipientIsLoop(items, s.coals[c].names[m], l);
    EmptyAccepts(l);
  }

  lemma EmptyAccepts(l: nat)
    ensures AcceptedFrom([], l) == []
  {
  }

  // Once `new` has dropped its own sender, `recv` reports the bus closed exactly when every listen loop
  // has ended and the queue is empty.
  lemma ClosureIff(batch: nat, acts: seq<Action>, s: State, c: nat)
    requires Reaches(batch, acts, s) && c < |s.coals|
    ensures Formed(s)
    ensures Closed(s.coals[c]) <==> s.coals[c].phase != Creating && AllEnded(s, c) && s.coals[c].queue == []
  {
    ReachesInv(batch, acts, s);
    assert Traffic(s.loops, c, s.coals[c]) && Roster(s.loops, c, s.coals[c]);
    SumZero(s.loops, Sender(c));
    if AllEnded(s, c) {
      forall l | 0 <= l < |s.loops| ensures Sender(c)(s.loops[l]) == 0 {
        if s.loops[l].home == c {
          assert l in s.coals[c].members;
        }
      }
    } else {
      var i :| 0 <= i < |s.coals[c].members| && !Ended(s.loops[s.coals[c].members[i]]);
      assert Sender(c)(s.loops[s.coals[c].members[i]]) == 1;
    }
  }

  // What a return of `new` means: Ok finds every loop subscribed and drained; a handshake error finds the
  // token cancelled and no loop left running.
  lemma ReturnMeans(batch: nat, acts: seq<Action>, s: State, c: nat)
    requires Reaches(batch, acts, s) && c < |s.coals|
    ensures Formed(s)
    ensures s.coals[c].phase == ReturnedOk ==>
      && |s.coals[c].members| == |s.coals[c].names|
      && forall m | 0 <= m < |s.coals[c].members| :: s.loops[s.coals[c].members[m]].ready
    ensures s.coals[c].phase == ReturnedErr ==> s.coals[c].cancelled && AllEnded(s, c)
  {
    ReachesInv(batch, acts, s);
    assert Roster(s.loops, c, s.coals[c]);
  }

  // ---------------------------------------------------------------- reconnect delays

  // In every reachable state the delay of the next reconnect is 200 * 2^k ms capped at 30 s, where k is
  // the number of sleeps since the last successful drain.
  lemma BackoffClosedForm(batch: nat, acts: seq<Action>, s: State, l: nat)
    requires Reaches(batch, acts, s) && l < |s.loops|
    ensures s.loops[l].backoff == Backoff.Min(200 * Backoff.Pow2(s.loops[l].sleeps), 30_000)
    ensures 200 <= s.loops[l].backoff <= 30_000
    ensures s.loops[l].pc == Wait ==> s.loops[l].backoff == 200
  {
    ReachesInv(batch, acts, s);
    assert LoopInv(s.batch, s.log, s.trunc, s.loops[l]);
    Backoff.AfterBounds(s.loops[l].sleeps);
    Backoff.AfterStep(0);
  }

  // ---------------------------------------------------------------- where the code promises less

  // An agent's first loop starts from now: with a snapshot that is not capped, a retained change is
  // within its range exactly when it was committed after the snapshot was taken.
  lemma FirstRunStartsFromNow(batch: nat, acts: seq<Action>, s: State, l: nat, s1: State,
                              later: seq<Action>, u: State, t: nat)
    requires Reaches(batch, acts, s) && Formed(s) && l < |s.loops| && Can(s, l, SnapshotOk)
    requires |s.log| <= s.trunc + 1_000_000
    requires s1 == AfterStep(s, l, SnapshotOk) && Formed(s1) && Run(s1, later) == Some(u)
    requires s.trunc <= t < |u.log|
    ensures l < |u.loops| && (u.loops[l].start <= u.log[t].vs <==> |s.log| <= t)
  {
    ReachesInv(batch, acts, s);
    InvNext(s, Step(l, SnapshotOk));
    RunExtends(s1, later);
    InvRun(s1, later);
    SnapshotValue(s.log, s.trunc);
    assert LoopGrows(s1.loops[l], u.loops[l]);
    LogSplits(s.log, s.trunc, u.log, t);
  }

  lemma LogSplits(log: Log, trunc: nat, longer: Log, t: nat)
    requires Sorted(longer) && log <= longer && trunc <= t < |longer| && trunc <= |log| <= trunc + SNAPSHOT_LIMIT
    ensures Snapshot(log, trunc) <= longer[t].vs <==> |log| <= t
  {
    assert Sorted(log) by {
      assert forall i | 0 <= i < |log| :: log[i] == longer[i];
    }
    SnapshotValue(log, trunc);
    if t < |log| {
      assert longer[t] == log[t];
    } else {
      LogTailAbove(log, longer, t);
    }
  }
}
