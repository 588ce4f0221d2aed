// The shared delivery bus of a coalition and its handshake: conservation and order for any number of
// loops and consumers, closure, and what a returned `new` guarantees.

module Bus {
  import opened Wire
  import opened Protocol
  import opened Sums

  function Items(received: seq<Receipt>): seq<Item> {
    seq(|received|, i requires 0 <= i < |received| => received[i].item)
  }

  /** What the bus accepted from one loop, in order. */
  function AcceptedFrom(items: seq<Item>, l: nat): seq<Message> {
    if items == [] then []
    else
      var r := AcceptedFrom(items[..|items| - 1], l);
      var last := items[|items| - 1];
      if last.loop == l then r + [last.delivery.message] else r
  }

  /** Whether the loop holds a sender of coalition `i`'s bus. */
  function Sender(i: nat): Loop -> nat {
    (p: Loop) => if p.home == i && !Ended(p) then 1 else 0
  }

  /** How many messages the loop has handed to coalition `i`'s bus. */
  function Handed(i: nat): Loop -> nat {
    (p: Loop) => if p.home == i then |p.forwarded| else 0
  }

  // ---------------------------------------------------------------- invariants of one coalition

  predicate Conserves(loops: seq<Loop>, i: nat, c: Coalition) {
    && c.history == Items(c.received) + c.queue
    && |c.queue| <= INBOX_CAPACITY
    && (forall k | 0 <= k < |c.history| ::
          c.history[k].loop < |loops| && loops[c.history[k].loop].home == i
          && c.history[k].delivery.recipient == loops[c.history[k].loop].agent)
  }

  /** The bus accepts of each loop a prefix of what it forwards, all of it while a receiver is alive. */
  predicate Accepts(loops: seq<Loop>, i: nat, c: Coalition) {
    forall l | 0 <= l < |loops| && loops[l].home == i ::
      && AcceptedFrom(c.history, l) <= loops[l].forwarded
      && (c.receivers ==> AcceptedFrom(c.history, l) == loops[l].forwarded)
  }

  predicate Counts(loops: seq<Loop>, i: nat, c: Coalition) {
    && c.senders == Sum(loops, Sender(i)) + (if c.phase == Creating then 1 else 0)
    && |c.history| <= Sum(loops, Handed(i))
    && (c.receivers ==> |c.history| == Sum(loops, Handed(i)))
  }

  predicate Enrolled(loops: seq<Loop>, i: nat, c: Coalition) {
    && |c.members| <= |c.names|
    && (forall k | 0 <= k < |c.members| :: c.members[k] < |loops| && loops[c.members[k]].home == i
                                           && loops[c.members[k]].agent == c.names[k])
    && (forall k, m | 0 <= k < m < |c.members| :: c.members[k] < c.members[m])
    && (forall l | 0 <= l < |loops| && loops[l].home == i :: l in c.members)
  }

  predicate Phased(loops: seq<Loop>, c: Coalition)
    requires forall k | 0 <= k < |c.members| :: c.members[k] < |loops|
  {
    && (c.phase == Creating || c.phase.Shaking? || c.phase == Unwinding ==> c.receivers)
    && (c.phase != ReturnedOk ==> c.received == [])
    && (c.phase.Shaking? || c.phase == ReturnedOk || c.phase == Unwinding || c.phase == ReturnedErr ==>
          |c.members| == |c.names|)
    && (c.phase.Shaking? ==>
          c.phase.awaited <= |c.members| && forall k | 0 <= k < c.phase.awaited :: loops[c.members[k]].ready)
    && (c.phase == ReturnedOk ==> forall k | 0 <= k < |c.members| :: loops[c.members[k]].ready)
    && (c.phase == Unwinding || c.phase == ReturnedErr ==> c.cancelled)
    && (c.phase == ReturnedErr ==> !c.receivers && forall k | 0 <= k < |c.members| :: Ended(loops[c.members[k]]))
    && (c.phase == Creating || c.phase.Shaking? ==> !c.cancelled)
  }

  predicate Traffic(loops: seq<Loop>, i: nat, c: Coalition) {
    Conserves(loops, i, c) && Accepts(loops, i, c) && Counts(loops, i, c)
  }

  predicate Roster(loops: seq<Loop>, i: nat, c: Coalition) {
    Enrolled(loops, i, c) && Phased(loops, c)
  }

  predicate Buses(s: State) {
    && Formed(s)
    && (forall i | 0 <= i < |s.coals| :: Traffic(s.loops, i, s.coals[i]))
    && (forall i | 0 <= i < |s.coals| :: Roster(s.loops, i, s.coals[i]))
  }

  // ---------------------------------------------------------------- preservation under changes of loops

  predicate Same(p: Loop, q: Loop) {
    q.home == p.home && q.agent == p.agent
  }

  lemma RosterKeeps(loops: seq<Loop>, after: seq<Loop>, i: nat, c: Coalition)
    requires |after| == |loops| && forall l | 0 <= l < |loops| :: Same(loops[l], after[l])
    requires forall l | 0 <= l < |loops| :: (loops[l].ready ==> after[l].ready) && (Ended(loops[l]) ==> Ended(after[l]))
    requires Roster(loops, i, c)
    ensures Roster(after, i, c)
  {
  }

  lemma TrafficKeeps(loops: seq<Loop>, after: seq<Loop>, i: nat, c: Coalition)
    requires |after| == |loops| && forall l | 0 <= l < |loops| :: Same(loops[l], after[l])
    requires forall l | 0 <= l < |loops| ::
      after[l].forwarded == loops[l].forwarded && Ended(after[l]) == Ended(loops[l])
    requires Traffic(loops, i, c)
    ensures Traffic(after, i, c)
  {
    SumMono(loops, after, Sender(i), Sender(i));
    SumMono(after, loops, Sender(i), Sender(i));
    SumMono(loops, after, Handed(i), Handed(i));
    SumMono(after, loops, Handed(i), Handed(i));
  }

  // What a step shows to the buses: it keeps identities, and only a send grows the forwarded sequence.
  lemma StepFace(s: State, l: nat, e: Event)
    requires Formed(s) && l < |s.loops| && Can(s, l, e)
    ensures var p, q := s.loops[l], LoopAfter(s, l, e);
            && Same(p, q) && (p.ready ==> q.ready) && (Ended(p) ==> Ended(q) && q.ready == p.ready)
            && (e.Send? ==> p.todo != [] && q == p.(forwarded := p.forwarded + [p.todo[0]], todo := p.todo[1..]))
            && (!e.Send? ==> q.forwarded == p.forwarded)
  {
  }

  lemma EndKeeps(loops: seq<Loop>, l: nat, q: Loop, i: nat, c: Coalition)
    requires l < |loops| && Traffic(loops, i, c)
    requires Same(loops[l], q) && q.forwarded == loops[l].forwarded && Ended(q) && !Ended(loops[l])
    ensures loops[l].home == i ==> c.senders > 0
    ensures Traffic(loops[l := q], i, if loops[l].home == i then c.(senders := c.senders - 1) else c)
  {
    SumUpdate(loops, l, q, Sender(i));
    SumUpdate(loops, l, q, Handed(i));
  }

  lemma SendKeepsCounts(loops: seq<Loop>, l: nat, q: Loop, i: nat, c: Coalition)
    requires l < |loops| && Counts(loops, i, c) && loops[l].todo != []
    requires q == loops[l].(forwarded := loops[l].forwarded + [loops[l].todo[0]], todo := loops[l].todo[1..])
    ensures Counts(loops[l := q], i, if loops[l].home == i then CoalitionAfter(c, l, loops[l], q, Send) else c)
  {
    SumUpdate(loops, l, q, Sender(i));
    SumUpdate(loops, l, q, Handed(i));
  }

  lemma SendKeepsAccepts(loops: seq<Loop>, l: nat, q: Loop, i: nat, c: Coalition)
    requires l < |loops| && Accepts(loops, i, c) && loops[l].todo != []
    requires q == loops[l].(forwarded := loops[l].forwarded + [loops[l].todo[0]], todo := loops[l].todo[1..])
    ensures Accepts(loops[l := q], i, if loops[l].home == i then CoalitionAfter(c, l, loops[l], q, Send) else c)
  {
    if loops[l].home == i && c.receivers {
      var d := CoalitionAfter(c, l, loops[l], q, Send);
      assert d.history[..|c.history|] == c.history;
    }
  }

  lemma SendKeepsConserves(loops: seq<Loop>, l: nat, q: Loop, i: nat, c: Coalition)
    requires l < |loops| && Conserves(loops, i, c) && loops[l].todo != []
    requires q == loops[l].(forwarded := loops[l].forwarded + [loops[l].todo[0]], todo := loops[l].todo[1..])
    requires loops[l].home == i && c.receivers ==> |c.queue| < INBOX_CAPACITY
    ensures Conserves(loops[l := q], i, if loops[l].home == i then CoalitionAfter(c, l, loops[l], q, Send) else c)
  {
    if loops[l].home == i && c.receivers {
      var d := CoalitionAfter(c, l, loops[l], q, Send);
      assert d.history == Items(d.received) + d.queue;
    }
  }

  lemma StepKeepsTraffic(s: State, l: nat, e: Event, i: nat)
    requires Formed(s) && l < |s.loops| && Can(s, l, e) && i < |s.coals|
    requires Traffic(s.loops, i, s.coals[i])
    ensures var p, q := s.loops[l], LoopAfter(s, l, e);
            Traffic(s.loops[l := q], i, if p.home == i then CoalitionAfter(s.coals[i], l, p, q, e) else s.coals[i])
  {
    var p := s.loops[l];
    var q := LoopAfter(s, l, e);
    StepFace(s, l, e);
    if e.Send? {
      SendKeepsConserves(s.loops, l, q, i, s.coals[i]);
      SendKeepsAccepts(s.loops, l, q, i, s.coals[i]);
      SendKeepsCounts(s.loops, l, q, i, s.coals[i]);
    } else if Ended(q) && !Ended(p) {
      EndKeeps(s.loops, l, q, i, s.coals[i]);
    } else {
      TrafficKeeps(s.loops, s.loops[l := q], i, s.coals[i]);
    }
  }

  lemma {:induction false} NoneFrom(items: seq<Item>, l: nat)
    requires forall k | 0 <= k < |items| :: items[k].loop != l
    ensures AcceptedFrom(items, l) == []
  {
    if items != [] {
      NoneFrom(items[..|items| - 1], l);
    }
  }

  lemma SpawnKeepsTraffic(loops: seq<Loop>, i: nat, c: Coalition, d: Coalition, agent: AgentId, home: nat)
    requires Traffic(loops, i, c)
    requires d == if home == i then c.(members := c.members + [|loops|], senders := c.senders + 1) else c
    ensures Traffic(loops + [Spawned(agent, home)], i, d)
  {
    var p := Spawned(agent, home);
    SumAppend(loops, p, Sender(i));
    SumAppend(loops, p, Handed(i));
    NoneFrom(c.history, |loops|);
  }

  lemma SpawnKeepsRoster(loops: seq<Loop>, i: nat, c: Coalition, d: Coalition, agent: AgentId, home: nat)
    requires Roster(loops, i, c)
    requires home == i ==> c.phase == Creating && |c.members| < |c.names| && agent == c.names[|c.members|]
    requires d == if home == i then c.(members := c.members + [|loops|], senders := c.senders + 1) else c
    ensures Roster(loops + [Spawned(agent, home)], i, d)
  {
    if home == i {
      assert d.members[|c.members|] == |loops|;
      forall l | 0 <= l < |loops| && loops[l].home == i ensures l in d.members {
        assert l in c.members;
      }
    }
  }

  // ---------------------------------------------------------------- actions of the coalition itself

  predicate OwnAction(a: Action) {
    a.Abandon? || a.Handshake? || a.Await? || a.Unwound? || a.Return? || a.Cancel? || a.DropReceivers?
  }

  lemma OwnActionTraffic(s: State, a: Action, i: nat)
    requires Formed(s) && Enabled(s, a) && i < |s.coals| && OwnAction(a)
    requires Traffic(s.loops, i, s.coals[i])
    ensures Traffic(s.loops, i, Next(s, a).coals[i])
  {
    if a.c == i {
      var c, d := s.coals[i], Next(s, a).coals[i];
      assert d.history == c.history && d.received == c.received && d.queue == c.queue;
      assert d.receivers ==> c.receivers;
      assert Conserves(s.loops, i, d) && Accepts(s.loops, i, d);
    }
  }

  lemma EnrolledSame(loops: seq<Loop>, i: nat, c: Coalition, d: Coalition)
    requires Enrolled(loops, i, c) && d.members == c.members && d.names == c.names
    ensures Enrolled(loops, i, d)
  {
  }

  lemma OwnActionRoster(s: State, a: Action, i: nat)
    requires Formed(s) && Enabled(s, a) && i < |s.coals| && OwnAction(a)
    requires Roster(s.loops, i, s.coals[i])
    ensures Roster(s.loops, i, Next(s, a).coals[i])
  {
    if a.c == i {
      EnrolledSame(s.loops, i, s.coals[i], Next(s, a).coals[i]);
      OwnActionPhased(s, a);
    }
  }

  lemma OwnActionPhased(s: State, a: Action)
    requires Formed(s) && Enabled(s, a) && OwnAction(a) && a.c < |s.coals|
    requires Phased(s.loops, s.coals[a.c])
    requires |s.coals[a.c].members| <= |s.coals[a.c].names|
    ensures |Next(s, a).coals| == |s.coals| && Next(s, a).coals[a.c].members == s.coals[a.c].members
    ensures Phased(s.loops, Next(s, a).coals[a.c])
  {
  }

  lemma ConsumeKeepsRoster(loops: seq<Loop>, i: nat, c: Coalition, k: nat)
    requires Roster(loops, i, c) && c.queue != [] && c.phase == ReturnedOk
    ensures Roster(loops, i, c.(queue := c.queue[1..], received := c.received + [Receipt(k, c.queue[0])]))
  {
    var d := c.(queue := c.queue[1..], received := c.received + [Receipt(k, c.queue[0])]);
    assert d.members == c.members && d.names == c.names && d.phase == c.phase;
  }

  lemma ConsumeKeeps(loops: seq<Loop>, i: nat, c: Coalition, k: nat)
    requires Traffic(loops, i, c) && c.queue != []
    ensures Traffic(loops, i, c.(queue := c.queue[1..], received := c.received + [Receipt(k, c.queue[0])]))
  {
    var d := c.(queue := c.queue[1..], received := c.received + [Receipt(k, c.queue[0])]);
    assert Items(d.received) == Items(c.received) + [c.queue[0]];
    assert Items(d.received) + d.queue == Items(c.received) + c.queue;
  }

  lemma OpenedOk(loops: seq<Loop>, i: nat, names: seq<AgentId>)
    requires forall l | 0 <= l < |loops| :: loops[l].home < i
    ensures Traffic(loops, i, Opened(names)) && Roster(loops, i, Opened(names))
  {
    SumZero(loops, Sender(i));
    SumZero(loops, Handed(i));
  }

  // ---------------------------------------------------------------- every action

  // Commits and truncations change no coalition and nothing of a loop the buses can see.
  lemma FeedActionKeeps(s: State, a: Action, i: nat)
    requires Formed(s) && Enabled(s, a) && (a.Commit? || a.Truncate?) && i < |s.coals|
    requires Traffic(s.loops, i, s.coals[i]) && Roster(s.loops, i, s.coals[i])
    ensures Traffic(Next(s, a).loops, i, s.coals[i]) && Roster(Next(s, a).loops, i, s.coals[i])
  {
    var after := Next(s, a).loops;
    forall l | 0 <= l < |s.loops|
      ensures Same(s.loops[l], after[l]) && after[l].forwarded == s.loops[l].forwarded
      ensures after[l].pc == s.loops[l].pc && after[l].ready == s.loops[l].ready
    {
      NextLoop(s, a, l);
    }
    TrafficKeeps(s.loops, after, i, s.coals[i]);
    RosterKeeps(s.loops, after, i, s.coals[i]);
  }

  lemma RosterSame(loops: seq<Loop>, i: nat, c: Coalition, d: Coalition)
    requires Roster(loops, i, c)
    requires d.members == c.members && d.names == c.names && d.phase == c.phase && d.cancelled == c.cancelled
    requires d.receivers == c.receivers && d.received == c.received
    ensures Roster(loops, i, d)
  {
  }

  lemma StepKeepsRoster(s: State, l: nat, e: Event, i: nat)
    requires Formed(s) && l < |s.loops| && Can(s, l, e) && i < |s.coals|
    requires Roster(s.loops, i, s.coals[i])
    ensures var p, q := s.loops[l], LoopAfter(s, l, e);
            Roster(s.loops[l := q], i, if p.home == i then CoalitionAfter(s.coals[i], l, p, q, e) else s.coals[i])
  {
    var p, q := s.loops[l], LoopAfter(s, l, e);
    StepFace(s, l, e);
    RosterKeeps(s.loops, s.loops[l := q], i, s.coals[i]);
    hide LoopAfter;
    RosterSame(s.loops[l := q], i, s.coals[i], CoalitionAfter(s.coals[i], l, p, q, e));
  }

  lemma SpawnNext(s: State, a: Action, i: nat)
    requires Formed(s) && Enabled(s, a) && a.Spawn? && i < |s.coals|
    requires Traffic(s.loops, i, s.coals[i]) && Roster(s.loops, i, s.coals[i])
    ensures Traffic(Next(s, a).loops, i, Next(s, a).coals[i]) && Roster(Next(s, a).loops, i, Next(s, a).coals[i])
  {
    var agent := s.coals[a.c].names[|s.coals[a.c].members|];
    SpawnKeepsTraffic(s.loops, i, s.coals[i], Next(s, a).coals[i], agent, a.c);
    SpawnKeepsRoster(s.loops, i, s.coals[i], Next(s, a).coals[i], agent, a.c);
  }

  // The coalition's own actions, its consumers, and the opening of another coalition.
  lemma ClientNext(s: State, a: Action, i: nat)
    requires Formed(s) && Enabled(s, a) && i < |s.coals| && (OwnAction(a) || a.Consume? || a.Open?)
    requires Traffic(s.loops, i, s.coals[i]) && Roster(s.loops, i, s.coals[i])
    ensures Traffic(s.loops, i, Next(s, a).coals[i]) && Roster(s.loops, i, Next(s, a).coals[i])
  {
    if OwnAction(a) {
      OwnActionTraffic(s, a, i);
      OwnActionRoster(s, a, i);
    } else if a.Consume? && a.c == i {
      ConsumeKeeps(s.loops, i, s.coals[i], a.consumer);
      ConsumeKeepsRoster(s.loops, i, s.coals[i], a.consumer);
    } else {
      assert Next(s, a).coals[i] == s.coals[i];
    }
  }

  lemma BusNext(s: State, a: Action, i: nat)
    requires Formed(s) && Enabled(s, a) && i < |s.coals|
    requires Traffic(s.loops, i, s.coals[i]) && Roster(s.loops, i, s.coals[i])
    ensures Traffic(Next(s, a).loops, i, Next(s, a).coals[i]) && Roster(Next(s, a).loops, i, Next(s, a).coals[i])
  {
    if a.Step? {
      StepKeepsTraffic(s, a.l, a.e, i);
      StepKeepsRoster(s, a.l, a.e, i);
      assert Next(s, a) == AfterStep(s, a.l, a.e);
    } else if a.Commit? || a.Truncate? {
      FeedActionKeeps(s, a, i);
      assert Next(s, a).coals == s.coals;
    } else if a.Spawn? {
      SpawnNext(s, a, i);
    } else {
      ClientNext(s, a, i);
      assert Next(s, a).loops == s.loops;
    }
  }

  lemma BusesNext(s: State, a: Action)
    requires Buses(s) && Enabled(s, a)
    ensures Buses(Next(s, a))
  {
    NextFormed(s, a);
    var t := Next(s, a);
    forall i | 0 <= i < |t.coals|
      ensures Traffic(t.loops, i, t.coals[i]) && Roster(t.loops, i, t.coals[i])
    {
      if i < |s.coals| {
        BusNext(s, a, i);
      } else {
        OpenedOk(s.loops, i, a.names);
      }
    }
  }
}
