// Delivery as the bus sees it: what it accepts of a loop is decided at each send, by whether a receiver
// is alive then, and stays accepted. Over whole runs this makes at-least-once a statement about what the
// buses of all rounds of an agent accepted, not only about what its loops handed over.

module Acceptance {
  import opened Wire
  import opened Feed
  import opened Protocol
  import opened Bus
  import opened Guarantees

  /** The action drops the receivers of coalition `c`. */
  predicate Removes(a: Action, c: nat) {
    a == Abandon(c) || a == Unwound(c) || a == DropReceivers(c)
  }

  predicate Gone(acts: seq<Action>, c: nat) {
    acts != [] && (Gone(acts[..|acts| - 1], c) || Removes(acts[|acts| - 1], c))
  }

  /** The sends of loop `l` in a run. */
  function Sends(acts: seq<Action>, l: nat): nat {
    if acts == [] then 0
    else Sends(acts[..|acts| - 1], l) + (if acts[|acts| - 1] == Step(l, Send) then 1 else 0)
  }

  /** Those made while coalition `c` still had a receiver. */
  function Heard(acts: seq<Action>, l: nat, c: nat): nat {
    if acts == [] then 0
    else
      var init := acts[..|acts| - 1];
      Heard(init, l, c) + (if acts[|acts| - 1] == Step(l, Send) && !Gone(init, c) then 1 else 0)
  }

  /** Loop `l` sent something after coalition `c` had lost its receivers. */
  predicate SendsUnheard(acts: seq<Action>, l: nat, c: nat) {
    exists n | 0 <= n < |acts| :: acts[n] == Step(l, Send) && Gone(acts[..n], c)
  }

  lemma OneMore(acts: seq<Action>, a: Action, l: nat, c: nat)
    ensures Gone(acts + [a], c) <==> Gone(acts, c) || Removes(a, c)
    ensures Sends(acts + [a], l) == Sends(acts, l) + if a == Step(l, Send) then 1 else 0
    ensures Heard(acts + [a], l, c) == Heard(acts, l, c) + if a == Step(l, Send) && !Gone(acts, c) then 1 else 0
  {
    assert (acts + [a])[..|acts|] == acts;
  }

  lemma {:induction false} HeardAll(acts: seq<Action>, l: nat, c: nat)
    ensures Heard(acts, l, c) <= Sends(acts, l)
    ensures Heard(acts, l, c) == Sends(acts, l) <==> !SendsUnheard(acts, l, c)
  {
    if acts != [] {
      var init := acts[..|acts| - 1];
      HeardAll(init, l, c);
      assert forall n | 0 <= n < |init| :: init[n] == acts[n] && init[..n] == acts[..n];
    }
  }

  /** What the bus of loop `l` accepted from it. */
  function Accepted(s: State, l: nat): seq<Message>
    requires l < |s.loops| && s.loops[l].home < |s.coals|
  {
    AcceptedFrom(s.coals[s.loops[l].home].history, l)
  }

  // ---------------------------------------------------------------- one action

  lemma ReceiversNext(s: State, a: Action, c: nat)
    requires Formed(s) && Enabled(s, a) && c < |s.coals|
    ensures c < |Next(s, a).coals|
    ensures Next(s, a).coals[c].receivers <==> s.coals[c].receivers && !Removes(a, c)
    ensures a.Open? ==> Next(s, a).coals[|s.coals|].receivers
  {
    hide LoopAfter;
  }

  /** What an action adds to the history of coalition `c`. */
  function Adds(s: State, a: Action, c: nat): seq<Item>
    requires Formed(s) && Enabled(s, a) && c < |s.coals|
  {
    if a.Step? && a.e.Send? && s.loops[a.l].home == c && s.coals[c].receivers
    then [Item(a.l, Delivery(s.loops[a.l].agent, s.loops[a.l].todo[0]))] else []
  }

  lemma HistoryNext(s: State, a: Action, c: nat)
    requires Formed(s) && Enabled(s, a) && c < |s.coals|
    ensures c < |Next(s, a).coals| && Next(s, a).coals[c].history == s.coals[c].history + Adds(s, a, c)
  {
    hide LoopAfter;
    assert s.coals[c].history + [] == s.coals[c].history;
  }

  lemma ForwardedNext(s: State, a: Action, l: nat)
    requires Formed(s) && Enabled(s, a) && l < |s.loops|
    ensures var p, q := s.loops[l], LoopNext(s, a, l);
            && q.home == p.home && q.agent == p.agent && (Ended(p) ==> Ended(q))
            && (a == Step(l, Send) ==> p.todo != [] && !Ended(p))
            && q.forwarded == p.forwarded + (if a == Step(l, Send) then [p.todo[0]] else [])
  {
    if a.Step? && a.l == l {
      StepFace(s, l, a.e);
    }
  }

  lemma AddsOne(s: State, a: Action, l: nat)
    requires Formed(s) && Enabled(s, a) && l < |s.loops|
    ensures var c := s.loops[l].home;
            |AcceptedFrom(Adds(s, a, c), l)| == if a == Step(l, Send) && s.coals[c].receivers then 1 else 0
  {
  }

  // A send is accepted exactly when a receiver is alive, and counts as forwarded either way.
  lemma AcceptedNext(s: State, a: Action, l: nat)
    requires Formed(s) && Enabled(s, a) && l < |s.loops|
    ensures l < |Next(s, a).loops| && Next(s, a).loops[l].home == s.loops[l].home < |Next(s, a).coals|
    ensures Accepted(s, l) <= Accepted(Next(s, a), l)
    ensures |Accepted(Next(s, a), l)| == |Accepted(s, l)| +
              if a == Step(l, Send) && s.coals[s.loops[l].home].receivers then 1 else 0
    ensures |Next(s, a).loops[l].forwarded| == |s.loops[l].forwarded| + if a == Step(l, Send) then 1 else 0
    ensures Ended(s.loops[l]) ==> Ended(Next(s, a).loops[l]) && Next(s, a).loops[l].forwarded == s.loops[l].forwarded
  {
    NextLoop(s, a, l);
    ForwardedNext(s, a, l);
    HistoryNext(s, a, s.loops[l].home);
    AddsOne(s, a, l);
    AcceptedPrefix(s.coals[s.loops[l].home].history, Adds(s, a, s.loops[l].home), l);
  }

  // ---------------------------------------------------------------- whole runs

  /** What a run says about coalition `c` and loop `l` of its final state. */
  predicate TalliedBus(acts: seq<Action>, s: State, c: nat) {
    if c < |s.coals| then s.coals[c].receivers <==> !Gone(acts, c) else !Gone(acts, c)
  }

  predicate TalliedLoop(acts: seq<Action>, s: State, l: nat)
    requires Formed(s)
  {
    if l < |s.loops|
    then |s.loops[l].forwarded| == Sends(acts, l) && |Accepted(s, l)| == Heard(acts, l, s.loops[l].home)
    else Sends(acts, l) == 0
  }

  ghost predicate Tallied(acts: seq<Action>, s: State)
    requires Formed(s)
  {
    (forall c: nat :: TalliedBus(acts, s, c)) && (forall l: nat :: TalliedLoop(acts, s, l))
  }

  lemma BusTallyNext(acts: seq<Action>, s: State, a: Action, c: nat)
    requires Formed(s) && TalliedBus(acts, s, c) && Enabled(s, a)
    ensures TalliedBus(acts + [a], Next(s, a), c)
  {
    OneMore(acts, a, 0, c);
    CoalitionsNext(s, a);
    hide Gone;
    if c < |s.coals| {
      ReceiversNext(s, a, c);
    } else {
      hide Next;
    }
  }

  lemma CoalitionsNext(s: State, a: Action)
    requires Formed(s) && Enabled(s, a)
    ensures |Next(s, a).coals| == |s.coals| + if a.Open? then 1 else 0
    ensures a.Open? ==> Next(s, a).coals[|s.coals|].receivers
    ensures forall c: nat :: Removes(a, c) ==> c < |s.coals|
    ensures a.Step? ==> a.l < |s.loops|
  {
    hide LoopAfter;
  }

  lemma SpawnedSilent(s: State, c: nat)
    requires Inv(s) && Enabled(s, Spawn(c)) && Formed(Next(s, Spawn(c)))
    ensures var t := Next(s, Spawn(c));
            && t.loops[|s.loops|].home == c && t.loops[|s.loops|].forwarded == []
            && Accepted(t, |s.loops|) == []
  {
    NextLoopCount(s, Spawn(c));
    HistoryNext(s, Spawn(c), c);
    BusHolds(s, c);
    hide Inv, Next, Traffic, Roster;
    assert s.coals[c].history + [] == s.coals[c].history;
    assert Conserves(s.loops, c, s.coals[c]);
    NoneFrom(s.coals[c].history, |s.loops|);
  }

  lemma HomeIn(s: State, l: nat)
    requires Formed(s) && l < |s.loops|
    ensures s.loops[l].home < |s.coals|
  {
  }

  lemma LoopTallyNext(acts: seq<Action>, s: State, a: Action, l: nat)
    requires Inv(s) && TalliedLoop(acts, s, l) && Enabled(s, a) && Formed(Next(s, a))
    requires l < |s.loops| ==> TalliedBus(acts, s, s.loops[l].home)
    ensures TalliedLoop(acts + [a], Next(s, a), l)
  {
    CoalitionsNext(s, a);
    NextLoopCount(s, a);
    hide Inv, Next, Accepted, Gone, Sends, Heard;
    if l < |s.loops| {
      OneMore(acts, a, l, s.loops[l].home);
      AcceptedNext(s, a, l);
    } else {
      OneMore(acts, a, l, if a.Spawn? then a.c else 0);
      HeardAll(acts, l, if a.Spawn? then a.c else 0);
      if a.Spawn? && l == |s.loops| {
        SpawnedSilent(s, a.c);
      }
    }
  }

  lemma TalliedNext(acts: seq<Action>, s: State, a: Action)
    requires Inv(s) && Tallied(acts, s) && Enabled(s, a) && Formed(Next(s, a))
    ensures Tallied(acts + [a], Next(s, a))
  {
    assert Formed(s);
    hide Inv, Next, TalliedBus, TalliedLoop, Formed;
    forall c: nat ensures TalliedBus(acts + [a], Next(s, a), c) {
      BusTallyNext(acts, s, a, c);
    }
    forall l: nat ensures TalliedLoop(acts + [a], Next(s, a), l) {
      if l < |s.loops| { HomeIn(s, l); }
      LoopTallyNext(acts, s, a, l);
    }
  }

  lemma {:induction false} TalliedRun(batch: nat, acts: seq<Action>, s: State)
    requires Reaches(batch, acts, s)
    ensures Formed(s) && Tallied(acts, s)
  {
    if acts != [] {
      var init := acts[..|acts| - 1];
      var m, a := LastAction(batch, acts, s);
      hide Inv, Tallied, Next, Reaches;
      TalliedRun(batch, init, m);
      TalliedNext(init, m, a);
    }
  }

  // The bus accepts a prefix of what a loop forwards, and all of it while a receiver is alive.
  lemma AcceptedWhileReceived(batch: nat, acts: seq<Action>, s: State, l: nat)
    requires Reaches(batch, acts, s) && l < |s.loops|
    ensures s.loops[l].home < |s.coals| && Accepted(s, l) <= s.loops[l].forwarded
    ensures s.coals[s.loops[l].home].receivers ==> Accepted(s, l) == s.loops[l].forwarded
  {
    ReachesInv(batch, acts, s);
    BusHolds(s, s.loops[l].home);
  }

  // Over any run: what the bus accepted of a loop is what the loop sent while there was a receiver. It is
  // everything the loop forwarded if and only if the loop sent nothing after its coalition's receivers
  // were dropped.
  lemma AcceptedExactly(batch: nat, acts: seq<Action>, s: State, l: nat)
    requires Reaches(batch, acts, s) && l < |s.loops|
    ensures s.loops[l].home < |s.coals|
    ensures var p, n := s.loops[l], Heard(acts, l, s.loops[l].home);
            && n <= |p.forwarded| && Accepted(s, l) == p.forwarded[..n]
            && (Accepted(s, l) == p.forwarded <==> !SendsUnheard(acts, l, p.home))
  {
    AcceptedWhileReceived(batch, acts, s, l);
    TalliedRun(batch, acts, s);
    assert TalliedLoop(acts, s, l);
    HeardAll(acts, l, s.loops[l].home);
  }

  lemma {:induction false} AcceptedGrows(s: State, acts: seq<Action>, l: nat)
    requires Inv(s) && Run(s, acts).Some? && l < |s.loops|
    ensures var u := Run(s, acts).value;
            && l < |u.loops| && u.loops[l].home == s.loops[l].home < |u.coals| && Accepted(s, l) <= Accepted(u, l)
            && (Ended(s.loops[l]) ==> Ended(u.loops[l]) && u.loops[l].forwarded == s.loops[l].forwarded)
  {
    if acts != [] {
      var init := acts[..|acts| - 1];
      AcceptedGrows(s, init, l);
      AcceptedNext(Run(s, init).value, acts[|acts| - 1], l);
    }
  }

  lemma AcceptedOf(s: State, l: nat)
    requires Inv(s) && l < |s.loops| && s.loops[l].home < |s.coals|
    ensures Accepted(s, l) <= s.loops[l].forwarded
  {
    BusHolds(s, s.loops[l].home);
  }

  // What a loop has forwarded while its bus still has a receiver stays accepted, whatever happens later;
  // if the loop has ended by then, that is all it ever forwards.
  lemma AcceptedStays(batch: nat, acts: seq<Action>, s: State, more: seq<Action>, u: State, l: nat)
    requires Reaches(batch, acts, s) && Formed(s) && Run(s, more) == Some(u) && l < |s.loops|
    requires s.coals[s.loops[l].home].receivers
    ensures l < |u.loops| && u.loops[l].home < |u.coals|
    ensures s.loops[l].forwarded <= Accepted(u, l)
    ensures Ended(s.loops[l]) ==> Accepted(u, l) == u.loops[l].forwarded == s.loops[l].forwarded
  {
    ReachesInv(batch, acts, s);
    AcceptedWhileReceived(batch, acts, s, l);
    AcceptedGrows(s, more, l);
    InvRun(s, more);
    hide Inv, Run, Reaches, Accepted;
    AcceptedOf(u, l);
  }

  // At-least-once, for any number of loops of one agent, in any order, under any failures: every change
  // from the agent's largest first-run snapshot up to any of its cursors was forwarded by one of its
  // loops as one run of messages, unless it was truncated first. That loop's bus accepted them all if it
  // had a receiver when they were sent, whatever has become of it since.
  lemma AtLeastOnce(batch: nat, acts: seq<Action>, s: State, agent: AgentId, x: int, t: nat) returns (l: nat, k: nat)
    requires Reaches(batch, acts, s) && CursorOf(s, agent, x)
    requires t < |s.log| && s.log[t].vs < x && (agent in s.floor ==> s.floor[agent] <= s.log[t].vs)
    ensures agent in s.floor && l < |s.loops| && s.loops[l].agent == agent && s.loops[l].home < |s.coals|
    ensures s.log[t].vs in s.loops[l].lost ==> t < s.trunc
    ensures s.log[t].vs !in s.loops[l].lost ==>
      var own, home := Owned(agent, s.log[t]), s.loops[l].home;
      && RunsAt(s.loops[l].forwarded, k, own)
      && (!SendsUnheard(acts, l, home) ==> k + |own| <= Heard(acts, l, home))
      && (RunsAt(Accepted(s, l), k, own) <==> k + |own| <= Heard(acts, l, home))
  {
    l := SpanningLoop(batch, acts, s, agent, x, s.log[t].vs);
    k := ForwardedRun(batch, acts, s, l, t);
    hide Reaches, CursorOf, SendsUnheard, Owned;
    AcceptedExactly(batch, acts, s, l);
  }

  /** Item `j` of what the bus accepted from loop `l` has been received by a consumer, or is still queued. */
  predicate ReceivedOrQueued(c: Coalition, l: nat, j: nat, m: Message) {
    var got, left := AcceptedFrom(Items(c.received), l), AcceptedFrom(c.queue, l);
    if j < |got| then got[j] == m else j - |got| < |left| && left[j - |got|] == m
  }

  lemma AcceptedIsThere(batch: nat, acts: seq<Action>, s: State, l: nat, j: nat)
    requires Reaches(batch, acts, s) && l < |s.loops|
    ensures s.loops[l].home < |s.coals|
    ensures j < |Accepted(s, l)| ==> ReceivedOrQueued(s.coals[s.loops[l].home], l, j, Accepted(s, l)[j])
  {
    ReachesInv(batch, acts, s);
    var c := s.loops[l].home;
    BusConservesAndOrders(batch, acts, s, c, l);
    AcceptedPrefix(Items(s.coals[c].received), s.coals[c].queue, l);
  }

  lemma InRun<T>(xs: seq<T>, k: nat, own: seq<T>, n: nat)
    requires RunsAt(xs, k, own) && n < |own|
    ensures k + n < |xs| && xs[k + n] == own[n]
  {
    assert xs[k..k + |own|][n] == xs[k + n];
  }

  // At-least-once as the consumers see it: of every change between the floor and a cursor that its loop
  // sent while there was a receiver, each message has been received or is one of the at most 256 still
  // queued.
  lemma AtLeastOnceReceived(batch: nat, acts: seq<Action>, s: State, agent: AgentId, x: int, t: nat)
    returns (l: nat, k: nat)
    requires Reaches(batch, acts, s) && CursorOf(s, agent, x)
    requires t < |s.log| && s.log[t].vs < x && (agent in s.floor ==> s.floor[agent] <= s.log[t].vs)
    ensures l < |s.loops| && s.loops[l].agent == agent && s.loops[l].home < |s.coals|
    ensures |s.coals[s.loops[l].home].queue| <= 256
    ensures s.log[t].vs !in s.loops[l].lost && !SendsUnheard(acts, l, s.loops[l].home) ==>
      forall j | 0 <= j < |Owned(agent, s.log[t])| ::
        ReceivedOrQueued(s.coals[s.loops[l].home], l, k + j, Owned(agent, s.log[t])[j])
  {
    l, k := AtLeastOnce(batch, acts, s, agent, x, t);
    BusConservesAndOrders(batch, acts, s, s.loops[l].home, l);
    hide *;
    var own := Owned(agent, s.log[t]);
    if s.log[t].vs !in s.loops[l].lost && !SendsUnheard(acts, l, s.loops[l].home) {
      RunReceived(batch, acts, s, l, k, own);
    }
  }

  lemma RunReceived(batch: nat, acts: seq<Action>, s: State, l: nat, k: nat, own: seq<Message>)
    requires Reaches(batch, acts, s) && l < |s.loops| && s.loops[l].home < |s.coals|
    requires RunsAt(Accepted(s, l), k, own)
    ensures forall j | 0 <= j < |own| :: ReceivedOrQueued(s.coals[s.loops[l].home], l, k + j, own[j])
  {
    hide *;
    forall j | 0 <= j < |own| ensures ReceivedOrQueued(s.coals[s.loops[l].home], l, k + j, own[j]) {
      AcceptedIsThere(batch, acts, s, l, k + j);
      InRun(Accepted(s, l), k, own, j);
    }
  }

  lemma ReceivedNext(s: State, a: Action, c: nat)
    requires Formed(s) && Enabled(s, a) && c < |s.coals| && !s.coals[c].receivers
    ensures c < |Next(s, a).coals| && !Next(s, a).coals[c].receivers
    ensures Next(s, a).coals[c].received == s.coals[c].received
  {
    hide LoopAfter;
  }

  // The guard of Consume, over a run: what is queued when the last receiver goes is never received.
  lemma {:induction false} QueueDiesWithReceivers(s: State, acts: seq<Action>, c: nat)
    requires Formed(s) && Run(s, acts).Some? && c < |s.coals| && !s.coals[c].receivers
    ensures var u := Run(s, acts).value;
            c < |u.coals| && !u.coals[c].receivers && u.coals[c].received == s.coals[c].received
  {
    if acts != [] {
      RunLast(s, acts);
      QueueDiesWithReceivers(s, acts[..|acts| - 1], c);
      hide Next, Enabled;
      ReceivedNext(Run(s, acts[..|acts| - 1]).value, acts[|acts| - 1], c);
    }
  }

  // ---------------------------------------------------------------- what is delivered to whom

  lemma AcceptedMember(items: seq<Item>, k: nat) returns (i: nat)
    requires k < |items|
    ensures i < |AcceptedFrom(items, items[k].loop)|
    ensures AcceptedFrom(items, items[k].loop)[i] == items[k].delivery.message
  {
    var n := |items| - 1;
    if k == n {
      i := |AcceptedFrom(items[..n], items[k].loop)|;
    } else {
      i := AcceptedMember(items[..n], k);
    }
  }

  lemma {:induction false} WindowInLog(log: Log, lo: int, hi: int, lost: set<int>, i: nat) returns (t: nat)
    requires i < |Window(log, lo, hi, lost)|
    ensures t < |log| && log[t] == Window(log, lo, hi, lost)[i]
  {
    var n := |log| - 1;
    if i < |Window(log[..n], lo, hi, lost)| {
      t := WindowInLog(log[..n], lo, hi, lost, i);
    } else {
      t := n;
    }
  }

  lemma ForwardedIsCarried(batch: nat, acts: seq<Action>, s: State, l: nat, k: nat) returns (t: nat, j: nat)
    requires Reaches(batch, acts, s) && l < |s.loops| && k < |s.loops[l].forwarded|
    ensures t < |s.log| && j < |s.log[t].changes| && Carries(s.log[t].changes[j], s.loops[l].forwarded[k])
    ensures s.loops[l].forwarded[k].out == Some(s.loops[l].agent)
  {
    ExactForwarding(batch, acts, s, l);
    var p := s.loops[l];
    var w := Window(s.log, p.start, p.next, p.lost);
    assert (p.forwarded + p.todo)[k] == p.forwarded[k];
    hide Reaches, Window, Carries;
    var i;
    i, j := OwnedAllIsCarried(p.agent, w, k);
    t := WindowInLog(s.log, p.start, p.next, p.lost, i);
  }

  // Nothing is delivered to the wrong agent or made up: whatever any bus has ever accepted is the decoded
  // "update" or "create" record of a change in the log, and its `out` is the recipient it is delivered to.
  lemma AcceptedIsAddressed(batch: nat, acts: seq<Action>, s: State, c: nat, k: nat) returns (t: nat, j: nat)
    requires Reaches(batch, acts, s) && c < |s.coals| && k < |s.coals[c].history|
    ensures var item := s.coals[c].history[k];
            && t < |s.log| && j < |s.log[t].changes| && Carries(s.log[t].changes[j], item.delivery.message)
            && item.delivery.message.out == Some(item.delivery.recipient)
  {
    ReachesInv(batch, acts, s);
    BusHolds(s, c);
    hide Inv, Roster, Carries;
    var i := AcceptedMember(s.coals[c].history, k);
    t, j := ForwardedIsCarried(batch, acts, s, s.coals[c].history[k].loop, i);
  }

  // And nothing addressed to an agent is left out: a message that some change between the floor and a cursor
  // of the agent carries for it was forwarded, and accepted if it was sent to a receiver, unless truncated.
  lemma AddressedIsDelivered(batch: nat, acts: seq<Action>, s: State, agent: AgentId, x: int, t: nat, j: nat,
        m: Message)
    returns (l: nat, k: nat)
    requires Reaches(batch, acts, s) && CursorOf(s, agent, x)
    requires t < |s.log| && s.log[t].vs < x && (agent in s.floor ==> s.floor[agent] <= s.log[t].vs)
    requires j < |s.log[t].changes| && Carries(s.log[t].changes[j], m) && m.out == Some(agent)
    ensures l < |s.loops| && s.loops[l].agent == agent && s.loops[l].home < |s.coals|
    ensures s.log[t].vs in s.loops[l].lost ==> t < s.trunc
    ensures s.log[t].vs !in s.loops[l].lost ==>
      && k < |s.loops[l].forwarded| && s.loops[l].forwarded[k] == m
      && (!SendsUnheard(acts, l, s.loops[l].home) ==> k < |Accepted(s, l)| && Accepted(s, l)[k] == m)
  {
    l, k := AtLeastOnce(batch, acts, s, agent, x, t);
    var own := Owned(agent, s.log[t]);
    var n := OwnedAt(agent, s.log[t], j, m);
    hide *;
    if s.log[t].vs !in s.loops[l].lost {
      ghost var heard := !SendsUnheard(acts, l, s.loops[l].home);
      Picked(s.loops[l].forwarded, if heard then Accepted(s, l) else s.loops[l].forwarded, k, own, n);
      k := k + n;
    }
  }

  lemma Picked(xs: seq<Message>, ys: seq<Message>, k: nat, own: seq<Message>, n: nat)
    requires RunsAt(xs, k, own) && RunsAt(ys, k, own) && n < |own|
    ensures k + n < |xs| && k + n < |ys| && xs[k + n] == own[n] == ys[k + n]
  {
    InRun(xs, k, own, n);
    InRun(ys, k, own, n);
  }

  lemma OwnedAt(agent: AgentId, cs: Changeset, j: nat, m: Message) returns (n: nat)
    requires j < |cs.changes| && Carries(cs.changes[j], m) && m.out == Some(agent)
    ensures n < |Owned(agent, cs)| && Owned(agent, cs)[n] == m
  {
    OwnedInOrder(agent, cs, j);
    hide OwnedChanges, Owned, Carries;
    n := |OwnedChanges(agent, cs.changes[..j])|;
  }
}
