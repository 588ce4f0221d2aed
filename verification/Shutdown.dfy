// Shutdown drains: after cancellation every loop makes at most one further subscribe and one further
// catch-up, and a weight that only commits can raise bounds the steps it still takes.

module Shutdown {
  import opened Wire
  import opened Feed
  import opened Protocol
  import opened LoopInvariant
  import opened Coverage
  import opened Guarantees

  predicate Cancelled(s: State, l: nat) {
    l < |s.loops| && s.loops[l].home < |s.coals| && s.coals[s.loops[l].home].cancelled
  }

  /** A loop that takes only so many steps more: it is cancelled, or still in its first subscribe and drain. */
  predicate Winding(s: State, l: nat) {
    l < |s.loops| && s.loops[l].home < |s.coals| && (Cancelled(s, l) || !s.loops[l].ready)
  }

  /** Steps of the listen loop itself, as opposed to what happens to its stream. */
  predicate Own(e: Event) {
    !e.Nudge? && !e.Break?
  }

  function SubscribesLeft(p: Loop): nat {
    match p.pc
    case Load | Snap | SaveStart | Subscribe => 1
    case Sleep(armed) => if armed then 1 else 0
    case _ => 0
  }

  /** The retained changesets at or above `c`. */
  function Unread(log: Log, trunc: nat, c: int): Log
    requires trunc <= |log|
  {
    log[FirstAt(log, trunc, c)..]
  }

  /** The work the retained changesets at or above `c` can still give a loop of `agent`. */
  function Backlog(log: Log, trunc: nat, agent: AgentId, c: int): nat
    requires trunc <= |log|
  {
    3 * |Unread(log, trunc, c)| + |OwnedAll(agent, Unread(log, trunc, c))|
  }

  /** Steps of the stage a loop is in that do not depend on what is unread. */
  function Rank(pc: Pc): nat {
    match pc
    case Load => 7
    case Snap => 6
    case SaveStart => 5
    case Subscribe => 4
    case Read => 3
    case Forward => 5
    case Save => 4
    case Drained => 2
    case Failed => 2
    case Wait => 1
    case Sleep(armed) => if armed then 5 else 1
    case Done(_) => 0
    case Dead => 0
  }

  /** Whether a cancelled loop in this stage may still read the feed. */
  predicate MayRead(pc: Pc) {
    || pc == Load || pc == Snap || pc == SaveStart || pc == Subscribe
    || pc == Read || pc == Forward || pc == Save || pc == Sleep(true)
  }

  /** An upper bound on the steps a cancelled loop still takes if nothing more is committed. */
  function Weight(log: Log, trunc: nat, p: Loop): nat
    requires trunc <= |log|
  {
    Stages(p) + (if MayRead(p.pc) then Backlog(log, trunc, p.agent, p.next) else 0)
  }

  // ---------------------------------------------------------------- one step

  lemma SubscribeStep(s: State, l: nat, e: Event)
    requires Formed(s) && Cancelled(s, l) && Can(s, l, e)
    ensures SubscribesLeft(LoopAfter(s, l, e)) + (if e.SubscribeOk? then 1 else 0) <= SubscribesLeft(s.loops[l])
    ensures !e.Wake?
  {
  }

  // A higher starting point leaves less to do.
  lemma BacklogSkips(log: Log, trunc: nat, agent: AgentId, c: int, d: int, upto: nat)
    requires trunc <= upto <= |log| && FirstAt(log, trunc, c) <= FirstAt(log, upto, d)
    ensures var skipped := log[FirstAt(log, trunc, c)..FirstAt(log, upto, d)];
            Backlog(log, upto, agent, d) + 3 * |skipped| + |OwnedAll(agent, skipped)| == Backlog(log, trunc, agent, c)
  {
    var i, j := FirstAt(log, trunc, c), FirstAt(log, upto, d);
    assert log[i..] == log[i..j] + log[j..];
    OwnedAllConcat(agent, log[i..j], log[j..]);
  }

  lemma FreshBacklog(log: Log, trunc: nat, agent: AgentId, at: int)
    requires trunc <= |log| && Sorted(log)
    ensures Backlog(log, trunc, agent, at) <= Backlog(log, trunc, agent, 0)
  {
    FirstAtUnique(log, trunc, 0, trunc);
    BacklogSkips(log, trunc, agent, 0, at, trunc);
  }

  lemma PageBacklog(log: Log, trunc: nat, agent: AgentId, c: int, n: nat)
    requires 1 <= n && trunc <= |log| && Sorted(log)
    ensures var page := Show(log, trunc, c, n);
            page != [] ==>
              Backlog(log, trunc, agent, page[|page| - 1].vs + 1) + 3 + |OwnedAll(agent, page)|
                <= Backlog(log, trunc, agent, c)
  {
    var page := Show(log, trunc, c, n);
    if page != [] {
      PageEnd(log, trunc, c, n);
      SkipPage(log, trunc, agent, c, page[|page| - 1].vs + 1, page);
    }
  }

  lemma SkipPage(log: Log, trunc: nat, agent: AgentId, c: int, d: int, page: seq<Changeset>)
    requires trunc <= |log| && page != [] && FirstAt(log, trunc, d) == FirstAt(log, trunc, c) + |page|
    requires page == log[FirstAt(log, trunc, c)..FirstAt(log, trunc, d)]
    ensures Backlog(log, trunc, agent, d) + 3 + |OwnedAll(agent, page)| <= Backlog(log, trunc, agent, c)
  {
    hide FirstAt, Backlog, OwnedAll;
    BacklogSkips(log, trunc, agent, c, d, trunc);
  }

  /** The part of the weight that does not depend on the feed. */
  function Stages(p: Loop): nat {
    Rank(p.pc) + (if p.pc == Forward then |p.todo| else 0)
  }

  lemma StageStep(s: State, l: nat, e: Event)
    requires Formed(s) && Winding(s, l) && Can(s, l, e) && Stage(s.loops[l]) && !e.ReadOk?
    ensures Stages(LoopAfter(s, l, e)) + (if Own(e) then 1 else 0) <= Stages(s.loops[l])
  {
    hide Snapshot, Show, StampsFrom, Backoff.Next;
  }

  lemma ReadingStep(s: State, l: nat, e: Event)
    requires Formed(s) && Winding(s, l) && Can(s, l, e) && Stage(s.loops[l]) && !e.ReadOk?
    ensures var p, q := s.loops[l], LoopAfter(s, l, e);
            && q.agent == p.agent && (MayRead(q.pc) ==> MayRead(p.pc))
            && (!e.LoadOk? && !e.SnapshotOk? ==> q.next == p.next)
  {
    hide Snapshot, Show, StampsFrom, Backoff.Next;
  }

  lemma ReadLowersWeight(batch: nat, log: Log, trunc: nat, p: Loop)
    requires 1 <= batch && trunc <= |log| && Sorted(log) && p.pc == Read && p.next == p.cursor
    ensures Weight(log, trunc, TakePage(p, Show(log, trunc, p.cursor, batch), batch, |log|)) < Weight(log, trunc, p)
  {
    PageBacklog(log, trunc, p.agent, p.cursor, batch);
    hide Show, OwnedAll, Backlog;
  }

  // Every own step of such a loop lowers its weight.
  lemma WeightStep(s: State, l: nat, e: Event)
    requires 1 <= s.batch && Formed(s) && Sorted(s.log) && Winding(s, l) && Can(s, l, e)
    requires Stage(s.loops[l])
    ensures Weight(s.log, s.trunc, LoopAfter(s, l, e)) + (if Own(e) then 1 else 0) <= Weight(s.log, s.trunc, s.loops[l])
  {
    var p, q := s.loops[l], LoopAfter(s, l, e);
    if e.ReadOk? {
      hide Weight, Show;
      ReadLowersWeight(s.batch, s.log, s.trunc, p);
    } else {
      StageStep(s, l, e);
      ReadingStep(s, l, e);
      FreshBacklog(s.log, s.trunc, p.agent, q.next);
      hide LoopAfter, Stages, Backlog, Sorted, Formed;
    }
  }

  // ---------------------------------------------------------------- whole runs

  function OwnSteps(acts: seq<Action>, l: nat): nat {
    if acts == [] then 0
    else
      var a := acts[|acts| - 1];
      OwnSteps(acts[..|acts| - 1], l) + (if a.Step? && a.l == l && Own(a.e) then 1 else 0)
  }

  function Subscribes(acts: seq<Action>, l: nat): nat {
    if acts == [] then 0
    else Subscribes(acts[..|acts| - 1], l) + (if acts[|acts| - 1] == Step(l, SubscribeOk) then 1 else 0)
  }

  /** Catch-ups begun: after a subscribe, or on a wake. */
  function CatchUps(acts: seq<Action>, l: nat): nat {
    if acts == [] then 0
    else
      var a := acts[|acts| - 1];
      CatchUps(acts[..|acts| - 1], l) + (if a == Step(l, SubscribeOk) || a == Step(l, Wake) then 1 else 0)
  }

  /** What the commits of a run can add to the work of a loop of `agent`. */
  function CommitCost(acts: seq<Action>, agent: AgentId): nat {
    if acts == [] then 0
    else
      var a := acts[|acts| - 1];
      CommitCost(acts[..|acts| - 1], agent) + (if a.Commit? then 3 + |Owned(agent, a.cs)| else 0)
  }

  lemma CancelledNext(s: State, a: Action, l: nat)
    requires Formed(s) && Enabled(s, a) && Cancelled(s, l)
    ensures Cancelled(Next(s, a), l)
  {
    NextLoop(s, a, l);
    assert LoopNext(s, a, l).home == s.loops[l].home;
  }

  predicate SameWork(p: Loop, q: Loop) {
    q.agent == p.agent && q.next == p.next && q.todo == p.todo && q.pc == p.pc
  }

  lemma CommitWeight(log: Log, trunc: nat, p: Loop, q: Loop, cs: Changeset)
    requires trunc <= |log| && Sorted(log) && p.next <= NextVs(log) <= cs.vs && SameWork(p, q)
    ensures Weight(log + [cs], trunc, q) <= Weight(log, trunc, p) + 3 + |Owned(p.agent, cs)|
  {
    var k := FirstAt(log, trunc, p.next);
    FirstAtUnique(log + [cs], trunc, p.next, k);
    assert (log + [cs])[k..] == log[k..] + [cs];
    OwnedAllConcat(p.agent, log[k..], [cs]);
    assert OwnedAll(p.agent, [cs]) == Owned(p.agent, cs) + [];
  }

  lemma TruncateWeight(log: Log, trunc: nat, p: Loop, q: Loop, upto: nat)
    requires trunc <= upto <= |log| && SameWork(p, q)
    ensures Weight(log, upto, q) <= Weight(log, trunc, p)
  {
    BacklogSkips(log, trunc, p.agent, p.next, p.next, upto);
  }

  lemma WeightNext(s: State, a: Action, l: nat)
    requires Good(s) && Enabled(s, a) && Winding(s, l)
    ensures l < |Next(s, a).loops| && Next(s, a).trunc <= |Next(s, a).log|
    ensures Weight(Next(s, a).log, Next(s, a).trunc, Next(s, a).loops[l])
            + (if a.Step? && a.l == l && Own(a.e) then 1 else 0)
         <= Weight(s.log, s.trunc, s.loops[l]) + (if a.Commit? then 3 + |Owned(s.loops[l].agent, a.cs)| else 0)
  {
    NextFormed(s, a);
    NextLoop(s, a, l);
    NextLog(s, a);
    var p, q := s.loops[l], LoopNext(s, a, l);
    assert LoopInv(s.batch, s.log, s.trunc, p);
    match a {
      case Step(k, e) => if k == l { WeightStep(s, l, e); }
      case Commit(cs, _) => CommitWeight(s.log, s.trunc, p, q, cs);
      case Truncate(upto) => TruncateWeight(s.log, s.trunc, p, q, upto);
      case _ =>
    }
  }

  // From any state in which a loop's token is cancelled, over any run, the loop takes no more own steps
  // than its backlog and the commits of the run account for.
  lemma {:induction false} ShutdownDrains(s: State, l: nat, acts: seq<Action>)
    requires Inv(s) && Cancelled(s, l) && Run(s, acts).Some?
    ensures var u := Run(s, acts).value;
            && Cancelled(u, l) && u.loops[l].agent == s.loops[l].agent
            && OwnSteps(acts, l) + Weight(u.log, u.trunc, u.loops[l])
               <= Weight(s.log, s.trunc, s.loops[l]) + CommitCost(acts, s.loops[l].agent)
  {
    if acts != [] {
      var init, a := acts[..|acts| - 1], acts[|acts| - 1];
      ShutdownDrains(s, l, init);
      InvRun(s, init);
      var m := Run(s, init).value;
      assert Good(m);
      hide Inv, Good, Next, LoopNext, Weight, Owned;
      CancelledNext(m, a, l);
      WeightNext(m, a, l);
      NextLoop(m, a, l);
      SubscribesNext(m, a, l);
    }
  }

  // After cancellation a loop makes at most one further subscribe and one further catch-up, the latter
  // only as the drain after that subscribe.
  lemma {:induction false} AtMostOneMoreDrain(s: State, l: nat, acts: seq<Action>)
    requires Inv(s) && Cancelled(s, l) && Run(s, acts).Some?
    ensures var u := Run(s, acts).value;
            && Cancelled(u, l)
            && Subscribes(acts, l) + SubscribesLeft(u.loops[l]) <= SubscribesLeft(s.loops[l]) <= 1
            && CatchUps(acts, l) == Subscribes(acts, l)
  {
    if acts != [] {
      var init, a := acts[..|acts| - 1], acts[|acts| - 1];
      AtMostOneMoreDrain(s, l, init);
      var m := Run(s, init).value;
      hide Inv, Next, LoopNext;
      CancelledNext(m, a, l);
      NextLoop(m, a, l);
      SubscribesNext(m, a, l);
    }
  }

  lemma SubscribesNext(s: State, a: Action, l: nat)
    requires Formed(s) && Enabled(s, a) && Cancelled(s, l)
    ensures SubscribesLeft(LoopNext(s, a, l)) + (if a == Step(l, SubscribeOk) then 1 else 0)
         <= SubscribesLeft(s.loops[l])
    ensures a != Step(l, Wake)
    ensures LoopNext(s, a, l).agent == s.loops[l].agent
  {
    if a.Step? && a.l == l {
      SubscribeStep(s, l, a.e);
    }
  }

  lemma QueueBounded(batch: nat, acts: seq<Action>, s: State, c: nat)
    requires Reaches(batch, acts, s) && c < |s.coals|
    ensures |s.coals[c].queue| <= INBOX_CAPACITY
  {
    ReachesInv(batch, acts, s);
    assert Bus.Traffic(s.loops, c, s.coals[c]);
  }

  lemma CancelledCanStep(s: State, l: nat) returns (e: Event)
    requires Formed(s) && Cancelled(s, l) && !Ended(s.loops[l])
    requires |s.coals[s.loops[l].home].queue| <= INBOX_CAPACITY
    ensures Own(e) && !e.Crash?
    ensures Can(s, l, e) || (e.Send? && s.loops[l].pc == Forward && s.coals[s.loops[l].home].receivers
                             && |s.coals[s.loops[l].home].queue| == INBOX_CAPACITY)
  {
    match s.loops[l].pc {
      case Load => e := LoadOk;
      case Snap => e := SnapshotOk;
      case SaveStart => e := Persist(true, true);
      case Subscribe => e := SubscribeOk;
      case Read => e := ReadOk;
      case Forward => e := if s.loops[l].todo == [] then Advance else Send;
      case Save => e := Persist(true, true);
      case Drained => e := Settle;
      case Failed => e := GiveUp;
      case Wait => e := TakeCancel;
      case Sleep(_) => e := TakeCancel;
      case Done(_) =>
      case Dead =>
    }
  }

  // Until it has ended, a cancelled loop can always take a step of its own, unless it is blocked sending
  // to a full bus; one dequeue unblocks it.
  lemma ShutdownNeverStuck(batch: nat, acts: seq<Action>, s: State, l: nat) returns (e: Event)
    requires Reaches(batch, acts, s) && Cancelled(s, l) && !Ended(s.loops[l])
    ensures Formed(s) && Own(e) && !e.Crash?
    ensures Can(s, l, e) || (e.Send? && s.loops[l].pc == Forward && s.coals[s.loops[l].home].receivers
                             && |s.coals[s.loops[l].home].queue| == 256)
  {
    hide Run, LoopInv, Can;
    LoopHolds(batch, acts, s, l);
    QueueBounded(batch, acts, s, s.loops[l].home);
    e := CancelledCanStep(s, l);
  }
}
