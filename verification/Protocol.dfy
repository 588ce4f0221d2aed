// The durable bus as a transition system. Every await point of the listen loop, of catch-up and of
// the coalition's start-up is one action; actions of different tasks interleave freely with commits,
// feed truncation, cancellation, consumers and crashes.

module Protocol {
  import opened Wire
  import opened Feed
  import Backoff

  /** Capacity of a coalition's delivery bus. */
  const INBOX_CAPACITY: nat := 256

  /** Largest number of changesets read by the first-run snapshot. */
  const SNAPSHOT_LIMIT: nat := 1_000_000

  // ---------------------------------------------------------------- listen loops

  /** Where a listen loop is suspended. `Drained` and `Failed` are the two returns of catch-up (or of
      the start-up queries); `Sleep(armed)` is the reconnect delay, armed unless the token was already
      cancelled when the delay began, in which case only the cancellation branch can win. */
  datatype Pc =
    | Load | Snap | SaveStart
    | Subscribe
    | Read | Forward | Save | Drained | Failed
    | Wait
    | Sleep(armed: bool)
    | Done(ok: bool)
    | Dead

  /** The LIVE wake-up stream: notifications not yet taken, and whether it has ended or errored. */
  datatype Stream = NoStream | Live(queued: nat, broken: bool)

  datatype Loop = Loop(
    agent: AgentId,
    home: nat,               // the coalition that spawned it
    // the task's own state
    pc: Pc, cursor: int, ready: bool, stream: Stream, backoff: nat,
    todo: seq<Message>,      // owned messages of the page in hand, still to be forwarded
    next: int,               // where the cursor moves once the page in hand is forwarded
    short: bool,             // the page in hand was a short one
    // its history
    begun: bool,             // a start cursor was loaded or snapshotted
    start: int,
    saved: Option<int>,      // last cursor of its own it knows to be in the cursor row
    forwarded: seq<Message>, // everything handed to the bus
    lost: set<int>,          // truncated from the feed while at or above `next`
    born: nat,               // log length when it began
    edge: nat,               // log length when it last read a page
    sleeps: nat,             // reconnect delays since the last successful drain
    pagesRead: nat, cursorSaves: nat)

  predicate Ended(p: Loop) {
    p.pc.Done? || p.pc.Dead?
  }

  function Spawned(agent: AgentId, home: nat): Loop {
    Loop(agent, home, Load, 0, false, NoStream, Backoff.RECONNECT_BACKOFF_START,
         [], 0, false, false, 0, None, [], {}, 0, 0, 0, 0, 0)
  }

  // ---------------------------------------------------------------- coalitions

  datatype Delivery = Delivery(recipient: AgentId, message: Message)
  datatype Item = Item(loop: nat, delivery: Delivery)
  datatype Receipt = Receipt(consumer: nat, item: Item)

  /** Progress of `Coalition::new`. `Abandoned` is the early return when an agent cannot
      be created, or `new` itself being dropped before it returns. */
  datatype Phase = Creating | Shaking(awaited: nat) | Unwinding | ReturnedOk | ReturnedErr | Abandoned

  datatype Coalition = Coalition(
    names: seq<AgentId>,
    members: seq<nat>,       // loops spawned, in the order of names
    phase: Phase,
    cancelled: bool,
    senders: nat,            // bus senders not yet dropped
    receivers: bool,         // some bus receiver is alive
    queue: seq<Item>,
    history: seq<Item>,      // everything the bus ever accepted
    received: seq<Receipt>)

  /** `recv` reports the bus closed. */
  predicate Closed(c: Coalition) {
    c.senders == 0 && c.queue == []
  }

  // ---------------------------------------------------------------- global state

  datatype State = State(
    batch: nat,              // changesets per catch-up page
    log: Log, trunc: nat,
    disk: map<AgentId, int>, // cursor rows
    floor: map<AgentId, int>,// largest first-run snapshot taken for each agent
    loops: seq<Loop>,
    coals: seq<Coalition>)

  function Init(batch: nat): State {
    State(batch, [], 0, map[], map[], [], [])
  }

  datatype Event =
    | LoadOk | SnapshotOk | SubscribeOk | ReadOk | QueryFails
    | Persist(applied: bool, ok: bool)
    | Send | Advance
    | Settle | GiveUp
    | Wake | StreamEnd | TakeCancel | SleepOver
    | Nudge | Break | Crash

  datatype Outcome = Signalled | Dropped | TimedOut

  datatype Action =
    | Commit(cs: Changeset, breaks: set<nat>)
    | Truncate(upto: nat)
    | Open(names: seq<AgentId>)
    | Spawn(c: nat)
    | Abandon(c: nat)
    | Handshake(c: nat)
    | Await(c: nat, outcome: Outcome)
    | Unwound(c: nat)
    | Return(c: nat)
    | Cancel(c: nat)
    | Consume(c: nat, consumer: nat)
    | DropReceivers(c: nat)
    | Step(l: nat, e: Event)

  // ---------------------------------------------------------------- effects on one loop

  function Begin(p: Loop, at: int, log: Log, trunc: nat): Loop
    requires trunc <= |log|
  {
    p.(begun := true, start := at, cursor := at, next := at,
       lost := StampsFrom(log, 0, trunc, at), born := |log|, edge := |log|)
  }

  function Snapshot(log: Log, trunc: nat): int
    requires trunc <= |log|
  {
    MaxVersionstamp(Arr(EncodeAll(Show(log, trunc, 0, SNAPSHOT_LIMIT)))) + 1
  }

  function TakePage(p: Loop, page: seq<Changeset>, batch: nat, edge: nat): Loop {
    var q := p.(edge := edge, pagesRead := p.pagesRead + 1);
    if page == [] then q.(pc := Drained)
    else q.(pc := Forward, todo := OwnedAll(p.agent, page), next := page[|page| - 1].vs + 1, short := |page| < batch)
  }

  function Notify(p: Loop, cs: Changeset, breaks: bool): Loop {
    if !p.stream.Live? then p
    else if breaks then p.(stream := p.stream.(broken := true))
    else if Owned(p.agent, cs) != [] then p.(stream := p.stream.(queued := p.stream.queued + 1))
    else p
  }

  /** Truncation up to index `upto` loses to a loop what it has not read yet. */
  function Forget(p: Loop, log: Log, trunc: nat, upto: nat): Loop
    requires trunc <= upto <= |log|
  {
    if p.begun then p.(lost := p.lost + StampsFrom(log, trunc, upto, p.next)) else p
  }

  predicate Formed(s: State) {
    && s.trunc <= |s.log|
    && (forall l | 0 <= l < |s.loops| :: s.loops[l].home < |s.coals|)
    && (forall c | 0 <= c < |s.coals| :: |s.coals[c].members| <= |s.coals[c].names|)
    && (forall c, i | 0 <= c < |s.coals| && 0 <= i < |s.coals[c].members| :: s.coals[c].members[i] < |s.loops|)
  }

  predicate Can(s: State, l: nat, e: Event)
    requires Formed(s) && l < |s.loops|
  {
    var p := s.loops[l];
    var c := s.coals[p.home];
    match e
    case LoadOk => p.pc == Load
    case SnapshotOk => p.pc == Snap
    case SubscribeOk => p.pc == Subscribe
    case ReadOk => p.pc == Read
    case QueryFails => p.pc == Load || p.pc == Snap || p.pc == Subscribe || p.pc == Read
    case Persist(applied, ok) => (p.pc == SaveStart || p.pc == Save) && (ok ==> applied)
    case Send => p.pc == Forward && p.todo != [] && (c.receivers ==> |c.queue| < INBOX_CAPACITY)
    case Advance => p.pc == Forward && p.todo == []
    case Settle => p.pc == Drained
    case GiveUp => p.pc == Failed
    case Wake => p.pc == Wait && !c.cancelled && p.stream.Live? && p.stream.queued > 0
    case StreamEnd => p.pc == Wait && !c.cancelled && p.stream.Live? && p.stream.queued == 0 && p.stream.broken
    case TakeCancel => (p.pc == Wait || p.pc.Sleep?) && c.cancelled
    case SleepOver => p.pc == Sleep(true)
    case Nudge => p.stream.Live?
    case Break => p.stream.Live?
    case Crash => !Ended(p)
  }

  function LoopAfter(s: State, l: nat, e: Event): Loop
    requires Formed(s) && l < |s.loops| && Can(s, l, e)
  {
    var p := s.loops[l];
    match e
    case LoadOk =>
      if p.agent in s.disk
      then Begin(p, s.disk[p.agent], s.log, s.trunc).(pc := Subscribe, saved := Some(s.disk[p.agent]))
      else p.(pc := Snap)
    case SnapshotOk => Begin(p, Snapshot(s.log, s.trunc), s.log, s.trunc).(pc := SaveStart)
    case SubscribeOk => p.(pc := Read, stream := Live(0, false))
    case ReadOk => TakePage(p, Show(s.log, s.trunc, p.cursor, s.batch), s.batch, |s.log|)
    case QueryFails => p.(pc := Failed)
    case Persist(applied, ok) =>
      var after := if !ok then Failed else if p.pc == SaveStart then Subscribe else if p.short then Drained else Read;
      p.(pc := after, saved := if applied then Some(p.cursor) else p.saved, cursorSaves := p.cursorSaves + 1)
    case Send => p.(forwarded := p.forwarded + [p.todo[0]], todo := p.todo[1..])
    case Advance => p.(pc := Save, cursor := p.next)
    case Settle => p.(pc := Wait, ready := true, backoff := Backoff.RECONNECT_BACKOFF_START, sleeps := 0)
    case GiveUp =>
      if p.ready then p.(pc := Sleep(!s.coals[p.home].cancelled), stream := NoStream) else p.(pc := Done(false))
    case Wake => p.(pc := Read, stream := p.stream.(queued := p.stream.queued - 1))
    case StreamEnd => p.(pc := Failed)
    case TakeCancel => p.(pc := Done(true))
    case SleepOver => p.(pc := Subscribe, backoff := Backoff.Next(p.backoff), sleeps := p.sleeps + 1)
    case Nudge => p.(stream := p.stream.(queued := p.stream.queued + 1))
    case Break => p.(stream := p.stream.(broken := true))
    case Crash => p.(pc := Dead)
  }

  /** The bus of the loop's coalition after the event: a send is accepted exactly while a receiver is
      alive, and a loop that ends drops its sender. */
  function CoalitionAfter(c: Coalition, l: nat, p: Loop, q: Loop, e: Event): Coalition
    requires e.Send? ==> p.todo != []
  {
    if e.Send? && c.receivers then
      var item := Item(l, Delivery(p.agent, p.todo[0]));
      c.(queue := c.queue + [item], history := c.history + [item])
    else if Ended(q) && !Ended(p) then c.(senders := if c.senders > 0 then c.senders - 1 else 0)
    else c
  }

  function Raise(floor: map<AgentId, int>, agent: AgentId, at: int): map<AgentId, int> {
    if agent in floor && at <= floor[agent] then floor else floor[agent := at]
  }

  function AfterStep(s: State, l: nat, e: Event): State
    requires Formed(s) && l < |s.loops| && Can(s, l, e)
  {
    var p := s.loops[l];
    var q := LoopAfter(s, l, e);
    s.(loops := s.loops[l := q],
       coals := s.coals[p.home := CoalitionAfter(s.coals[p.home], l, p, q, e)],
       disk := if e.Persist? && e.applied then s.disk[p.agent := p.cursor] else s.disk,
       floor := if e.SnapshotOk? then Raise(s.floor, p.agent, q.start) else s.floor)
  }

  // ---------------------------------------------------------------- actions

  /** The three outcomes of awaiting a loop's readiness; an elapsed timeout only counts while the
      signal is neither sent nor dropped. */
  predicate Resolves(p: Loop, outcome: Outcome) {
    match outcome
    case Signalled => p.ready
    case Dropped => !p.ready && Ended(p)
    case TimedOut => !p.ready && !Ended(p)
  }

  /** The task tracker of the coalition has nothing left to wait for. */
  predicate AllEnded(s: State, c: nat)
    requires Formed(s) && c < |s.coals|
  {
    forall i | 0 <= i < |s.coals[c].members| :: Ended(s.loops[s.coals[c].members[i]])
  }

  predicate Enabled(s: State, a: Action)
    requires Formed(s)
  {
    match a
    case Commit(cs, _) => NextVs(s.log) <= cs.vs
    case Truncate(upto) => s.trunc <= upto <= |s.log|
    case Open(_) => true
    case Spawn(c) => c < |s.coals| && s.coals[c].phase == Creating && |s.coals[c].members| < |s.coals[c].names|
    case Abandon(c) =>
      c < |s.coals| && (s.coals[c].phase == Creating || s.coals[c].phase.Shaking? || s.coals[c].phase == Unwinding)
    case Handshake(c) => c < |s.coals| && s.coals[c].phase == Creating && |s.coals[c].members| == |s.coals[c].names|
    case Await(c, outcome) =>
      && c < |s.coals| && s.coals[c].phase.Shaking? && s.coals[c].phase.awaited < |s.coals[c].members|
      && Resolves(s.loops[s.coals[c].members[s.coals[c].phase.awaited]], outcome)
    case Unwound(c) => c < |s.coals| && s.coals[c].phase == Unwinding && AllEnded(s, c)
    case Return(c) => c < |s.coals| && s.coals[c].phase == Shaking(|s.coals[c].members|)
    case Cancel(c) => c < |s.coals| && s.coals[c].phase == ReturnedOk
    case Consume(c, _) =>
      c < |s.coals| && s.coals[c].phase == ReturnedOk && s.coals[c].receivers && s.coals[c].queue != []
    case DropReceivers(c) => c < |s.coals| && s.coals[c].phase == ReturnedOk
    case Step(l, e) => l < |s.loops| && Can(s, l, e)
  }

  function SetCoalition(s: State, i: nat, c: Coalition): State
    requires i < |s.coals|
  {
    s.(coals := s.coals[i := c])
  }

  function Opened(names: seq<AgentId>): Coalition {
    Coalition(names, [], Creating, false, 1, true, [], [], [])
  }

  /** A handshake step: on any error the token is cancelled and the loops are drained. */
  function AwaitAfter(c: Coalition, outcome: Outcome): Coalition
    requires c.phase.Shaking?
  {
    if outcome == Signalled then c.(phase := Shaking(c.phase.awaited + 1))
    else c.(phase := Unwinding, cancelled := true)
  }

  function Next(s: State, a: Action): State
    requires Formed(s) && Enabled(s, a)
  {
    match a
    case Commit(cs, breaks) =>
      s.(log := s.log + [cs],
         loops := seq(|s.loops|, l requires 0 <= l < |s.loops| => Notify(s.loops[l], cs, l in breaks)))
    case Truncate(upto) =>
      s.(trunc := upto,
         loops := seq(|s.loops|, l requires 0 <= l < |s.loops| => Forget(s.loops[l], s.log, s.trunc, upto)))
    case Open(names) => s.(coals := s.coals + [Opened(names)])
    case Spawn(i) =>
      var c := s.coals[i];
      var agent := c.names[|c.members|];
      s.(loops := s.loops + [Spawned(agent, i)],
         coals := s.coals[i := c.(members := c.members + [|s.loops|], senders := c.senders + 1)])
    case Abandon(i) =>
      // drops `new`'s own sender (if it still has it) and the receiver, but cancels nothing
      var c := s.coals[i];
      SetCoalition(s, i, c.(phase := Abandoned, receivers := false,
                            senders := if c.phase == Creating && c.senders > 0 then c.senders - 1 else c.senders))
    case Handshake(i) =>
      var c := s.coals[i];
      SetCoalition(s, i, c.(phase := Shaking(0), senders := if c.senders > 0 then c.senders - 1 else 0))
    case Await(i, outcome) => SetCoalition(s, i, AwaitAfter(s.coals[i], outcome))
    case Unwound(i) => SetCoalition(s, i, s.coals[i].(phase := ReturnedErr, receivers := false))
    case Return(i) => SetCoalition(s, i, s.coals[i].(phase := ReturnedOk))
    case Cancel(i) => SetCoalition(s, i, s.coals[i].(cancelled := true))
    case Consume(i, k) =>
      var c := s.coals[i];
      SetCoalition(s, i, c.(queue := c.queue[1..], received := c.received + [Receipt(k, c.queue[0])]))
    case DropReceivers(i) => SetCoalition(s, i, s.coals[i].(receivers := false))
    case Step(l, e) => AfterStep(s, l, e)
  }

  /** What an action does to one existing loop. */
  function LoopNext(s: State, a: Action, l: nat): Loop
    requires Formed(s) && Enabled(s, a) && l < |s.loops|
  {
    match a
    case Step(k, e) => if k == l then LoopAfter(s, l, e) else s.loops[l]
    case Commit(cs, breaks) => Notify(s.loops[l], cs, l in breaks)
    case Truncate(upto) => Forget(s.loops[l], s.log, s.trunc, upto)
    case _ => s.loops[l]
  }

  lemma NextLoop(s: State, a: Action, l: nat)
    requires Formed(s) && Enabled(s, a) && l < |s.loops|
    ensures l < |Next(s, a).loops| && Next(s, a).loops[l] == LoopNext(s, a, l)
  {
  }

  lemma NextLoopCount(s: State, a: Action)
    requires Formed(s) && Enabled(s, a)
    ensures a.Spawn? ==> Next(s, a).loops == s.loops + [Spawned(s.coals[a.c].names[|s.coals[a.c].members|], a.c)]
    ensures !a.Spawn? ==> |Next(s, a).loops| == |s.loops|
  {
  }

  lemma NextLog(s: State, a: Action)
    requires Formed(s) && Enabled(s, a)
    ensures Next(s, a).batch == s.batch
    ensures Next(s, a).log == (if a.Commit? then s.log + [a.cs] else s.log)
    ensures Next(s, a).trunc == (if a.Truncate? then a.upto else s.trunc)
    ensures Next(s, a).disk == (if a.Step? && a.e.Persist? && a.e.applied
                                then s.disk[s.loops[a.l].agent := s.loops[a.l].cursor] else s.disk)
    ensures Next(s, a).floor == (if a.Step? && a.e.SnapshotOk?
                                 then Raise(s.floor, s.loops[a.l].agent, Snapshot(s.log, s.trunc)) else s.floor)
  {
  }

  lemma StepHome(s: State, l: nat, e: Event)
    requires Formed(s) && l < |s.loops| && Can(s, l, e)
    ensures LoopAfter(s, l, e).home == s.loops[l].home
  {
    hide Snapshot, Show, Owned, StampsFrom;
  }

  lemma NextFormed(s: State, a: Action)
    requires Formed(s) && Enabled(s, a)
    ensures Formed(Next(s, a))
  {
    hide LoopAfter, Show, Snapshot, Owned, Raise;
    var t := Next(s, a);
    if a.Step? { StepHome(s, a.l, a.e); }
    assert |s.loops| <= |t.loops| && |s.coals| <= |t.coals|;
  }

  // ---------------------------------------------------------------- runs

  /** The state a run of actions leads to, if every action was enabled when taken. */
  function Run(s: State, acts: seq<Action>): (r: Option<State>)
    requires Formed(s)
    ensures r.Some? ==> Formed(r.value)
  {
    if acts == [] then Some(s)
    else
      var n := |acts| - 1;
      match Run(s, acts[..n])
      case None => None
      case Some(t) => if Enabled(t, acts[n]) then NextFormed(t, acts[n]); Some(Next(t, acts[n])) else None
  }

  lemma RunLast(s: State, acts: seq<Action>)
    requires Formed(s) && acts != [] && Run(s, acts).Some?
    ensures var init, a := acts[..|acts| - 1], acts[|acts| - 1];
            && acts == init + [a] && Run(s, init).Some? && Enabled(Run(s, init).value, a)
            && Run(s, acts).value == Next(Run(s, init).value, a)
  {
    hide Next, Enabled;
  }

  lemma RunOne(s: State, acts: seq<Action>, a: Action)
    requires Formed(s) && Run(s, acts).Some? && Enabled(Run(s, acts).value, a)
    ensures Run(s, acts + [a]) == Some(Next(Run(s, acts).value, a))
  {
    assert (acts + [a])[..|acts|] == acts;
  }
}
