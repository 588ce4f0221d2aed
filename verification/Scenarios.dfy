// Concrete runs that show where the code promises less than a first reading suggests, and that the
// conditions of the theorems about it do arise.

module Scenarios {
  import opened Wire
  import opened Feed
  import opened Protocol
  import opened LoopInvariant
  import opened Sums
  import opened Guarantees
  import opened Startup

  lemma Then(batch: nat, acts: seq<Action>, s: State, a: Action) returns (more: seq<Action>, t: State)
    requires Reaches(batch, acts, s) && Formed(s) && Enabled(s, a)
    ensures Reaches(batch, more, t) && Formed(t) && t == Next(s, a) && more == acts + [a]
  {
    RunOne(Init(batch), acts, a);
    more, t := acts + [a], Next(s, a);
  }

  lemma ThenStep(batch: nat, acts: seq<Action>, s: State, l: nat, e: Event) returns (more: seq<Action>, t: State)
    requires Reaches(batch, acts, s) && Formed(s) && l < |s.loops| && Can(s, l, e) && !e.Send?
    requires !Ended(LoopAfter(s, l, e))
    ensures Reaches(batch, more, t) && Formed(t) && more == acts + [Step(l, e)]
    ensures t == s.(loops := s.loops[l := LoopAfter(s, l, e)],
                    disk := if e.Persist? && e.applied then s.disk[s.loops[l].agent := s.loops[l].cursor] else s.disk,
                    floor := if e.SnapshotOk?
                             then Raise(s.floor, s.loops[l].agent, LoopAfter(s, l, e).start) else s.floor)
  {
    more, t := Then(batch, acts, s, Step(l, e));
    assert t.coals == s.coals;
  }

  lemma ThenSpawn(batch: nat, acts: seq<Action>, s: State, c: nat) returns (more: seq<Action>, t: State)
    requires Reaches(batch, acts, s) && Formed(s) && Enabled(s, Spawn(c))
    ensures Reaches(batch, more, t) && Formed(t)
    ensures var x := s.coals[c];
            t == s.(loops := s.loops + [Spawned(x.names[|x.members|], c)],
                    coals := s.coals[c := x.(members := x.members + [|s.loops|], senders := x.senders + 1)])
  {
    more, t := Then(batch, acts, s, Spawn(c));
  }

  lemma ThenCommit(batch: nat, acts: seq<Action>, s: State, cs: Changeset) returns (more: seq<Action>, t: State)
    requires Reaches(batch, acts, s) && Formed(s) && Enabled(s, Commit(cs, {}))
    requires forall l | 0 <= l < |s.loops| :: s.loops[l].stream == NoStream
    ensures Reaches(batch, more, t) && Formed(t) && t == s.(log := s.log + [cs])
  {
    more, t := Then(batch, acts, s, Commit(cs, {}));
    assert t.loops == s.loops;
  }

  const Saved := Persist(true, true)

  /** A loop between its first-run snapshot, taken at `at` changesets into the log, and the save of it. */
  function Snapped(agent: AgentId, home: nat, at: int, born: nat): Loop {
    Spawned(agent, home).(pc := SaveStart, begun := true, start := at, cursor := at, next := at,
                          born := born, edge := born)
  }

  lemma EmptySnapshot()
    ensures Snapshot([], 0) == 1
  {
    assert EncodeAll([]) == [];
  }

  lemma FirstSnapshot(cs: Changeset)
    requires cs.vs == 1
    ensures Snapshot([cs], 0) == 2
  {
    SnapshotValue([cs], 0);
  }

  lemma Single<T>(x: T, y: T)
    ensures [] + [x] == [x] && [x][0 := y] == [y]
  {
  }

  lemma Pair<T>(x: T, y: T, z: T)
    ensures [x] + [y] == [x, y] && [x, y][0 := z] == [z, y] && [x, y][1 := z] == [x, z]
  {
  }

  /** A coalition with one name given twice, both loops spawned. */
  function Twins(batch: nat, agent: AgentId, log: Log, disk: map<AgentId, int>, floor: map<AgentId, int>,
                 p: Loop, q: Loop): State
  {
    State(batch, log, 0, disk, floor, [p, q], [Coalition([agent, agent], [0, 1], Creating, false, 3, true, [], [], [])])
  }

  lemma SpawnTwins(batch: nat, agent: AgentId) returns (acts: seq<Action>, s: State)
    requires 1 <= batch
    ensures Reaches(batch, acts, s) && s == Twins(batch, agent, [], map[], map[], Spawned(agent, 0), Spawned(agent, 0))
  {
    var p, c := Spawned(agent, 0), Opened([agent, agent]);
    var d := c.(members := [0], senders := 2);
    acts, s := Then(batch, [], Init(batch), Open([agent, agent]));
    Single(c, d);
    assert s == Init(batch).(coals := [c]);
    acts, s := ThenSpawn(batch, acts, s, 0);
    Single(p, p);
    Single(0, 0);
    assert s == Init(batch).(coals := [d], loops := [p]);
    acts, s := ThenSpawn(batch, acts, s, 0);
    Pair(p, p, p);
    Pair(0, 1, 0);
    Single(d, d.(members := [0, 1], senders := 3));
  }

  // The two loops of a name given twice: the first takes its snapshot, a change is committed, and the second
  // takes its own.
  lemma Race(batch: nat, agent: AgentId, cs: Changeset) returns (acts: seq<Action>, s: State)
    requires 1 <= batch && cs.vs == 1
    ensures Reaches(batch, acts, s)
    ensures s == Twins(batch, agent, [cs], map[], map[agent := 2], Snapped(agent, 0, 1, 0), Snapped(agent, 0, 2, 1))
  {
    EmptySnapshot();
    var p, q := Spawned(agent, 0), Snapped(agent, 0, 1, 0);
    acts, s := SpawnTwins(batch, agent);
    hide Reaches, Next, Snapshot, Show;
    acts, s := ThenStep(batch, acts, s, 0, LoadOk);
    Pair(p, p, p.(pc := Snap));
    assert s == Twins(batch, agent, [], map[], map[], p.(pc := Snap), p);
    assert LoopAfter(s, 0, SnapshotOk) == q;
    acts, s := ThenStep(batch, acts, s, 0, SnapshotOk);
    Pair(p.(pc := Snap), p, q);
    assert s == Twins(batch, agent, [], map[], map[agent := 1], q, p);
    acts, s := ThenCommit(batch, acts, s, cs);
    Single(cs, cs);
    acts, s := RaceOn(batch, agent, cs, acts, s);
  }

  lemma RaceOn(batch: nat, agent: AgentId, cs: Changeset, before: seq<Action>, r: State)
    returns (acts: seq<Action>, s: State)
    requires Reaches(batch, before, r) && cs.vs == 1
    requires r == Twins(batch, agent, [cs], map[], map[agent := 1], Snapped(agent, 0, 1, 0), Spawned(agent, 0))
    ensures Reaches(batch, acts, s)
    ensures s == Twins(batch, agent, [cs], map[], map[agent := 2], Snapped(agent, 0, 1, 0), Snapped(agent, 0, 2, 1))
  {
    var p, q, x := Spawned(agent, 0), Snapped(agent, 0, 1, 0), Snapped(agent, 0, 2, 1);
    hide Reaches, Next, Snapshot, Show;
    acts, s := ThenStep(batch, before, r, 1, LoadOk);
    Pair(q, p, p.(pc := Snap));
    assert s == Twins(batch, agent, [cs], map[], map[agent := 1], q, p.(pc := Snap));
    SecondSnaps(s, agent, cs);
    acts, s := ThenStep(batch, acts, s, 1, SnapshotOk);
    Pair(q, p.(pc := Snap), x);
  }

  lemma SecondSnaps(s: State, agent: AgentId, cs: Changeset)
    requires Formed(s) && |s.loops| == 2 && s.loops[1] == Spawned(agent, 0).(pc := Snap)
    requires s.log == [cs] && s.trunc == 0 && cs.vs == 1
    ensures LoopAfter(s, 1, SnapshotOk) == Snapped(agent, 0, 2, 1)
  {
    FirstSnapshot(cs);
  }

  // Upserts overwrite whatever is there: with a name given twice, the row of a new agent can go backwards.
  lemma CursorRowMayGoBack(batch: nat, agent: AgentId, cs: Changeset)
    returns (acts: seq<Action>, s: State, more: seq<Action>, t: State)
    requires 1 <= batch && cs.vs == 1
    ensures Reaches(batch, acts, s) && Reaches(batch, more, t)
    ensures acts <= more && s.disk == map[agent := 2] && t.disk == map[agent := 1]
  {
    var p, q := Snapped(agent, 0, 1, 0), Snapped(agent, 0, 2, 1);
    acts, s := Race(batch, agent, cs);
    hide Reaches, Next;
    acts, s := ThenStep(batch, acts, s, 1, Saved);
    more, t := ThenStep(batch, acts, s, 0, Saved);
  }

  // ---------------------------------------------------------------- a crash delivers again

  /** A new agent's loop that has persisted its first cursor, the first of its coalition. */
  function Begun(agent: AgentId): Loop {
    Snapped(agent, 0, 1, 0).(pc := Subscribe, saved := Some(1), cursorSaves := 1)
  }

  /** Two agents, of which the second is still to be created. */
  function Names(agent: AgentId): seq<AgentId> {
    [agent, agent + "2"]
  }

  function Alone(batch: nat, agent: AgentId, log: Log, p: Loop): State {
    State(batch, log, 0, map[agent := 1], map[agent := 1], [p],
          [Coalition(Names(agent), [0], Creating, false, 2, true, [], [], [])])
  }

  lemma SpawnAlone(batch: nat, agent: AgentId) returns (acts: seq<Action>, s: State)
    requires 1 <= batch
    ensures Reaches(batch, acts, s)
    ensures s == Alone(batch, agent, [], Spawned(agent, 0)).(disk := map[], floor := map[])
  {
    var p, c := Spawned(agent, 0), Opened(Names(agent));
    acts, s := Then(batch, [], Init(batch), Open(Names(agent)));
    Single(c, c.(members := [0], senders := 2));
    assert s == Init(batch).(coals := [c]);
    acts, s := ThenSpawn(batch, acts, s, 0);
    Single(p, p);
    Single(0, 0);
  }

  lemma SnapAlone(batch: nat, agent: AgentId) returns (acts: seq<Action>, s: State)
    requires 1 <= batch
    ensures Reaches(batch, acts, s)
    ensures s == Alone(batch, agent, [], Snapped(agent, 0, 1, 0)).(disk := map[])
  {
    EmptySnapshot();
    var p := Spawned(agent, 0);
    acts, s := SpawnAlone(batch, agent);
    hide Reaches, Next, Snapshot, Show;
    acts, s := ThenStep(batch, acts, s, 0, LoadOk);
    Single(p, p.(pc := Snap));
    assert s.loops == [p.(pc := Snap)];
    assert LoopAfter(s, 0, SnapshotOk) == Snapped(agent, 0, 1, 0);
    acts, s := ThenStep(batch, acts, s, 0, SnapshotOk);
    Single(p.(pc := Snap), Snapped(agent, 0, 1, 0));
  }

  lemma BeginAlone(batch: nat, agent: AgentId, cs: Changeset) returns (acts: seq<Action>, s: State)
    requires 1 <= batch && cs.vs == 1
    ensures Reaches(batch, acts, s) && s == Alone(batch, agent, [cs], Begun(agent))
  {
    acts, s := SnapAlone(batch, agent);
    hide Reaches, Next;
    acts, s := ThenStep(batch, acts, s, 0, Saved);
    Single(Snapped(agent, 0, 1, 0), Begun(agent));
    assert s == Alone(batch, agent, [], Begun(agent));
    acts, s := ThenCommit(batch, acts, s, cs);
    Single(cs, cs);
  }

  /** A loop that has resumed from its agent's row. */
  function Resumed(s: State, agent: AgentId): Loop
    requires s.trunc <= |s.log| && agent in s.disk
  {
    Begin(Spawned(agent, |s.coals|), s.disk[agent], s.log, s.trunc).(pc := Subscribe, saved := Some(s.disk[agent]))
  }

  // The agent is started again, in a new coalition, and resumes from its row.
  lemma Restarts(batch: nat, before: seq<Action>, r: State, agent: AgentId) returns (acts: seq<Action>, s: State)
    requires Reaches(batch, before, r) && Formed(r) && agent in r.disk
    ensures Reaches(batch, acts, s) && Formed(s)
    ensures s == r.(loops := r.loops + [Resumed(r, agent)],
                    coals := r.coals + [Coalition([agent], [|r.loops|], Creating, false, 2, true, [], [], [])])
  {
    var n, k, p, c := |r.loops|, |r.coals|, Spawned(agent, |r.coals|), Opened([agent]);
    acts, s := Then(batch, before, r, Open([agent]));
    hide Reaches, Next;
    acts, s := ThenSpawn(batch, acts, s, k);
    Single(n, n);
    assert (r.coals + [c])[k := c.(members := [n], senders := 2)] == r.coals + [c.(members := [n], senders := 2)];
    assert s.loops == r.loops + [p] && s.loops[n] == p;
    acts, s := ThenStep(batch, acts, s, n, LoadOk);
    assert (r.loops + [p])[n := Resumed(r, agent)] == r.loops + [Resumed(r, agent)];
  }

  lemma WholeLog(agent: AgentId, cs: Changeset)
    requires cs.vs == 1
    ensures Window([cs], 1, 2, {}) == [cs] && OwnedAll(agent, [cs]) == Owned(agent, cs)
  {
    assert [cs][..0] == [];
    assert [] + [cs] == [cs];
  }

  lemma InheritsAll(agent: AgentId, cs: Changeset, q: Loop)
    requires cs.vs == 1 && q.home == 1 && q.begun && q.agent == agent && q.born == 1 && q.start == 1 && q.lost == {}
    ensures Inherited(1, [cs])(q) == |Owned(agent, cs)|
  {
    WholeLog(agent, cs);
    assert [cs][..1] == [cs];
  }

  lemma SecondAlone<T>(x: T, y: T, f: T -> nat)
    ensures Sum([x, y], f) >= f(y)
  {
    assert [x, y][..1] == [x];
  }

  // So a coalition whose `new` can never return does arise: one agent, one change with more messages for it
  // than the bus holds, and a restart.
  lemma OvercommitArises(batch: nat, agent: AgentId, cs: Changeset) returns (acts: seq<Action>, s: State)
    requires 1 <= batch && cs.vs == 1 && 256 < |Owned(agent, cs)|
    ensures Reaches(batch, acts, s) && Overcommitted(s, 1)
  {
    acts, s := BeginAlone(batch, agent, cs);
    var p, q := Begun(agent), Resumed(s, agent);
    acts, s := Restarts(batch, acts, s, agent);
    hide Reaches, Sum, Inherited, Owned;
    Pair(p, q, q);
    assert s.loops == [p, q];
    InheritsAll(agent, cs, q);
    SecondAlone(p, q, Inherited(1, s.log));
  }

  /** A loop at its subscription, about to read the one change of the log from its start. */
  predicate AtFirst(s: State, l: nat, cs: Changeset) {
    && Formed(s) && 1 <= s.batch && s.log == [cs] && s.trunc == 0 && cs.vs == 1
    && l < |s.loops| && s.loops[l].pc == Subscribe && s.loops[l].cursor == 1
    && s.coals[s.loops[l].home].queue == []
  }

  /** What the first send of the page does to the bus. */
  function WithFirst(s: State, l: nat, m: Message): seq<Coalition>
    requires Formed(s) && l < |s.loops|
  {
    var h, item := s.loops[l].home, Item(l, Delivery(s.loops[l].agent, m));
    s.coals[h := s.coals[h].(queue := s.coals[h].queue + [item], history := s.coals[h].history + [item])]
  }

  lemma ShowsIt(cs: Changeset, batch: nat)
    requires cs.vs == 1 && 1 <= batch
    ensures Show([cs], 0, 1, batch) == [cs]
  {
  }

  lemma ReadsIt(batch: nat, before: seq<Action>, r: State, l: nat, cs: Changeset) returns (acts: seq<Action>, s: State)
    requires Reaches(batch, before, r) && AtFirst(r, l, cs)
    ensures Reaches(batch, acts, s) && Formed(s) && s == r.(loops := s.loops) && |s.loops| == |r.loops|
    ensures s.loops[l].agent == r.loops[l].agent && s.loops[l].home == r.loops[l].home
    ensures s.loops[l].ready == r.loops[l].ready
    ensures s.loops[l].pc == Forward && s.loops[l].todo == Owned(r.loops[l].agent, cs) && s.loops[l].next == 2
    ensures forall k | 0 <= k < |r.loops| && k != l :: s.loops[k] == r.loops[k]
  {
    hide Reaches, Next, Show;
    acts, s := ThenStep(batch, before, r, l, SubscribeOk);
    ShowsIt(cs, s.batch);
    acts, s := ThenStep(batch, acts, s, l, ReadOk);
    assert OwnedAll(r.loops[l].agent, [cs]) == Owned(r.loops[l].agent, cs);
  }

  // A loop there subscribes, reads the page and forwards its first message.
  lemma ForwardsFirst(batch: nat, before: seq<Action>, r: State, l: nat, cs: Changeset)
    returns (acts: seq<Action>, s: State)
    requires Reaches(batch, before, r) && AtFirst(r, l, cs) && Owned(r.loops[l].agent, cs) != []
    requires r.coals[r.loops[l].home].receivers
    ensures Reaches(batch, acts, s) && Formed(s)
    ensures s == r.(loops := s.loops, coals := WithFirst(r, l, Owned(r.loops[l].agent, cs)[0]))
    ensures |s.loops| == |r.loops| && s.loops[l].pc == Forward && s.loops[l].home == r.loops[l].home
    ensures forall k | 0 <= k < |r.loops| && k != l :: s.loops[k] == r.loops[k]
  {
    hide Reaches, Owned;
    acts, s := ReadsIt(batch, before, r, l, cs);
    acts, s := Then(batch, acts, s, Step(l, Send));
  }

  lemma Dies(batch: nat, before: seq<Action>, r: State, l: nat) returns (acts: seq<Action>, s: State)
    requires Reaches(batch, before, r) && Formed(r) && l < |r.loops| && !Ended(r.loops[l])
    ensures Reaches(batch, acts, s) && Formed(s)
    ensures s == r.(loops := r.loops[l := r.loops[l].(pc := Dead)], coals := s.coals) && |s.coals| == |r.coals|
    ensures forall c | 0 <= c < |r.coals| :: s.coals[c].history == r.coals[c].history
  {
    acts, s := Then(batch, before, r, Step(l, Crash));
  }

  // A crash between a forward and the save of the cursor: the first message of a change is accepted by the
  // bus of the loop that crashed and again by the bus of the next one, although no name is given twice.
  lemma DeliveredTwice(batch: nat, agent: AgentId, cs: Changeset) returns (acts: seq<Action>, s: State)
    requires 1 <= batch && cs.vs == 1 && Owned(agent, cs) != []
    ensures Reaches(batch, acts, s) && |s.loops| == |s.coals| == 2 && s.loops[0].pc == Dead
    ensures forall l | 0 <= l < 2 :: s.coals[l].history == [Item(l, Delivery(agent, Owned(agent, cs)[0]))]
  {
    var m := Owned(agent, cs)[0];
    acts, s := BeginAlone(batch, agent, cs);
    hide Reaches, Next, Owned;
    acts, s := ForwardsFirst(batch, acts, s, 0, cs);
    Single(Item(0, Delivery(agent, m)), Item(0, Delivery(agent, m)));
    assert |s.coals| == 1 && s.coals[0].history == [Item(0, Delivery(agent, m))];
    acts, s := Dies(batch, acts, s, 0);
    acts, s := Restarts(batch, acts, s, agent);
    acts, s := ForwardsFirst(batch, acts, s, 1, cs);
    Single(Item(1, Delivery(agent, m)), Item(1, Delivery(agent, m)));
  }

  // ---------------------------------------------------------------- changes that nobody receives

  /** A loop with one message in hand and nothing else to read. */
  predicate LastMessage(s: State, l: nat, m: Message) {
    && Formed(s) && l < |s.loops| && s.loops[l].pc == Forward && s.loops[l].todo == [m] && s.loops[l].next == 2
    && (s.coals[s.loops[l].home].receivers ==> s.coals[s.loops[l].home].queue == [])
  }

  lemma SendsLast(batch: nat, before: seq<Action>, r: State, l: nat, m: Message) returns (acts: seq<Action>, s: State)
    requires Reaches(batch, before, r) && LastMessage(r, l, m)
    ensures Reaches(batch, acts, s) && Formed(s) && s == r.(loops := s.loops, coals := s.coals)
    ensures s.coals == if r.coals[r.loops[l].home].receivers then WithFirst(r, l, m) else r.coals
    ensures |s.loops| == |r.loops| && forall k | 0 <= k < |r.loops| && k != l :: s.loops[k] == r.loops[k]
    ensures var p, q := r.loops[l], s.loops[l];
            && q.agent == p.agent && q.home == p.home && q.ready == p.ready
            && q.pc == Forward && q.todo == [] && q.next == 2
  {
    acts, s := Then(batch, before, r, Step(l, Send));
    assert s.coals == if r.coals[r.loops[l].home].receivers then WithFirst(r, l, m) else r.coals;
  }

  // It sends it, moves its cursor and saves it.
  lemma SendsAndSaves(batch: nat, before: seq<Action>, r: State, l: nat, m: Message)
    returns (acts: seq<Action>, s: State)
    requires Reaches(batch, before, r) && LastMessage(r, l, m)
    ensures Reaches(batch, acts, s) && Formed(s)
    ensures s == r.(loops := s.loops, coals := s.coals, disk := r.disk[r.loops[l].agent := 2])
    ensures s.coals == if r.coals[r.loops[l].home].receivers then WithFirst(r, l, m) else r.coals
    ensures |s.loops| == |r.loops| && !Ended(s.loops[l])
    ensures forall k | 0 <= k < |r.loops| && k != l :: s.loops[k] == r.loops[k]
  {
    acts, s := SendsLast(batch, before, r, l, m);
    hide Reaches, Next, WithFirst;
    acts, s := ThenStep(batch, acts, s, l, Advance);
    acts, s := ThenStep(batch, acts, s, l, Saved);
  }

  // The second agent cannot be created and `new` returns early, without cancelling the first one's loop:
  // that goes on, its sends are dropped, and its cursor passes a change that is still retained but that no
  // bus ever accepted.
  lemma DroppedUnseen(batch: nat, agent: AgentId, cs: Changeset, m: Message) returns (acts: seq<Action>, s: State)
    requires 1 <= batch && cs.vs == 1 && Owned(agent, cs) == [m]
    ensures Reaches(batch, acts, s) && s.log == [cs] && s.trunc == 0
    ensures s.floor == map[agent := 1] && s.disk == map[agent := 2]
    ensures |s.coals| == 1 && s.coals[0].history == []
  {
    acts, s := BeginAlone(batch, agent, cs);
    acts, s := ThenAbandon(batch, acts, s, 0);
    hide Reaches, Next, Owned;
    acts, s := ReadsIt(batch, acts, s, 0, cs);
    acts, s := SendsAndSaves(batch, acts, s, 0, m);
  }

  lemma ThenAbandon(batch: nat, acts: seq<Action>, s: State, c: nat) returns (more: seq<Action>, t: State)
    requires Reaches(batch, acts, s) && Formed(s) && Enabled(s, Abandon(c))
    ensures Reaches(batch, more, t) && Formed(t) && t == s.(coals := t.coals) && |t.coals| == |s.coals|
    ensures !t.coals[c].receivers && t.coals[c].history == s.coals[c].history
    ensures t.coals[c].queue == s.coals[c].queue && t.coals[c].received == s.coals[c].received
  {
    more, t := Then(batch, acts, s, Abandon(c));
  }

  // The process dies after the cursor was saved but before anybody received the message: it was accepted,
  // the agent resumes above it, and it stays in a queue that nobody can read any more.
  lemma QueuedAndLost(batch: nat, agent: AgentId, cs: Changeset, m: Message) returns (acts: seq<Action>, s: State)
    requires 1 <= batch && cs.vs == 1 && Owned(agent, cs) == [m]
    ensures Reaches(batch, acts, s) && |s.loops| == |s.coals| == 2 && s.loops[0].pc == Dead
    ensures s.coals[0].queue == s.coals[0].history == [Item(0, Delivery(agent, m))]
    ensures !s.coals[0].receivers && s.coals[0].received == []
    ensures s.loops[1].agent == agent && s.loops[1].start == 2
  {
    acts, s := BeginAlone(batch, agent, cs);
    hide Reaches, Next, Owned;
    acts, s := ReadsIt(batch, acts, s, 0, cs);
    acts, s := SendsAndSaves(batch, acts, s, 0, m);
    Single(Item(0, Delivery(agent, m)), Item(0, Delivery(agent, m)));
    assert s.coals[0].queue == s.coals[0].history == [Item(0, Delivery(agent, m))];
    acts, s := Crashes(batch, acts, s);
    acts, s := Restarts(batch, acts, s, agent);
  }

  // The whole process goes: the only loop, and its creator with the receiver.
  lemma Crashes(batch: nat, before: seq<Action>, r: State) returns (acts: seq<Action>, s: State)
    requires Reaches(batch, before, r) && Formed(r) && |r.loops| == |r.coals| == 1 && !Ended(r.loops[0])
    requires r.coals[0].phase == Creating
    ensures Reaches(batch, acts, s) && Formed(s) && |s.loops| == |s.coals| == 1
    ensures s == r.(loops := s.loops, coals := s.coals) && s.loops[0] == r.loops[0].(pc := Dead)
    ensures !s.coals[0].receivers && s.coals[0].queue == r.coals[0].queue
    ensures s.coals[0].history == r.coals[0].history && s.coals[0].received == r.coals[0].received
  {
    acts, s := Then(batch, before, r, Step(0, Crash));
    hide Reaches, LoopAfter;
    acts, s := ThenAbandon(batch, acts, s, 0);
  }

  // ---------------------------------------------------------------- a failed save delivers again

  lemma SavesNothing(batch: nat, before: seq<Action>, r: State, l: nat) returns (acts: seq<Action>, s: State)
    requires Reaches(batch, before, r) && Formed(r) && l < |r.loops|
    requires r.loops[l].pc == Forward && r.loops[l].todo == [] && !r.loops[l].ready
    ensures Reaches(batch, acts, s) && Formed(s) && s == r.(loops := s.loops) && |s.loops| == |r.loops|
    ensures s.loops[l].pc == Failed && !s.loops[l].ready
  {
    hide Reaches, Next;
    acts, s := ThenStep(batch, before, r, l, Advance);
    acts, s := ThenStep(batch, acts, s, l, Persist(false, false));
  }

  lemma FirstHistory(r: State, m: Message)
    requires Formed(r) && |r.loops| == |r.coals| == 1 && r.coals[0].history == []
    ensures r.loops[0].home == 0 && |WithFirst(r, 0, m)| == 1
    ensures WithFirst(r, 0, m)[0].history == [Item(0, Delivery(r.loops[0].agent, m))]
  {
    Single(Item(0, Delivery(r.loops[0].agent, m)), Item(0, Delivery(r.loops[0].agent, m)));
  }

  // The save fails after the page was forwarded, and the loop returns the error.
  lemma SendsUnsaved(batch: nat, before: seq<Action>, r: State, m: Message) returns (acts: seq<Action>, s: State)
    requires Reaches(batch, before, r) && LastMessage(r, 0, m) && |r.loops| == |r.coals| == 1
    requires !r.loops[0].ready && r.coals[0].receivers && r.coals[0].history == []
    ensures Reaches(batch, acts, s) && Formed(s) && s == r.(loops := s.loops, coals := s.coals)
    ensures |s.loops| == |s.coals| == 1 && s.loops[0].pc == Done(false)
    ensures s.coals[0].history == [Item(0, Delivery(r.loops[0].agent, m))]
  {
    FirstHistory(r, m);
    hide Reaches, Next, WithFirst;
    acts, s := SendsLast(batch, before, r, 0, m);
    acts, s := SavesNothing(batch, acts, s, 0);
    acts, s := GivesUp(batch, acts, s, 0);
  }

  lemma GivesUp(batch: nat, before: seq<Action>, r: State, l: nat) returns (acts: seq<Action>, s: State)
    requires Reaches(batch, before, r) && Formed(r) && l < |r.loops| && r.loops[l].pc == Failed && !r.loops[l].ready
    ensures Reaches(batch, acts, s) && Formed(s)
    ensures s == r.(loops := r.loops[l := r.loops[l].(pc := Done(false))], coals := s.coals) && |s.coals| == |r.coals|
    ensures forall c | 0 <= c < |r.coals| :: s.coals[c].history == r.coals[c].history
  {
    acts, s := Then(batch, before, r, Step(l, GiveUp));
  }

  // Nobody crashed: a failed save alone makes two buses accept the same message.
  lemma DeliveredTwiceUnsaved(batch: nat, agent: AgentId, cs: Changeset, m: Message)
    returns (acts: seq<Action>, s: State)
    requires 1 <= batch && cs.vs == 1 && Owned(agent, cs) == [m]
    ensures Reaches(batch, acts, s) && |s.loops| == |s.coals| == 2 && s.loops[0].pc == Done(false)
    ensures forall l | 0 <= l < 2 :: s.coals[l].history == [Item(l, Delivery(agent, m))]
  {
    acts, s := BeginAlone(batch, agent, cs);
    hide Reaches, Next, Owned;
    acts, s := ReadsIt(batch, acts, s, 0, cs);
    acts, s := SendsUnsaved(batch, acts, s, m);
    acts, s := Restarts(batch, acts, s, agent);
    acts, s := ForwardsFirst(batch, acts, s, 1, cs);
    Single(Item(1, Delivery(agent, m)), Item(1, Delivery(agent, m)));
  }
}
