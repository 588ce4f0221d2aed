// The delivery path: catch-up drains the feed page by page from a cursor and forwards what is owned.

module CatchUp {
  import opened Wire
  import opened Feed
  import opened Protocol
  import opened LoopInvariant
  import opened Guarantees
  import opened Shutdown
  import opened Environment

  /** The `&mut i64` of the listen loop. */
  class Cursor {
    var value: int

    constructor (value: int)
      ensures this.value == value
    {
      this.value := value;
    }
  }

  /** How an operation ends: with a result, with an error, or still suspended when the script ends. */
  datatype Verdict = Finished | Erred | Suspended

  /** What a loop keeps throughout catch-up. */
  predicate Kept(p: Loop, q: Loop) {
    && q.agent == p.agent && q.home == p.home && q.ready == p.ready && q.begun == p.begun
    && q.start == p.start && q.born == p.born && q.backoff == p.backoff && q.sleeps == p.sleeps
    && q.stream.Live? == p.stream.Live? && p.next <= q.next && LostAbove(p, q)
  }

  /** From one point of a run to a later one, for loop `l`, with `n` and `k` moves of the script left. */
  predicate Onward(s: State, n: nat, t: State, k: nat, l: nat) {
    && l < |s.loops| && l < |t.loops| && t.batch == s.batch && s.log <= t.log && Kept(s.loops[l], t.loops[l])
    && k <= n && Pending(t.loops[l]) + k <= Pending(s.loops[l]) + n
    && s.trunc <= t.trunc
  }

  /** The loop is blocked sending to a full bus. */
  predicate Blocked(s: State, l: nat) {
    && l < |s.loops| && s.loops[l].home < |s.coals| && s.loops[l].pc == Forward && s.loops[l].todo != []
    && s.coals[s.loops[l].home].receivers && INBOX_CAPACITY <= |s.coals[s.loops[l].home].queue|
  }

  /** Loop `p` after forwarding what `q` lacks. */
  predicate Forwards(p: Loop, q: Loop) {
    && q.pc == p.pc == Forward && q.forwarded + q.todo == p.forwarded + p.todo
    && q.cursor == p.cursor && q.next == p.next && q.short == p.short
    && q.pagesRead == p.pagesRead && q.cursorSaves == p.cursorSaves
  }

  /** Loop `p` with the page read and nothing of it forwarded yet. */
  predicate PageTaken(p: Loop, q: Loop, page: seq<Changeset>, limit: nat) {
    && q.forwarded == p.forwarded && q.cursor == p.cursor
    && q.pagesRead == p.pagesRead + 1 && q.cursorSaves == p.cursorSaves
    && if page == [] then q.pc == Drained && q.next == p.next
       else q.pc == Forward && q.todo == OwnedAll(p.agent, page) && q.next == page[|page| - 1].vs + 1
            && q.short == (|page| < limit)
  }

  lemma LostAboveTransitive(p: Loop, q: Loop, r: Loop)
    requires LostAbove(p, q) && LostAbove(q, r) && p.next <= q.next
    ensures LostAbove(p, r)
  {
  }

  // ---------------------------------------------------------------- the awaits of catch-up

  /** SHOW CHANGES FOR TABLE message SINCE since LIMIT limit. */
  method ShowChanges(w: Machine, l: nat, since: int, limit: nat) returns (r: Option<Value>)
    requires w.Valid() && l < |w.s.loops| && w.s.loops[l].pc == Read
    requires since == w.s.loops[l].cursor && limit == w.s.batch
    modifies w
    ensures w.Valid() && old(w.trace) <= w.trace && Onward(old(w.s), |old(w.script)|, w.s, |w.script|, l)
    ensures r.Some? == Reply(old(w.script)).ok && w.Faults() == old(w.Faults()) + if r.Some? then 0 else 1
    ensures Awaits(old(w.s), old(w.script), l, if r.Some? then ReadOk else QueryFails, w.s)
    ensures r.None? ==> w.s.loops[l].pc == Failed && w.s.loops[l].cursor == since
    ensures r.None? ==> Pending(w.s.loops[l]) + |w.script| < Pending(old(w.s).loops[l]) + |old(w.script)|
    ensures r.None? ==> w.s.loops[l].forwarded == old(w.s).loops[l].forwarded
    ensures r.Some? ==>
      var page := Show(w.s.log, w.s.trunc, since, limit);
      var p, q := old(w.s).loops[l], w.s.loops[l];
      && r.value == Arr(EncodeAll(page)) && PageTaken(p, q, page, limit)
      && UnreadCount(w.s, l) + |page| + |w.script| <= UnreadCount(old(w.s), l) + |old(w.script)|
  {
    hide Machine.Valid, Extends, PageTaken, Show, OwnedAll, FirstAt, Onward, Undisturbed, SameTask, Stage,
        Remaining, Pending, Sorted, Played, Rest, Reply;
    ghost var s, n := w.s, |w.script|;
    var ok, _ := w.Pause(Task(l));
    Paused(s, w.s, l);
    ghost var m, k := w.s, |w.script|;
    if !ok {
      w.Take(l, QueryFails);
      OnwardStep(s, n, m, k, w.s, l);
      return None;
    }
    w.InStage(l);
    ReadTakes(w.s, l);
    var page := Show(w.s.log, w.s.trunc, since, limit);
    w.Take(l, ReadOk);
    OnwardStep(s, n, m, k, w.s, l);
    TakenSame(s.loops[l], m.loops[l], w.s.loops[l], page, limit);
    r := Some(Arr(EncodeAll(page)));
  }

  // What the loop still knows after an await.
  lemma Paused(s: State, t: State, l: nat)
    requires Undisturbed(s, t, Task(l)) && l < |s.loops|
    ensures l < |t.loops| && SameTask(s.loops[l], t.loops[l]) && t.batch == s.batch
    ensures t.loops[l] == s.loops[l].(stream := t.loops[l].stream, lost := t.loops[l].lost)
    ensures t.loops[l].stream.Live? == s.loops[l].stream.Live?
  {
  }

  // An await and then a step of the loop that keeps what catch-up keeps.
  lemma OnwardStep(s: State, n: nat, m: State, k: nat, t: State, l: nat)
    requires Undisturbed(s, m, Task(l)) && l < |s.loops| && l < |m.loops| && l < |t.loops|
    requires t.log == m.log && t.trunc == m.trunc && t.batch == m.batch
    requires Kept(m.loops[l], t.loops[l]) && t.loops[l].stream == m.loops[l].stream
    requires k <= n && Pending(m.loops[l]) + k <= Pending(s.loops[l]) + n
    ensures Onward(s, n, t, k, l)
    ensures Pending(t.loops[l]) == Pending(m.loops[l])
  {
    hide Extends;
  }

  lemma TakenSame(p: Loop, m: Loop, q: Loop, page: seq<Changeset>, limit: nat)
    requires SameTask(p, m) && PageTaken(m, q, page, limit)
    ensures PageTaken(p, q, page, limit)
  {
  }

  lemma ReadTakes(s: State, l: nat)
    requires Formed(s) && Sorted(s.log) && l < |s.loops| && Can(s, l, ReadOk) && Stage(s.loops[l])
    ensures var p, q := s.loops[l], LoopAfter(s, l, ReadOk);
            var page := Show(s.log, s.trunc, p.cursor, s.batch);
            && PageTaken(p, q, page, s.batch) && Kept(p, q) && q.stream == p.stream
            && Remaining(s.log, s.trunc, q.next) + |page| <= Remaining(s.log, s.trunc, p.next)
  {
    PageEnd(s.log, s.trunc, s.loops[l].cursor, s.batch);
  }

  /** Upsert of the agent's cursor row. */
  method SaveCursor(w: Machine, l: nat, versionstamp: int) returns (ok: bool)
    requires w.Valid() && l < |w.s.loops| && (w.s.loops[l].pc == Save || w.s.loops[l].pc == SaveStart)
    requires versionstamp == w.s.loops[l].cursor
    modifies w
    ensures w.Valid() && old(w.trace) <= w.trace && Onward(old(w.s), |old(w.script)|, w.s, |w.script|, l)
    ensures UnreadCount(w.s, l) + |w.script| <= UnreadCount(old(w.s), l) + |old(w.script)|
    ensures !ok ==> Pending(w.s.loops[l]) + |w.script| < Pending(old(w.s).loops[l]) + |old(w.script)|
    ensures ok == Reply(old(w.script)).ok && w.Faults() == old(w.Faults()) + if ok then 0 else 1
    ensures Awaits(old(w.s), old(w.script), l, Persist(ok || Reply(old(w.script)).applied, ok), w.s)
    ensures ok ==>
      && w.s.loops[l].saved == Some(versionstamp)
      && w.s.loops[l].agent in w.s.disk && w.s.disk[w.s.loops[l].agent] == versionstamp
    ensures w.s.loops[l].saved == old(w.s).loops[l].saved ||
              (w.s.loops[l].saved == Some(versionstamp)
               && w.s.loops[l].agent in w.s.disk && w.s.disk[w.s.loops[l].agent] == versionstamp)
    ensures var p, q := old(w.s).loops[l], w.s.loops[l];
            && q.pc == (if !ok then Failed
                        else if p.pc == SaveStart then Subscribe
                        else if p.short then Drained
                        else Read)
            && q.cursor == p.cursor && q.next == p.next && q.forwarded == p.forwarded && q.todo == p.todo
            && q.pagesRead == p.pagesRead && q.cursorSaves == p.cursorSaves + 1
  {
    hide Machine.Valid, Extends, Remaining, Onward, Undisturbed, SameTask, Pending, Played, Rest, Reply;
    ghost var s, n := w.s, |w.script|;
    var applied;
    ok, applied := w.Pause(Task(l));
    Paused(s, w.s, l);
    ghost var m := w.s;
    w.Take(l, Persist(applied, ok));
    OnwardStep(s, n, m, |w.script|, w.s, l);
  }

  /** Such a stretch in which the loop only sends. */
  predicate Sending(s: State, n: nat, t: State, k: nat, l: nat)
    requires Formed(s) && Formed(t)
  {
    && Onward(s, n, t, k, l) && Forwards(s.loops[l], t.loops[l])
    && UnreadCount(t, l) + k <= UnreadCount(s, l) + n
  }

  lemma SendingFacts(s: State, n: nat, t: State, k: nat, l: nat)
    requires Formed(s) && Formed(t) && Sending(s, n, t, k, l)
    ensures l < |s.loops| && l < |t.loops| && k <= n && t.loops[l].pc == Forward && t.loops[l].agent == s.loops[l].agent
  {
  }

  lemma SendingTransitive(s: State, n: nat, m: State, j: nat, t: State, k: nat, l: nat)
    requires Formed(s) && Formed(m) && Formed(t) && Sending(s, n, m, j, l) && Sending(m, j, t, k, l)
    ensures Sending(s, n, t, k, l)
  {
    hide UnreadCount, Pending, LostAbove;
    LostAboveTransitive(s.loops[l], m.loops[l], t.loops[l]);
  }

  lemma SendingReflexive(s: State, n: nat, l: nat)
    requires Formed(s) && l < |s.loops| && s.loops[l].pc == Forward
    ensures Sending(s, n, s, n, l)
  {
  }

  lemma SendingTake(s: State, n: nat, l: nat)
    requires Formed(s) && l < |s.loops| && Can(s, l, Event.Send)
    ensures var t := Next(s, Step(l, Event.Send));
            && Formed(t) && Sending(s, n, t, n, l) && l < |t.loops| && t.loops[l].todo == s.loops[l].todo[1..]
  {
    NextFormed(s, Step(l, Event.Send));
  }

  // While the loop waits for room, the others leave it as it is.
  lemma SendingPause(s: State, n: nat, t: State, k: nat, l: nat)
    requires Formed(s) && Formed(t) && l < |s.loops| && s.loops[l].pc == Forward && Undisturbed(s, t, Task(l))
    requires k <= n && Pending(t.loops[l]) + k <= Pending(s.loops[l]) + n
    requires UnreadCount(t, l) + k <= UnreadCount(s, l) + n
    ensures Sending(s, n, t, k, l) && t.loops[l].todo == s.loops[l].todo
  {
    hide UnreadCount, Pending;
  }

  /** The bus can take a message of the loop, or drops it. */
  predicate Room(s: State, l: nat) {
    Formed(s) && l < |s.loops| && Can(s, l, Event.Send)
  }

  /** Wait while the bus is full and somebody could still read it, and no longer. */
  method AwaitRoom(w: Machine, l: nat) returns (room: bool, ghost n: nat)
    requires w.Valid() && l < |w.s.loops| && w.s.loops[l].pc == Forward && w.s.loops[l].todo != []
    modifies w
    ensures w.Valid() && old(w.trace) <= w.trace && Sending(old(w.s), |old(w.script)|, w.s, |w.script|, l)
    ensures l < |w.s.loops| && old(w.Faults()) <= w.Faults() && w.s.loops[l].todo == old(w.s).loops[l].todo
    ensures room <==> Can(w.s, l, Event.Send)
    ensures !room ==> w.script == [] && Blocked(w.s, l)
    ensures n > 0 && w.s == Waited(old(w.s), old(w.script), Task(l), n)
    ensures forall j | 0 < j < n :: !Room(Waited(old(w.s), old(w.script), Task(l), j), l)
  {
    hide Machine.Valid, Played, Rest, Reply, Waited, WaitedRest, Extends, Sending, UnreadCount, Pending, LostAbove;
    ghost var s, script, len := w.s, w.script, |w.script|;
    WaitedNone(s, script, Task(l));
    WaitedMore(s, script, Task(l), 0);
    var _, _ := w.Pause(Task(l));
    n := 1;
    SendingPause(s, len, w.s, |w.script|, l);
    SendingFacts(s, len, w.s, |w.script|, l);
    while !Can(w.s, l, Event.Send)
      invariant w.Valid() && old(w.trace) <= w.trace && Sending(old(w.s), |old(w.script)|, w.s, |w.script|, l)
      invariant old(w.Faults()) <= w.Faults()
      invariant l < |w.s.loops| && w.s.loops[l].pc == Forward && w.s.loops[l].agent == old(w.s).loops[l].agent
      invariant w.s.loops[l].todo == old(w.s).loops[l].todo
      invariant n > 0 && w.s == Waited(old(w.s), old(w.script), Task(l), n) && w.script == WaitedRest(old(w.script), n)
      invariant forall j | 0 < j < n :: !Room(Waited(old(w.s), old(w.script), Task(l), j), l)
      decreases |w.script|
    {
      if w.script == [] {
        return false, n;
      }
      ghost var m, k := w.s, |w.script|;
      WaitedMore(s, script, Task(l), n);
      var _, _ := w.Pause(Task(l));
      SendingPause(m, k, w.s, |w.script|, l);
      n := n + 1;
      SendingTransitive(s, len, m, k, w.s, |w.script|, l);
      SendingFacts(s, len, w.s, |w.script|, l);
    }
    room := true;
  }

  /** `inbox_tx.send(..).await`. */
  method Send(w: Machine, l: nat, m: Message) returns (sent: bool)
    requires w.Valid() && l < |w.s.loops| && w.s.loops[l].pc == Forward
    requires w.s.loops[l].todo != [] && w.s.loops[l].todo[0] == m
    modifies w
    ensures w.Valid() && old(w.trace) <= w.trace && Sending(old(w.s), |old(w.script)|, w.s, |w.script|, l)
    ensures l < |w.s.loops| && old(w.Faults()) <= w.Faults()
    ensures sent ==> w.s.loops[l].todo == old(w.s).loops[l].todo[1..]
    ensures !sent ==> w.script == [] && Blocked(w.s, l)
  {
    hide Machine.Valid, Extends, Sending, Blocked, Next;
    ghost var s, n := w.s, |w.script|;
    var room, _ := AwaitRoom(w, l);
    sent := room;
    if sent {
      ghost var m := w.s;
      SendingTake(m, |w.script|, l);
      w.Do(Step(l, Event.Send));
      SendingTransitive(s, n, m, |w.script|, w.s, |w.script|, l);
    }
  }

  // ---------------------------------------------------------------- one page

  /** The inner loop over the changes of one changeset. */
  method ForwardChanges(w: Machine, l: nat, owner: AgentId, changes: seq<Value>, ghost rest: seq<Message>)
    returns (sent: bool)
    requires w.Valid() && l < |w.s.loops| && w.s.loops[l].pc == Forward && w.s.loops[l].agent == owner
    requires w.s.loops[l].todo == OwnedChanges(owner, changes) + rest
    modifies w
    ensures w.Valid() && old(w.trace) <= w.trace && Sending(old(w.s), |old(w.script)|, w.s, |w.script|, l)
    ensures l < |w.s.loops| && old(w.Faults()) <= w.Faults()
    ensures sent ==> w.s.loops[l].todo == rest
    ensures !sent ==> w.script == [] && Blocked(w.s, l)
  {
    hide Machine.Valid, Extends, Sending, Blocked;
    ghost var s, n := w.s, |w.script|;
    SendingReflexive(s, n, l);
    for i := 0 to |changes|
      invariant w.Valid() && old(w.trace) <= w.trace && Sending(old(w.s), |old(w.script)|, w.s, |w.script|, l)
      invariant old(w.Faults()) <= w.Faults()
      invariant l < |w.s.loops| && w.s.loops[l].pc == Forward && w.s.loops[l].agent == old(w.s).loops[l].agent
      invariant w.s.loops[l].todo == OwnedChanges(owner, changes[i..]) + rest
    {
      assert changes[i..][0] == changes[i] && changes[i..][1..] == changes[i + 1..];
      var record := RecordOf(changes[i]);
      if record.None? {
        continue;
      }
      match record.value {
        case Record(Some(message)) =>
          if message.out != Some(owner) {
            continue;
          }
          assert (OwnedChanges(owner, changes[i..]) + rest)[1..] == OwnedChanges(owner, changes[i + 1..]) + rest;
          ghost var m, k := w.s, |w.script|;
          sent := Send(w, l, message);
          SendingTransitive(s, n, m, k, w.s, |w.script|, l);
          SendingFacts(s, n, w.s, |w.script|, l);
          if !sent {
            return;
          }
        case _ =>
          continue;
      }
    }
    sent := true;
  }

  /** The loop over a page: forward what is owned, track the highest versionstamp seen. */
  method ForwardPage(w: Machine, l: nat, owner: AgentId, since: int, changesets: seq<Value>)
    returns (sent: bool, maxVs: int)
    requires w.Valid() && l < |w.s.loops| && w.s.loops[l].pc == Forward && w.s.loops[l].agent == owner
    requires w.s.loops[l].todo == OwnedValues(owner, changesets)
    modifies w
    ensures w.Valid() && old(w.trace) <= w.trace && Sending(old(w.s), |old(w.script)|, w.s, |w.script|, l)
    ensures l < |w.s.loops| && old(w.Faults()) <= w.Faults()
    ensures sent ==> w.s.loops[l].todo == [] && maxVs == Highest(since - 1, changesets)
    ensures !sent ==> w.script == [] && Blocked(w.s, l)
  {
    hide Machine.Valid, Extends, Sending, Blocked;
    ghost var s, n := w.s, |w.script|;
    SendingReflexive(s, n, l);
    maxVs := since - 1;
    for i := 0 to |changesets|
      invariant w.Valid() && old(w.trace) <= w.trace && Sending(old(w.s), |old(w.script)|, w.s, |w.script|, l)
      invariant old(w.Faults()) <= w.Faults()
      invariant l < |w.s.loops| && w.s.loops[l].pc == Forward && w.s.loops[l].agent == old(w.s).loops[l].agent
      invariant w.s.loops[l].todo == OwnedValues(owner, changesets[i..])
      invariant maxVs == Highest(since - 1, changesets[..i])
    {
      assert changesets[i..][0] == changesets[i] && changesets[i..][1..] == changesets[i + 1..];
      assert changesets[..i + 1][..i] == changesets[..i];
      if !changesets[i].Obj? {
        continue;
      }
      match VersionstampOf(changesets[i]) {
        case Some(vs) => maxVs := if maxVs < vs then vs else maxVs;
        case None =>
      }
      match Get(changesets[i], "changes") {
        case Some(Arr(changes)) =>
          ghost var m, k := w.s, |w.script|;
          sent := ForwardChanges(w, l, owner, changes, OwnedValues(owner, changesets[i + 1..]));
          SendingTransitive(s, n, m, k, w.s, |w.script|, l);
          SendingFacts(s, n, w.s, |w.script|, l);
          if !sent {
            return;
          }
        case _ =>
          continue;
      }
    }
    assert changesets[..|changesets|] == changesets;
    sent := true;
  }

  // ---------------------------------------------------------------- the whole drain

  function CeilDiv(n: nat, d: nat): nat
    requires d > 0
  {
    if n % d == 0 then n / d else n / d + 1
  }

  lemma Multiples(k: int, d: nat)
    ensures k >= 1 ==> k * d >= d
    ensures k <= -1 ==> k * d + d <= 0
  {
    if k >= 1 {
      assert k * d == (k - 1) * d + d;
    } else if k <= -1 {
      assert k * d == (k + 1) * d - d;
    }
  }

  lemma DivMod(n: nat, d: nat, q: nat, r: nat)
    requires r < d && n == q * d + r
    ensures n / d == q && n % d == r
  {
    var k := n / d - q;
    assert n == d * (n / d) + n % d;
    assert k * d == r - n % d by {
      assert k * d == (n / d) * d - q * d;
    }
    Multiples(k, d);
  }

  /** Nothing was committed or truncated in between; whatever else happened, sends may have waited for
      consumers and the other loops and agents may have done anything. */
  predicate SameFeed(s: State, t: State) {
    t.log == s.log && t.trunc == s.trunc
  }

  /** Where a drain of a log that nobody appends to stands after `pages` full pages. */
  predicate Quiet(s: State, t: State, l: nat, pages: nat)
    requires Formed(s) && Formed(t) && l < |s.loops| && l < |t.loops|
  {
    var p, q := s.loops[l], t.loops[l];
    && t.log == s.log && t.trunc == s.trunc && t.batch == s.batch
    && UnreadCount(s, l) == pages * s.batch + UnreadCount(t, l)
    && q.pagesRead == p.pagesRead + pages && q.cursorSaves == p.cursorSaves + pages
    && q.forwarded + OwnedAll(p.agent, Unread(s.log, s.trunc, q.next))
       == p.forwarded + OwnedAll(p.agent, Unread(s.log, s.trunc, p.next))
    && (pages == 0 ==> q.next == p.next)
    && (pages > 0 && UnreadCount(t, l) == 0 ==> q.next == NextVs(s.log))
  }

  /** What a drain of such a log has done: the outcome of one unbounded read, whatever the page size. */
  predicate DrainedAll(s: State, t: State, l: nat)
    requires Formed(s) && l < |s.loops| && l < |t.loops| && 1 <= s.batch
  {
    var p, q, n := s.loops[l], t.loops[l], UnreadCount(s, l);
    && q.forwarded == p.forwarded + OwnedAll(p.agent, Unread(s.log, s.trunc, p.next))
    && q.cursor == (if n == 0 then p.cursor else NextVs(s.log))
    && q.pagesRead == p.pagesRead + n / s.batch + 1
    && q.cursorSaves == p.cursorSaves + CeilDiv(n, s.batch)
  }

  lemma UnreadAfterPage(log: Log, trunc: nat, c: int, n: nat)
    requires 1 <= n && trunc <= |log| && Sorted(log)
    ensures var page := Show(log, trunc, c, n);
            && (|page| < n ==> |page| == Remaining(log, trunc, c))
            && (page != [] ==>
                  var d := page[|page| - 1].vs + 1;
                  && Unread(log, trunc, c) == page + Unread(log, trunc, d)
                  && Remaining(log, trunc, c) == |page| + Remaining(log, trunc, d)
                  && (Remaining(log, trunc, d) == 0 ==> d == NextVs(log)))
  {
    PageEnd(log, trunc, c, n);
  }

  /** What one page does to a loop. */
  predicate OnePage(p: Loop, q: Loop, page: seq<Changeset>) {
    && page != [] && q.agent == p.agent
    && q.forwarded == p.forwarded + OwnedAll(p.agent, page) && q.next == q.cursor == page[|page| - 1].vs + 1
    && q.pagesRead == p.pagesRead + 1 && q.cursorSaves == p.cursorSaves + 1
  }

  lemma QuietFullPage(s: State, m: State, t: State, l: nat, pages: nat, page: seq<Changeset>)
    requires Formed(s) && Formed(m) && Formed(t) && l < |s.loops| && l < |m.loops| && l < |t.loops|
    requires 1 <= s.batch && Sorted(s.log) && Quiet(s, m, l, pages)
    requires t.log == s.log && t.trunc == s.trunc && t.batch == s.batch && m.loops[l].agent == s.loops[l].agent
    requires page == Show(s.log, s.trunc, m.loops[l].next, s.batch) && |page| == s.batch
    requires OnePage(m.loops[l], t.loops[l], page)
    ensures Quiet(s, t, l, pages + 1)
  {
    hide OwnedAll, FirstAt;
    var p, q := m.loops[l], t.loops[l];
    UnreadAfterPage(s.log, s.trunc, p.next, s.batch);
    OwnedAllConcat(p.agent, page, Unread(s.log, s.trunc, q.next));
    assert (pages + 1) * s.batch == pages * s.batch + s.batch;
  }

  lemma QuietShortPage(s: State, m: State, t: State, l: nat, pages: nat, page: seq<Changeset>)
    requires Formed(s) && Formed(m) && l < |s.loops| && l < |m.loops| && l < |t.loops|
    requires 1 <= s.batch && Sorted(s.log) && Quiet(s, m, l, pages) && m.loops[l].agent == s.loops[l].agent
    requires page == Show(s.log, s.trunc, m.loops[l].next, s.batch) && |page| < s.batch
    requires OnePage(m.loops[l], t.loops[l], page)
    ensures DrainedAll(s, t, l)
  {
    var p, q := m.loops[l], t.loops[l];
    UnreadAfterPage(s.log, s.trunc, p.next, s.batch);
    hide OwnedAll, FirstAt, Show, Sorted;
    DivMod(UnreadCount(s, l), s.batch, pages, |page|);
    assert Unread(s.log, s.trunc, q.next) == [];
    assert Unread(s.log, s.trunc, p.next) == page;
  }

  /** What an empty page does to a loop. */
  predicate NoPage(p: Loop, q: Loop) {
    && q.forwarded == p.forwarded && q.cursor == p.cursor && q.next == p.next
    && q.pagesRead == p.pagesRead + 1 && q.cursorSaves == p.cursorSaves
  }

  lemma QuietStart(s: State, l: nat)
    requires Formed(s) && l < |s.loops|
    ensures Quiet(s, s, l, 0)
  {
  }

  lemma QuietEnd(s: State, m: State, t: State, l: nat, pages: nat)
    requires Formed(s) && Formed(m) && l < |s.loops| && l < |m.loops| && l < |t.loops|
    requires 1 <= s.batch && Sorted(s.log) && Quiet(s, m, l, pages)
    requires s.loops[l].next == s.loops[l].cursor && m.loops[l].next == m.loops[l].cursor
    requires Show(s.log, s.trunc, m.loops[l].next, s.batch) == [] && NoPage(m.loops[l], t.loops[l])
    ensures DrainedAll(s, t, l)
  {
    UnreadAfterPage(s.log, s.trunc, m.loops[l].next, s.batch);
    DivMod(UnreadCount(s, l), s.batch, pages, 0);
    assert Unread(s.log, s.trunc, m.loops[l].next) == [];
    assert m.loops[l].forwarded + [] == m.loops[l].forwarded;
  }

  lemma QuietTurn(s: State, m: State, t: State, l: nat, pages: nat, page: seq<Changeset>)
    requires Formed(s) && Formed(m) && Formed(t) && l < |s.loops| && l < |m.loops| && l < |t.loops|
    requires 1 <= s.batch && Sorted(s.log) && Quiet(s, m, l, pages) && m.loops[l].agent == s.loops[l].agent
    requires s.loops[l].next == s.loops[l].cursor && m.loops[l].next == m.loops[l].cursor
    requires t.log == s.log && t.trunc == s.trunc && t.batch == s.batch
    requires page == Show(s.log, s.trunc, m.loops[l].next, s.batch)
    requires if page == [] then NoPage(m.loops[l], t.loops[l]) else OnePage(m.loops[l], t.loops[l], page)
    ensures if |page| < s.batch then DrainedAll(s, t, l) else Quiet(s, t, l, pages + 1)
  {
    hide Quiet, DrainedAll, OwnedAll, FirstAt, OnePage, NoPage;
    UnreadAfterPage(s.log, s.trunc, m.loops[l].next, s.batch);
    PageEnd(s.log, s.trunc, m.loops[l].next, s.batch);
    if page == [] {
      QuietEnd(s, m, t, l, pages);
    } else if |page| < s.batch {
      QuietShortPage(s, m, t, l, pages, page);
    } else {
      QuietFullPage(s, m, t, l, pages, page);
    }
  }

  /** The in-memory cursor moves first; only then is it persisted. */
  method MoveCursor(w: Machine, l: nat, cursor: Cursor, maxVs: int) returns (saved: bool)
    requires w.Valid() && l < |w.s.loops| && w.s.loops[l].pc == Forward && w.s.loops[l].todo == []
    requires w.s.loops[l].next == maxVs + 1
    modifies w, cursor
    ensures w.Valid() && old(w.trace) <= w.trace && Onward(old(w.s), |old(w.script)|, w.s, |w.script|, l)
    ensures UnreadCount(w.s, l) + |w.script| <= UnreadCount(old(w.s), l) + |old(w.script)|
    ensures w.Faults() == old(w.Faults()) + if saved then 0 else 1
    ensures !saved ==> Pending(w.s.loops[l]) + |w.script| < Pending(old(w.s).loops[l]) + |old(w.script)|
    ensures var p, q := old(w.s).loops[l], w.s.loops[l];
            && q.pc == (if !saved then Failed else if p.short then Drained else Read)
            && cursor.value == q.cursor == q.next == p.next && q.forwarded == p.forwarded
            && q.pagesRead == p.pagesRead && q.cursorSaves == p.cursorSaves + 1
  {
    hide Machine.Valid, Awaits, Played, Rest, Reply, Extends, Remaining;
    w.Take(l, Advance);
    cursor.value := maxVs + 1;
    saved := SaveCursor(w, l, cursor.value);
  }

  /** One turn of the drain: how it leaves the loop. */
  datatype Turn = Last | More | Stop(verdict: Verdict)

  /** Forward the page in hand, then move the cursor past it and persist it. */
  method FinishPage(w: Machine, l: nat, owner: AgentId, cursor: Cursor, changesets: seq<Value>,
                    ghost page: seq<Changeset>)
    returns (turn: Turn)
    requires w.Valid() && l < |w.s.loops| && w.s.loops[l].pc == Forward && w.s.loops[l].agent == owner
    requires page != [] && changesets == EncodeAll(page) && w.s.loops[l].todo == OwnedAll(owner, page)
    requires w.s.loops[l].cursor == cursor.value && w.s.loops[l].next == page[|page| - 1].vs + 1
    requires w.s.loops[l].short == (|page| < w.s.batch)
    requires Highest(cursor.value - 1, changesets) == page[|page| - 1].vs && cursor.value <= page[|page| - 1].vs
    modifies w, cursor
    ensures w.Valid() && old(w.trace) <= w.trace && Onward(old(w.s), |old(w.script)|, w.s, |w.script|, l)
    ensures UnreadCount(w.s, l) + |w.script| <= UnreadCount(old(w.s), l) + |old(w.script)|
    ensures cursor.value == w.s.loops[l].cursor
    ensures turn.Stop? ==> !turn.verdict.Finished?
    ensures old(w.Faults()) <= w.Faults()
    ensures turn == Stop(Erred) ==> w.s.loops[l].pc == Failed && old(w.Faults()) < w.Faults()
    ensures turn == Stop(Erred) ==> Pending(w.s.loops[l]) + |w.script| < Pending(old(w.s).loops[l]) + |old(w.script)|
    ensures turn == Stop(Suspended) ==> w.script == [] && Blocked(w.s, l)
    ensures !turn.Stop? ==>
      var p, q := old(w.s).loops[l], w.s.loops[l];
      && (turn.Last? <==> |page| < w.s.batch) && q.pc == (if turn.Last? then Drained else Read)
      && q.forwarded == p.forwarded + p.todo && q.next == q.cursor == p.next
      && q.pagesRead == p.pagesRead && q.cursorSaves == p.cursorSaves + 1
  {
    hide Machine.Valid, Extends, OwnedAll, OwnedValues, Highest, UnreadCount, Pending, Blocked, LostAbove;
    ghost var p := w.s.loops[l];
    OwnedRoundTrip(owner, page);
    var sent, maxVs := ForwardPage(w, l, owner, cursor.value, changesets);
    if !sent {
      return Stop(Suspended);
    }
    if maxVs >= cursor.value {
      ghost var q := w.s.loops[l];
      var saved := MoveCursor(w, l, cursor, maxVs);
      LostAboveTransitive(p, q, w.s.loops[l]);
      if !saved {
        return Stop(Erred);
      }
    }
    turn := if |changesets| < w.s.batch then Last else More;
  }

  lemma OnwardFacts(s: State, n: nat, t: State, k: nat, l: nat)
    requires Onward(s, n, t, k, l)
    ensures l < |s.loops| && l < |t.loops| && t.batch == s.batch && k <= n && t.loops[l].agent == s.loops[l].agent
    ensures s.log <= t.log && s.trunc <= t.trunc && Pending(t.loops[l]) + k <= Pending(s.loops[l]) + n
  {
  }

  lemma OnwardTransitive(s: State, n: nat, m: State, j: nat, t: State, k: nat, l: nat)
    requires Onward(s, n, m, j, l) && Onward(m, j, t, k, l)
    ensures Onward(s, n, t, k, l)
  {
    LostAboveTransitive(s.loops[l], m.loops[l], t.loops[l]);
  }

  // A page read from a feed that has stayed the same throughout is still what a query would show.
  lemma PageStays(s: State, m: State, t: State, since: int)
    requires s.log <= m.log <= t.log && s.trunc <= m.trunc <= t.trunc && m.trunc <= |m.log| && t.trunc <= |t.log|
    ensures SameFeed(s, t) ==> Show(t.log, t.trunc, since, m.batch) == Show(m.log, m.trunc, since, m.batch)
  {
    hide Show;
    if SameFeed(s, t) {
      assert m.log == t.log;
    }
  }

  lemma PageDone(p: Loop, q: Loop, r: Loop, page: seq<Changeset>, limit: nat)
    requires page != [] && PageTaken(p, q, page, limit) && r.agent == p.agent
    requires r.forwarded == q.forwarded + q.todo && r.next == r.cursor == q.next
    requires r.pagesRead == q.pagesRead && r.cursorSaves == q.cursorSaves + 1
    ensures OnePage(p, r, page)
  {
  }

  lemma TakenFacts(p: Loop, q: Loop, page: seq<Changeset>, limit: nat)
    requires PageTaken(p, q, page, limit)
    ensures q.cursor == p.cursor
    ensures page == [] ==> q.pc == Drained
    ensures page != [] ==>
      && q.pc == Forward && q.todo == OwnedAll(p.agent, page)
      && q.next == page[|page| - 1].vs + 1 && q.short == (|page| < limit)
  {
  }

  lemma PageEmpty(p: Loop, q: Loop, limit: nat)
    requires PageTaken(p, q, [], limit)
    ensures NoPage(p, q)
  {
  }

  /** Read one page; anything but an array of changesets counts as an empty one. */
  method ReadPage(w: Machine, l: nat, since: int) returns (changesets: Option<seq<Value>>, ghost page: seq<Changeset>)
    requires w.Valid() && l < |w.s.loops| && w.s.loops[l].pc == Read && since == w.s.loops[l].cursor
    modifies w
    ensures w.Valid() && old(w.trace) <= w.trace && Onward(old(w.s), |old(w.script)|, w.s, |w.script|, l)
    ensures l < |w.s.loops| && w.s.batch == old(w.s).batch && w.s.loops[l].agent == old(w.s).loops[l].agent
    ensures old(w.s).log <= w.s.log && old(w.s).trunc <= w.s.trunc <= |w.s.log| && Sorted(w.s.log)
    ensures w.Faults() == old(w.Faults()) + if changesets.Some? then 0 else 1
    ensures w.s.loops[l].cursor == since
    ensures changesets.None? ==> w.s.loops[l].pc == Failed
    ensures changesets.None? ==>
      Pending(w.s.loops[l]) + |w.script| < Pending(old(w.s).loops[l]) + |old(w.script)|
    ensures changesets.Some? ==>
      var q := w.s.loops[l];
      && page == Show(w.s.log, w.s.trunc, since, w.s.batch) && changesets.value == EncodeAll(page)
      && |changesets.value| == |page| && PageTaken(old(w.s).loops[l], q, page, w.s.batch)
      && UnreadCount(w.s, l) + |page| + |w.script| <= UnreadCount(old(w.s), l) + |old(w.script)|
      && (page == [] ==> q.pc == Drained)
      && (page != [] ==> q.pc == Forward && q.todo == OwnedAll(q.agent, page)
                         && q.next == page[|page| - 1].vs + 1 && q.short == (|page| < w.s.batch))
  {
    hide *;
    ghost var s, n := w.s, |w.script|;
    page := [];
    var v := ShowChanges(w, l, since, w.s.batch);
    OnwardFacts(s, n, w.s, |w.script|, l);
    w.InStage(l);
    if v.None? {
      return None, page;
    }
    page := Show(w.s.log, w.s.trunc, since, w.s.batch);
    TakenFacts(s.loops[l], w.s.loops[l], page, w.s.batch);
    changesets := Some(if v.value.Arr? then v.value.items else []);
  }

  /** Read one page, forward what is owned of it, move the cursor past it and persist it. */
  method DrainPage(w: Machine, l: nat, owner: AgentId, cursor: Cursor) returns (turn: Turn, ghost page: seq<Changeset>)
    requires w.Valid() && l < |w.s.loops| && w.s.loops[l].pc == Read && w.s.loops[l].agent == owner
    requires cursor.value == w.s.loops[l].cursor
    modifies w, cursor
    ensures w.Valid() && old(w.trace) <= w.trace && Onward(old(w.s), |old(w.script)|, w.s, |w.script|, l)
    ensures cursor.value == w.s.loops[l].cursor
    ensures turn.Stop? ==> !turn.verdict.Finished?
    ensures old(w.Faults()) <= w.Faults()
    ensures turn == Stop(Erred) ==> w.s.loops[l].pc == Failed && old(w.Faults()) < w.Faults()
    ensures turn == Stop(Erred) ==> Pending(w.s.loops[l]) + |w.script| < Pending(old(w.s).loops[l]) + |old(w.script)|
    ensures turn == Stop(Suspended) ==> w.script == [] && Blocked(w.s, l)
    ensures !turn.Stop? ==>
      && (if page == [] then NoPage(old(w.s).loops[l], w.s.loops[l])
          else OnePage(old(w.s).loops[l], w.s.loops[l], page))
      && (turn.Last? <==> |page| < w.s.batch)
      && w.s.loops[l].pc == (if turn.Last? then Drained else Read)
      && (SameFeed(old(w.s), w.s) ==> page == Show(w.s.log, w.s.trunc, old(cursor.value), w.s.batch))
    ensures turn.More? ==> old(cursor.value) + w.s.batch <= cursor.value
    ensures turn.More? ==> UnreadCount(w.s, l) + |w.script| + w.s.batch <= UnreadCount(old(w.s), l) + |old(w.script)|
  {
    hide *;
    ghost var s, n := w.s, |w.script|;
    var read;
    read, page := ReadPage(w, l, cursor.value);
    OnwardFacts(s, n, w.s, |w.script|, l);
    if read.None? {
      return Stop(Erred), [];
    }
    if |read.value| == 0 {
      PageEmpty(s.loops[l], w.s.loops[l], w.s.batch);
      return Last, page;
    }
    PageAbove(w.s.log, w.s.trunc, cursor.value, w.s.batch);
    w.InStage(l);
    ghost var m, k := w.s, |w.script|;
    turn := FinishPage(w, l, owner, cursor, read.value, page);
    OnwardTransitive(s, n, m, k, w.s, |w.script|, l);
    OnwardFacts(m, k, w.s, |w.script|, l);
    if !turn.Stop? {
      w.InStage(l);
      PageDone(s.loops[l], m.loops[l], w.s.loops[l], page, w.s.batch);
      PageStays(s, m, w.s, m.loops[l].cursor);
    }
  }

  /** Drain the feed from `*cursor`. Terminates whatever else happens, as commits are finite: every full
      page lowers the unread changesets plus the moves still to come. */
  method CatchUp(w: Machine, l: nat, owner: AgentId, cursor: Cursor) returns (r: Verdict)
    requires w.Valid() && l < |w.s.loops| && w.s.loops[l].pc == Read && w.s.loops[l].agent == owner
    requires cursor.value == w.s.loops[l].cursor
    modifies w, cursor
    ensures w.Valid() && old(w.trace) <= w.trace && Onward(old(w.s), |old(w.script)|, w.s, |w.script|, l)
    ensures cursor.value == w.s.loops[l].cursor
    ensures r.Finished? ==> w.s.loops[l].pc == Drained
    ensures old(w.Faults()) <= w.Faults()
    ensures r.Erred? ==> w.s.loops[l].pc == Failed && old(w.Faults()) < w.Faults()
                         && Pending(w.s.loops[l]) + |w.script| < Pending(old(w.s).loops[l]) + |old(w.script)|
    ensures r.Suspended? ==> w.script == [] && Blocked(w.s, l)
    ensures !r.Suspended? ==>
      w.s.loops[l].forwarded
        == old(w.s).loops[l].forwarded + Due(w.s.log, w.s.loops[l], old(cursor.value), cursor.value)
    ensures r.Finished? && SameFeed(old(w.s), w.s) ==> DrainedAll(old(w.s), w.s, l)
  {
    hide Machine.Valid, Awaits, Played, Rest, Reply, Exact, LostOk, LiveEdge, NoLostWake, Due, Extends, Quiet,
        DrainedAll, Show, OwnedAll,
        Remaining, OnePage, NoPage;
    ghost var pages := 0;
    w.InStage(l);
    w.Holds(l);
    AtRest(w.s.batch, w.s.log, w.s.loops[l]);
    QuietStart(w.s, l);
    while true
      invariant w.Valid() && old(w.trace) <= w.trace && Onward(old(w.s), |old(w.script)|, w.s, |w.script|, l)
      invariant old(w.Faults()) <= w.Faults()
      invariant w.s.loops[l].pc == Read && cursor.value == w.s.loops[l].cursor
      invariant SameFeed(old(w.s), w.s) ==> Quiet(old(w.s), w.s, l, pages)
      decreases UnreadCount(w.s, l) + |w.script|
    {
      ghost var m := w.s;
      w.InStage(l);
      var turn, page := DrainPage(w, l, owner, cursor);
      if SameFeed(old(w.s), w.s) && !turn.Stop? {
        QuietTurn(old(w.s), m, w.s, l, pages, page);
      }
      if turn.Last? || turn == Stop(Erred) {
        DrainIsFilter(w, old(w.s), l);
      }
      match turn {
        case Stop(verdict) => return verdict;
        case Last => return Finished;
        case More => pages := pages + 1;
      }
    }
  }

  // Versionstamps strictly increase, so a page of n changesets moves the cursor by at least n.
  lemma {:induction false} PageSpan(page: seq<Changeset>, since: int)
    requires page != [] && since <= page[0].vs
    requires forall i, j | 0 <= i < j < |page| :: page[i].vs < page[j].vs
    ensures since + |page| <= page[|page| - 1].vs + 1
  {
    if |page| > 1 {
      PageSpan(page[..|page| - 1], since);
    }
  }

  // What was due below the cursor of an earlier moment is still exactly that.
  lemma DueStays(s: State, t: State, l: nat, batch: nat)
    requires l < |s.loops| && l < |t.loops| && s.log <= t.log && Sorted(t.log) && Kept(s.loops[l], t.loops[l])
    requires Exact(batch, s.log, s.loops[l])
    ensures Due(t.log, t.loops[l], s.loops[l].start, s.loops[l].cursor)
         == Due(s.log, s.loops[l], s.loops[l].start, s.loops[l].cursor)
  {
    var p, q := s.loops[l], t.loops[l];
    var more := q.lost - p.lost;
    assert q.lost == p.lost + more;
    WindowLost(t.log, p.start, p.cursor, p.lost, more);
    WindowOfPrefix(s.log, t.log, p.start, p.cursor, p.lost);
  }

  lemma {:induction false} WindowOfPrefix(log: Log, longer: Log, lo: int, hi: int, lost: set<int>)
    requires log <= longer && Sorted(longer) && hi <= NextVs(log)
    ensures Window(longer, lo, hi, lost) == Window(log, lo, hi, lost)
    decreases |longer|
  {
    if |log| < |longer| {
      var init := longer[..|longer| - 1];
      WindowOfPrefix(log, init, lo, hi, lost);
      LogTailAbove(log, longer, |init|);
    } else {
      assert log == longer;
    }
  }

  // Whatever happened meanwhile, a drain forwards the filter of the log between its two cursors.
  lemma DrainIsFilter(w: Machine, s: State, l: nat)
    requires w.Valid() && l < |s.loops| && l < |w.s.loops| && s.log <= w.s.log && Kept(s.loops[l], w.s.loops[l])
    requires Exact(w.s.batch, s.log, s.loops[l])
    requires s.loops[l].forwarded == Due(s.log, s.loops[l], s.loops[l].start, s.loops[l].cursor)
    requires w.s.loops[l].pc == Drained || w.s.loops[l].pc == Failed
    ensures w.s.loops[l].forwarded
         == s.loops[l].forwarded + Due(w.s.log, w.s.loops[l], s.loops[l].cursor, w.s.loops[l].cursor)
  {
    hide Stage, LostOk, LiveEdge, NoLostWake;
    var p, q := s.loops[l], w.s.loops[l];
    w.Holds(l);
    w.InStage(l);
    AtRest(w.s.batch, w.s.log, q);
    DueStays(s, w.s, l, w.s.batch);
    WindowSplit(w.s.log, q.start, p.cursor, q.cursor, q.lost);
    OwnedAllConcat(q.agent, Window(w.s.log, q.start, p.cursor, q.lost), Window(w.s.log, p.cursor, q.cursor, q.lost));
  }

  lemma AtRest(batch: nat, log: Log, p: Loop)
    requires Exact(batch, log, p) && Stage(p) && p.pc != Forward && p.pc != Dead
    ensures p.forwarded == Due(log, p, p.start, p.cursor)
  {
    assert p.forwarded + [] == p.forwarded;
  }

  lemma PageAbove(log: Log, trunc: nat, since: int, n: nat)
    requires trunc <= |log| && Sorted(log) && Show(log, trunc, since, n) != []
    ensures var page := Show(log, trunc, since, n);
            Highest(since - 1, EncodeAll(page)) == page[|page| - 1].vs && since + |page| <= page[|page| - 1].vs + 1
  {
    var page := Show(log, trunc, since, n);
    PageSorted(log, trunc, since, n);
    hide Show, Highest, FirstAt, Sorted;
    PageSpan(page, since);
    HighestOfPage(since - 1, page);
  }
}
