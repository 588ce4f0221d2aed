// The periodic age-out of message rows, with time in milliseconds. Rows arrive and time passes as an
// arbitrary script says; a run ends when the script does, so what holds at the end holds at any moment.

module Retention {
  /** A row is inserted, time passes, the token is cancelled, or the pending delete is answered: at that
      moment it takes effect or fails, and the answer arrives after a further delay. */
  datatype Move = Insert(id: nat) | Pass(ms: nat) | Cancel | Answer(ok: bool, after: nat)

  /** The interval of the sweep, `(retention / 4).max(60 s)`, for a retention in whole seconds. */
  function Interval(secs: nat): (ms: nat)
    ensures 60_000 <= ms && secs * 1000 / 4 <= ms
    ensures ms == 60_000 || ms == secs * 1000 / 4
  {
    if secs * 1000 / 4 < 60_000 then 60_000 else secs * 1000 / 4
  }

  /** The message table, the clock and the token. */
  datatype World = World(rows: map<nat, nat>, now: nat, cancelled: bool)

  /** What a move does when nothing is deleted. */
  function Moved(v: World, m: Move): World {
    match m
    case Insert(id) => v.(rows := v.rows[id := v.now])
    case Pass(ms) => v.(now := v.now + ms)
    case Cancel => v.(cancelled := true)
    case Answer(_, after) => v.(now := v.now + after)
  }

  function Played(v: World, moves: seq<Move>): World {
    if moves == [] then v else Moved(Played(v, moves[..|moves| - 1]), moves[|moves| - 1])
  }

  /** No row is older than `age`. */
  predicate NoneOlder(rows: map<nat, nat>, now: nat, age: nat) {
    forall id | id in rows :: now <= rows[id] + age
  }

  /** Rows `kept` are `all` without some that are older than the window. */
  predicate OnlyOldGone(kept: map<nat, nat>, all: map<nat, nat>, now: nat, window: nat) {
    && (forall id | id in kept :: id in all && kept[id] == all[id])
    && (forall id | id in all && now <= all[id] + window :: id in kept)
  }

  // ---------------------------------------------------------------- how far the moves of a script can reach

  /** The time that passes until the next answer has arrived, or the script ends. */
  function Stretch(script: seq<Move>): nat {
    if script == [] then 0
    else
      match script[0]
      case Pass(ms) => ms + Stretch(script[1..])
      case Answer(_, after) => after
      case _ => Stretch(script[1..])
  }

  /** The longest the database and the scheduler make anybody wait. */
  function Latency(script: seq<Move>): nat {
    if script == [] then 0
    else if Latency(script[1..]) < Stretch(script) then Stretch(script)
    else Latency(script[1..])
  }

  function Failures(moves: seq<Move>): nat {
    if moves == [] then 0
    else
      var last := moves[|moves| - 1];
      Failures(moves[..|moves| - 1]) + if last.Answer? && !last.ok then 1 else 0
  }

  lemma PlayOn(v: World, script: seq<Move>, n: nat)
    requires n < |script|
    ensures Played(v, script[..n + 1]) == Moved(Played(v, script[..n]), script[n])
    ensures Failures(script[..n + 1]) == Failures(script[..n]) + if script[n].Answer? && !script[n].ok then 1 else 0
  {
    assert script[..n + 1][..n] == script[..n];
  }

  lemma {:induction false} PlayRest(v: World, script: seq<Move>, n: nat, k: nat)
    requires n + k <= |script|
    ensures Played(v, script[..n + k]) == Played(Played(v, script[..n]), script[n..][..k])
    ensures Failures(script[..n + k]) == Failures(script[..n]) + Failures(script[n..][..k])
    ensures v.now <= Played(v, script[..n]).now
    decreases n + k
  {
    if k > 0 {
      PlayRest(v, script, n, k - 1);
      PlayOn(v, script, n + k - 1);
      PlayOn(Played(v, script[..n]), script[n..], k - 1);
      assert script[n..][k - 1] == script[n + k - 1];
    } else if n > 0 {
      PlayRest(v, script, n - 1, 0);
      PlayOn(v, script, n - 1);
    }
    assert script[n..][..0] == [];
  }

  // It is one of those waits, so nothing longer than the script can make anybody wait.
  lemma {:induction false} LatencyIsAWait(script: seq<Move>) returns (n: nat)
    ensures n <= |script| && Latency(script) == Stretch(script[n..])
  {
    n := 0;
    assert script[0..] == script;
    if script != [] && Stretch(script) <= Latency(script[1..]) {
      var k := LatencyIsAWait(script[1..]);
      n := k + 1;
      assert script[1..][k..] == script[n..];
    }
  }

  lemma {:induction false} LatencyFrom(script: seq<Move>, n: nat)
    requires n <= |script|
    ensures Stretch(script[n..]) <= Latency(script) && Latency(script[n..]) <= Latency(script)
  {
    if n > 0 {
      assert script[1..][n - 1..] == script[n..];
      LatencyFrom(script[1..], n - 1);
    } else {
      assert script[0..] == script;
    }
  }

  // The last move of a sleep can overshoot the timer, but by no more than the latency.
  lemma Overshoot(v: World, script: seq<Move>, n: nat, deadline: nat)
    requires 0 < n <= |script| && Played(v, script[..n - 1]).now < deadline
    ensures Played(v, script[..n]).now <= deadline + Latency(script)
  {
    PlayOn(v, script, n - 1);
    LatencyFrom(script, n - 1);
  }

  // Waiting for an answer takes no longer than the latency, its arrival included.
  lemma {:induction false} AnswerTime(v: World, script: seq<Move>, n: nat)
    requires n <= |script| && forall j | 0 <= j < n :: !script[j].Answer?
    ensures Played(v, script[..n]).now + Stretch(script[n..]) == v.now + Stretch(script)
    ensures n < |script| && script[n].Answer? ==> script[n].after == Stretch(script[n..])
  {
    if n > 0 {
      AnswerTime(v, script, n - 1);
      PlayOn(v, script, n - 1);
      assert script[n - 1..][1..] == script[n..];
    } else {
      assert script[0..] == script && script[..0] == [];
    }
  }

  lemma {:induction false} StaysCancelled(v: World, script: seq<Move>, j: nat, n: nat)
    requires j <= n <= |script|
    ensures Played(v, script[..j]).cancelled ==> Played(v, script[..n]).cancelled
    ensures Played(v, script[..j]).now <= Played(v, script[..n]).now
  {
    if j < n {
      StaysCancelled(v, script, j, n - 1);
      PlayOn(v, script, n - 1);
    }
  }

  // ---------------------------------------------------------------- the sweep's table and the undeleted one

  /** Table `a` is table `b` without some rows that are older than the window. */
  predicate Trimmed(a: World, b: World, window: nat) {
    a.now == b.now && a.cancelled == b.cancelled && OnlyOldGone(a.rows, b.rows, a.now, window)
  }

  /** No row is left that a delete evaluated at `since` removes. */
  predicate SweptAt(rows: map<nat, nat>, since: nat, window: nat) {
    forall id | id in rows :: since <= rows[id] + window
  }

  lemma {:induction false} TrimmedOn(a: World, b: World, moves: seq<Move>, window: nat)
    requires Trimmed(a, b, window)
    ensures Trimmed(Played(a, moves), Played(b, moves), window)
  {
    if moves != [] {
      TrimmedOn(a, b, moves[..|moves| - 1], window);
    }
  }

  lemma {:induction false} SweptOn(a: World, moves: seq<Move>, since: nat, window: nat)
    requires SweptAt(a.rows, since, window) && since <= a.now
    ensures SweptAt(Played(a, moves).rows, since, window) && a.now <= Played(a, moves).now
  {
    if moves != [] {
      SweptOn(a, moves[..|moves| - 1], since, window);
    }
  }

  /** When the delete that ends with move `swept` took effect, or the start if there was none. */
  function Since(v: World, moves: seq<Move>, swept: nat): nat
    requires swept <= |moves|
  {
    if swept == 0 then v.now else Played(v, moves[..swept - 1]).now
  }

  /** The most that passes over `n` turns of the sweep. */
  function Span(interval: nat, latency: nat, n: nat): nat {
    n * (interval + 2 * latency) + latency
  }

  lemma SpanStep(interval: nat, latency: nat, n: nat)
    ensures Span(interval, latency, n) + interval + 2 * latency == Span(interval, latency, n + 1)
    ensures Span(interval, latency, 0) == latency
  {
  }

  /** After `n` moves of the script, of which the first `swept` end with the last delete that took effect. */
  ghost predicate Kept(v: World, moves: seq<Move>, n: nat, swept: nat, w: World, window: nat) {
    && swept <= n <= |moves| && Trimmed(w, Played(v, moves[..n]), window)
    && (swept > 0 ==> moves[swept - 1].Answer? && moves[swept - 1].ok)
    && Since(v, moves, swept) <= w.now
    && (swept > 0 ==> SweptAt(w.rows, Since(v, moves, swept), window))
  }

  /** Once cancelled, the sweep at most waits for the answer that is pending. */
  ghost predicate Stops(v: World, moves: seq<Move>, n: nat)
    requires n <= |moves|
  {
    forall j, i | 0 <= j <= i < n - 1 && Played(v, moves[..j]).cancelled :: !moves[i].Answer?
  }

  lemma KeptOn(v: World, moves: seq<Move>, n: nat, swept: nat, w: World, window: nat, k: nat)
    requires Kept(v, moves, n, swept, w, window) && n + k <= |moves|
    ensures Kept(v, moves, n + k, swept, Played(w, moves[n..][..k]), window)
  {
    PlayRest(v, moves, n, k);
    TrimmedOn(w, Played(v, moves[..n]), moves[n..][..k], window);
    StaysCancelled(v, moves, n, n + k);
    if swept > 0 {
      SweptOn(w, moves[n..][..k], Since(v, moves, swept), window);
    }
  }

  /** What an answered delete does: if it took effect it removes exactly the rows then older than the window,
      if it failed it removes none. */
  ghost predicate Deleted(v: World, answer: Move, window: nat, u: World)
    requires answer.Answer?
  {
    && u.now == v.now + answer.after && u.cancelled == v.cancelled
    && (forall id: nat | id in u.rows :: id in v.rows && u.rows[id] == v.rows[id])
    && (forall id: nat | id in v.rows :: id in u.rows <==> (answer.ok ==> v.now <= v.rows[id] + window))
  }

  lemma KeptAnswer(v: World, moves: seq<Move>, n: nat, swept: nat, w: World, window: nat, u: World)
    requires Kept(v, moves, n, swept, w, window) && n < |moves| && moves[n].Answer?
    requires Deleted(w, moves[n], window, u)
    ensures Kept(v, moves, n + 1, if moves[n].ok then n + 1 else swept, u, window)
  {
    PlayOn(v, moves, n);
  }

  /** The failed deletes since the last one that took effect. */
  function Missed(moves: seq<Move>, swept: nat, n: nat): nat {
    if swept <= n <= |moves| then Failures(moves[swept..n]) else 0
  }

  lemma {:induction false} MissedGrows(moves: seq<Move>, swept: nat, n: nat, k: nat)
    requires swept <= n && n + k <= |moves|
    ensures Missed(moves, swept, n) <= Missed(moves, swept, n + k)
    ensures k > 0 && moves[n + k - 1].Answer? && !moves[n + k - 1].ok ==>
      Missed(moves, swept, n) < Missed(moves, swept, n + k)
  {
    if k > 0 {
      MissedGrows(moves, swept, n, k - 1);
      assert moves[swept..n + k][..n + k - 1 - swept] == moves[swept..n + k - 1];
    }
  }

  lemma SpanGrows(interval: nat, latency: nat, n: nat, k: nat)
    requires n <= k
    ensures Span(interval, latency, n) <= Span(interval, latency, k)
  {
    assert (k - n) * (interval + 2 * latency) >= 0;
    assert k * (interval + 2 * latency) == n * (interval + 2 * latency) + (k - n) * (interval + 2 * latency);
  }

  // ---------------------------------------------------------------- the sweep

  class Table {
    var rows: map<nat, nat>   // row id to creation time
    var now: nat
    var cancelled: bool
    var script: seq<Move>

    ghost function View(): World
      reads this
    {
      World(rows, now, cancelled)
    }

    constructor (rows: map<nat, nat>, now: nat, script: seq<Move>)
      ensures View() == World(rows, now, false) && this.script == script
    {
      this.rows, this.now, this.cancelled, this.script := rows, now, false, script;
    }

    /** Let the environment make its next move. */
    method Step()
      requires script != []
      modifies this
      ensures View() == Moved(old(View()), old(script)[0]) && script == old(script)[1..]
    {
      match script[0] {
        case Insert(id) => rows := rows[id := now];
        case Pass(ms) => now := now + ms;
        case Cancel => cancelled := true;
        case Answer(_, after) => now := now + after;
      }
      script := script[1..];
    }

    /** `sleep(interval)` against cancellation: `n` moves pass, until the timer fires or the token is cancelled. */
    method Sleep(interval: nat) returns (fired: bool, ghost n: nat)
      modifies this
      ensures n <= |old(script)| && script == old(script)[n..] && View() == Played(old(View()), old(script)[..n])
      ensures forall j | 0 <= j < n :: var v := Played(old(View()), old(script)[..j]);
                                       v.now < old(now) + interval && !v.cancelled
      ensures fired <==> !cancelled && old(now) + interval <= now
      ensures !fired ==> cancelled || script == []
    {
      var deadline := now + interval;
      n := 0;
      ghost var v, moves := View(), script;
      while now < deadline && !cancelled && script != []
        invariant n <= |moves| && script == moves[n..] && View() == Played(v, moves[..n])
        invariant forall j | 0 <= j < n :: Played(v, moves[..j]).now < deadline && !Played(v, moves[..j]).cancelled
        decreases |script|
      {
        PlayOn(v, moves, n);
        Step();
        n := n + 1;
      }
      fired := !cancelled && deadline <= now;
    }

    /** DELETE message WHERE created < time::now() - window: `n` moves pass until it is answered. It then
        removes exactly the rows older than the window, or none if it failed. */
    method Delete(window: nat) returns (answered: bool, ghost n: nat)
      modifies this
      ensures n <= |old(script)| && forall j | 0 <= j < n :: !old(script)[j].Answer?
      ensures answered <==> n < |old(script)|
      ensures !answered ==> script == [] && View() == Played(old(View()), old(script))
      ensures answered ==>
        && old(script)[n].Answer? && script == old(script)[n + 1..]
        && Deleted(Played(old(View()), old(script)[..n]), old(script)[n], window, View())
    {
      n := 0;
      ghost var v, moves := View(), script;
      while script != [] && !script[0].Answer?
        invariant n <= |moves| && script == moves[n..] && View() == Played(v, moves[..n])
        invariant forall j | 0 <= j < n :: !moves[j].Answer?
        decreases |script|
      {
        PlayOn(v, moves, n);
        Step();
        n := n + 1;
      }
      if script == [] {
        assert moves[..n] == moves;
        return false, n;
      }
      if script[0].ok {
        rows := map id | id in rows && now <= rows[id] + window :: rows[id];
      }
      now := now + script[0].after;
      script := script[1..];
      answered := true;
    }
  }

  /** The clock is at most so far past the last delete that took effect, or the start. */
  ghost predicate InTime(v: World, moves: seq<Move>, n: nat, swept: nat, now: nat, interval: nat, turns: nat) {
    swept <= n <= |moves|
    && now <= Since(v, moves, swept) + Span(interval, Latency(moves), Missed(moves, swept, n) + turns)
  }

  // One turn takes an interval, and the latency twice: for the timer and for the answer.
  lemma SleepInTime(v: World, moves: seq<Move>, n: nat, swept: nat, w: World, interval: nat, k: nat)
    requires InTime(v, moves, n, swept, w.now, interval, 0) && n + k <= |moves|
    requires k > 0 ==> Played(w, moves[n..][..k - 1]).now < w.now + interval
    ensures Played(w, moves[n..][..k]).now <= w.now + interval + Latency(moves)
    ensures InTime(v, moves, n + k, swept, Played(w, moves[n..][..k]).now, interval, 1)
  {
    LatencyFrom(moves, n);
    if k > 0 {
      Overshoot(w, moves[n..], k, w.now + interval);
    }
    MissedGrows(moves, swept, n, k);
    SpanStep(interval, Latency(moves), Missed(moves, swept, n));
    SpanGrows(interval, Latency(moves), Missed(moves, swept, n) + 1, Missed(moves, swept, n + k) + 1);
  }

  // With the delete that follows, whatever becomes of it.
  lemma DeleteInTime(v: World, moves: seq<Move>, n: nat, swept: nat, now: nat, interval: nat, w: World, m: nat, d: nat)
    requires InTime(v, moves, n, swept, now, interval, 0) && n <= m && m + d <= |moves|
    requires w.now <= now + interval + Latency(moves) && forall j | 0 <= j < d :: !moves[m..][j].Answer?
    ensures InTime(v, moves, m + d, swept, Played(w, moves[m..][..d]).now, interval, 1)
    ensures m + d < |moves| && moves[m + d].Answer? ==>
      && moves[m + d].after <= Latency(moves)
      && (!moves[m + d].ok ==>
            InTime(v, moves, m + d + 1, swept, Played(w, moves[m..][..d]).now + moves[m + d].after, interval, 0))
  {
    AnswerTime(w, moves[m..], d);
    assert moves[m..][d..] == moves[m + d..];
    LatencyFrom(moves, m);
    LatencyFrom(moves, m + d);
    SpanStep(interval, Latency(moves), Missed(moves, swept, n));
    MissedGrows(moves, swept, n, m + d - n);
    SpanGrows(interval, Latency(moves), Missed(moves, swept, n) + 1, Missed(moves, swept, m + d) + 1);
    if m + d < |moves| && moves[m + d].Answer? && !moves[m + d].ok {
      MissedGrows(moves, swept, n, m + d + 1 - n);
      SpanGrows(interval, Latency(moves), Missed(moves, swept, n) + 1, Missed(moves, swept, m + d + 1));
    }
  }

  lemma StopsAfter(v: World, moves: seq<Move>, m: nat, d: nat, n: nat)
    requires m + d <= |moves| && n <= m + d + 1 && n <= |moves|
    requires !Played(v, moves[..m]).cancelled && forall i | m <= i < m + d :: !moves[i].Answer?
    ensures Stops(v, moves, n)
  {
    forall j, i | 0 <= j <= i < n - 1 && Played(v, moves[..j]).cancelled ensures !moves[i].Answer? {
      if j <= m {
        StaysCancelled(v, moves, j, m);
        assert false;
      }
    }
  }

  // A sleep that has begun was not cancelled before its last move.
  lemma StopsAsleep(v: World, moves: seq<Move>, n: nat, k: nat, w: World)
    requires n + k <= |moves| && Stops(v, moves, n) && w.cancelled == Played(v, moves[..n]).cancelled
    requires k > 0 ==> !Played(w, moves[n..][..k - 1]).cancelled
    ensures Stops(v, moves, n + k)
  {
    hide Stops;
    if k > 0 {
      PlayRest(v, moves, n, k - 1);
      SameClock(w, Played(v, moves[..n]), moves[n..][..k - 1]);
      StopsAfter(v, moves, n + k - 1, 0, n + k);
    }
  }

  lemma {:induction false} SameClock(a: World, b: World, moves: seq<Move>)
    requires a.cancelled == b.cancelled
    ensures Played(a, moves).cancelled == Played(b, moves).cancelled
  {
    if moves != [] {
      SameClock(a, b, moves[..|moves| - 1]);
    }
  }

  /** What the sweep keeps after `n` moves: the table, the clock and the way it stops. */
  ghost predicate Sweeps(v: World, moves: seq<Move>, n: nat, swept: nat, w: World, secs: nat, turns: nat) {
    && Kept(v, moves, n, swept, w, secs * 1000) && Stops(v, moves, n)
    && InTime(v, moves, n, swept, w.now, Interval(secs), turns)
  }

  // What that means for a row: it is gone only if it is older than the window, and it does not stay for much
  // longer once a delete takes effect.
  lemma SweepsMeans(v: World, moves: seq<Move>, n: nat, swept: nat, w: World, secs: nat)
    requires Sweeps(v, moves, n, swept, w, secs, 1)
    ensures var all := Played(v, moves[..n]);
            && w.now == all.now && w.cancelled == all.cancelled
            && (forall id | id in w.rows :: id in all.rows && w.rows[id] == all.rows[id])
            && (forall id | id in all.rows && w.now <= all.rows[id] + secs * 1000 :: id in w.rows)
    ensures swept == 0 ==> w.now <= v.now + Span(Interval(secs), Latency(moves), Missed(moves, 0, n) + 1)
    ensures swept > 0 ==>
      NoneOlder(w.rows, w.now, secs * 1000 + Span(Interval(secs), Latency(moves), Missed(moves, swept, n) + 1))
  {
    hide Span, Latency, Missed;
  }

  lemma SweepsFirst(v: World, moves: seq<Move>, secs: nat)
    ensures Sweeps(v, moves, 0, 0, v, secs, 0) && moves[0..] == moves
  {
    assert moves[..0] == [];
  }

  lemma SweepsAsleep(v: World, moves: seq<Move>, n: nat, swept: nat, w: World, secs: nat, k: nat)
    requires Sweeps(v, moves, n, swept, w, secs, 0) && n + k <= |moves|
    requires k > 0 ==>
      var u := Played(w, moves[n..][..k - 1]); u.now < w.now + Interval(secs) && !u.cancelled
    ensures var u := Played(w, moves[n..][..k]);
            && Sweeps(v, moves, n + k, swept, u, secs, 1) && u.cancelled == Played(v, moves[..n + k]).cancelled
            && u.now <= w.now + Interval(secs) + Latency(moves)
            && moves[n..][k..] == moves[n + k..]
  {
    SleepInTime(v, moves, n, swept, w, Interval(secs), k);
    KeptOn(v, moves, n, swept, w, secs * 1000, k);
    StopsAsleep(v, moves, n, k, w);
  }

  lemma SweepsWaiting(v: World, moves: seq<Move>, n: nat, swept: nat, w: World, secs: nat, m: nat, u: World, d: nat)
    requires Sweeps(v, moves, n, swept, w, secs, 0) && n <= m && m + d <= |moves|
    requires Sweeps(v, moves, m, swept, u, secs, 1) && u.now <= w.now + Interval(secs) + Latency(moves)
    requires u.cancelled == Played(v, moves[..m]).cancelled && !u.cancelled
    requires forall j | 0 <= j < d :: !moves[m..][j].Answer?
    ensures Sweeps(v, moves, m + d, swept, Played(u, moves[m..][..d]), secs, 1)
    ensures m + d < |moves| && moves[m + d].Answer? ==> Stops(v, moves, m + d + 1)
  {
    DeleteInTime(v, moves, n, swept, w.now, Interval(secs), u, m, d);
    KeptOn(v, moves, m, swept, u, secs * 1000, d);
    forall i | m <= i < m + d ensures !moves[i].Answer? {
      assert moves[i] == moves[m..][i - m];
    }
    StopsAfter(v, moves, m, d, m + d);
    if m + d < |moves| {
      StopsAfter(v, moves, m, d, m + d + 1);
    }
  }

  lemma SweepsAnswered(v: World, moves: seq<Move>, n: nat, swept: nat, w: World, secs: nat, m: nat, u: World, d: nat,
                       x: World)
    requires Sweeps(v, moves, n, swept, w, secs, 0) && n <= m && m + d < |moves|
    requires Sweeps(v, moves, m, swept, u, secs, 1) && u.now <= w.now + Interval(secs) + Latency(moves)
    requires u.cancelled == Played(v, moves[..m]).cancelled && !u.cancelled
    requires forall j | 0 <= j < d :: !moves[m..][j].Answer?
    requires moves[m + d].Answer? && Deleted(Played(u, moves[m..][..d]), moves[m + d], secs * 1000, x)
    ensures Sweeps(v, moves, m + d + 1, if moves[m + d].ok then m + d + 1 else swept, x, secs, 0)
  {
    hide Played, Latency, Stretch, Missed, Failures, Span, Stops, Kept, InTime;
    SweepsWaiting(v, moves, n, swept, w, secs, m, u, d);
    DeleteInTime(v, moves, n, swept, w.now, Interval(secs), u, m, d);
    var y := Played(u, moves[m..][..d]);
    assert x.now == y.now + moves[m + d].after;
    hide Deleted;
    KeptAnswer(v, moves, m + d, swept, y, secs * 1000, x);
    JustSwept(v, moves, m + d, swept, y, x.now, secs);
  }

  lemma JustSwept(v: World, moves: seq<Move>, n: nat, swept: nat, w: World, now: nat, secs: nat)
    requires Kept(v, moves, n, swept, w, secs * 1000) && n < |moves| && moves[n].Answer?
    requires now == w.now + moves[n].after && moves[n].after <= Latency(moves)
    ensures InTime(v, moves, n + 1, n + 1, now, Interval(secs), 0)
  {
    assert moves[n + 1..n + 1] == [];
    SpanStep(Interval(secs), Latency(moves), 0);
  }

  lemma Tail(moves: seq<Move>, n: nat, k: nat)
    requires n + k <= |moves|
    ensures moves[n..][k..] == moves[n + k..]
    ensures n + k == |moves| ==> moves[n..][..k] == moves[n..]
    ensures n + k < |moves| ==> moves[n..][k] == moves[n + k]
  {
  }

  /** The delete of one turn, at `m` moves, after a sleep that began at `n`. */
  method Sweep(t: Table, secs: nat, ghost v: World, ghost moves: seq<Move>, ghost n: nat, ghost swept: nat,
               ghost w: World, ghost m: nat)
    returns (answered: bool, ghost next: nat, ghost last: nat)
    requires n <= m <= |moves| && t.script == moves[m..] && Sweeps(v, moves, n, swept, w, secs, 0)
    requires Sweeps(v, moves, m, swept, t.View(), secs, 1) && t.now <= w.now + Interval(secs) + Latency(moves)
    requires t.cancelled == Played(v, moves[..m]).cancelled && !t.cancelled
    modifies t
    ensures next <= |moves| && t.script == moves[next..] && |t.script| <= |old(t.script)|
    ensures Sweeps(v, moves, next, last, t.View(), secs, if answered then 0 else 1)
    ensures if answered then |t.script| < |old(t.script)| else t.script == []
  {
    hide Sweeps, Deleted, Latency, Stretch;
    ghost var u := t.View();
    ghost var d;
    answered, d := t.Delete(secs * 1000);
    Tail(moves, m, d);
    if answered {
      Tail(moves, m, d + 1);
      SweepsAnswered(v, moves, n, swept, w, secs, m, u, d, t.View());
      next, last := m + d + 1, if moves[m + d].ok then m + d + 1 else swept;
    } else {
      SweepsWaiting(v, moves, n, swept, w, secs, m, u, d);
      next, last := m + d, swept;
    }
  }

  /** One task per coalition: every interval, delete the rows older than the retention window. `n` moves of
      the script pass, and the first `swept` end with the last delete that took effect. */
  method RetentionSweep(t: Table, secs: nat) returns (ghost n: nat, ghost swept: nat)
    modifies t
    ensures n <= |old(t.script)| && t.script == old(t.script)[n..]
    ensures Sweeps(old(t.View()), old(t.script), n, swept, t.View(), secs, 1)
    ensures t.cancelled || t.script == []
  {
    ghost var v, moves := t.View(), t.script;
    SweepsFirst(v, moves, secs);
    hide Sweeps, Latency, Stretch;
    n, swept := 0, 0;
    while true
      invariant n <= |moves| && t.script == moves[n..] && Sweeps(v, moves, n, swept, t.View(), secs, 0)
      decreases |t.script|
    {
      ghost var w := t.View();
      var fired, k := t.Sleep(Interval(secs));
      SweepsAsleep(v, moves, n, swept, w, secs, k);
      if !fired {
        n := n + k;
        return;
      }
      var answered, next, last := Sweep(t, secs, v, moves, n, swept, w, n + k);
      n, swept := next, last;
      if !answered {
        return;
      }
    }
  }
}
