// The changefeed as the code sees it: an append-only log of which a prefix may be truncated,
// read in pages from a versionstamp onwards.

module Feed {
  import opened Wire

  type Log = seq<Changeset>

  predicate Sorted(log: Log) {
    && (forall i | 0 <= i < |log| :: 1 <= log[i].vs)
    && (forall i, j | 0 <= i < j < |log| :: log[i].vs < log[j].vs)
  }

  /** The least versionstamp the next commit can be given. */
  function NextVs(log: Log): int {
    if log == [] then 1 else log[|log| - 1].vs + 1
  }

  /** Index of the first retained changeset at or above `c`. */
  function FirstAt(log: Log, from: nat, c: int): (k: nat)
    requires from <= |log|
    ensures from <= k <= |log|
    ensures forall t | from <= t < k :: log[t].vs < c
    ensures k < |log| ==> c <= log[k].vs
    decreases |log| - from
  {
    if from < |log| && log[from].vs < c then FirstAt(log, from + 1, c) else from
  }

  /** SHOW CHANGES SINCE c LIMIT n: the first at most n retained changesets at or above c. */
  function Show(log: Log, trunc: nat, c: int, n: nat): seq<Changeset>
    requires trunc <= |log|
  {
    var k := FirstAt(log, trunc, c);
    if k + n <= |log| then log[k..k + n] else log[k..]
  }

  /** How many retained changesets lie at or above `c`. */
  function Remaining(log: Log, trunc: nat, c: int): nat
    requires trunc <= |log|
  {
    |log| - FirstAt(log, trunc, c)
  }

  lemma FirstAtUnique(log: Log, from: nat, c: int, k: nat)
    requires from <= k <= |log|
    requires forall t | from <= t < k :: log[t].vs < c
    requires k < |log| ==> c <= log[k].vs
    ensures FirstAt(log, from, c) == k
  {
  }

  // A page is the slice the next page starts after.
  lemma PageEnd(log: Log, trunc: nat, c: int, n: nat)
    requires trunc <= |log| && Sorted(log)
    ensures var k, page := FirstAt(log, trunc, c), Show(log, trunc, c, n);
            && k + |page| <= |log| && page == log[k..k + |page|]
            && (page != [] ==> FirstAt(log, trunc, page[|page| - 1].vs + 1) == k + |page|)
  {
    var k, page := FirstAt(log, trunc, c), Show(log, trunc, c, n);
    if page != [] {
      assert page[|page| - 1] == log[k + |page| - 1];
      FirstAtUnique(log, trunc, page[|page| - 1].vs + 1, k + |page|);
    }
  }

  lemma PageSorted(log: Log, trunc: nat, c: int, n: nat)
    requires trunc <= |log| && Sorted(log)
    ensures var page := Show(log, trunc, c, n);
            && (forall i | 0 <= i < |page| :: c <= page[i].vs)
            && (forall i, j | 0 <= i < j < |page| :: page[i].vs < page[j].vs)
  {
    var k, page := FirstAt(log, trunc, c), Show(log, trunc, c, n);
    forall i | 0 <= i < |page| ensures page[i] == log[k + i] && c <= page[i].vs {
    }
    forall i, j | 0 <= i < j < |page| ensures page[i].vs < page[j].vs {
      assert page[i] == log[k + i] && page[j] == log[k + j];
    }
  }

  predicate InWindow(cs: Changeset, lo: int, hi: int, lost: set<int>) {
    lo <= cs.vs < hi && cs.vs !in lost
  }

  /** The changesets of the log in [lo, hi) that are not lost, in commit order. */
  function Window(log: Log, lo: int, hi: int, lost: set<int>): Log {
    if log == [] then []
    else
      var last := log[|log| - 1];
      var r := Window(log[..|log| - 1], lo, hi, lost);
      if InWindow(last, lo, hi, lost) then r + [last] else r
  }

  /** The versionstamps at or above `c` among the first `upto` changesets of the log, from index `from`. */
  function StampsFrom(log: Log, from: nat, upto: nat, c: int): set<int>
    requires from <= upto <= |log|
  {
    set t | from <= t < upto && c <= log[t].vs :: log[t].vs
  }

  lemma {:induction false} WindowSlice(log: Log, lo: int, hi: int, lost: set<int>, i: nat, j: nat)
    requires i <= j <= |log|
    requires forall t | 0 <= t < |log| :: InWindow(log[t], lo, hi, lost) <==> i <= t < j
    ensures Window(log, lo, hi, lost) == log[i..j]
  {
    if log != [] {
      var n := |log| - 1;
      var init := log[..n];
      if j <= n {
        WindowSlice(init, lo, hi, lost, i, j);
        TakeSlice(log, n, i, j);
      } else if i < j {
        WindowSlice(init, lo, hi, lost, i, n);
        TakeSlice(log, n, i, n);
        SliceSnoc(log, i);
      } else {
        WindowSlice(init, lo, hi, lost, n, n);
      }
    }
  }

  lemma TakeSlice(log: Log, n: nat, i: nat, j: nat)
    requires i <= j <= n <= |log|
    ensures log[..n][i..j] == log[i..j]
  {
  }

  lemma SliceSnoc(log: Log, i: nat)
    requires i < |log|
    ensures log[i..|log|] == log[i..|log| - 1] + [log[|log| - 1]]
  {
  }

  lemma {:induction false} WindowSplit(log: Log, lo: int, mid: int, hi: int, lost: set<int>)
    requires Sorted(log) && lo <= mid <= hi
    ensures Window(log, lo, hi, lost) == Window(log, lo, mid, lost) + Window(log, mid, hi, lost)
  {
    if log != [] {
      var init := log[..|log| - 1];
      WindowSplit(init, lo, mid, hi, lost);
      if log[|log| - 1].vs < mid {
        WindowSlice(init, mid, hi, lost, |init|, |init|);
      }
    }
  }

  // Losing changes at or above the upper bound does not change the window.
  lemma {:induction false} WindowLost(log: Log, lo: int, hi: int, lost: set<int>, more: set<int>)
    requires forall v | v in more :: hi <= v
    ensures Window(log, lo, hi, lost + more) == Window(log, lo, hi, lost)
  {
    if log != [] {
      WindowLost(log[..|log| - 1], lo, hi, lost, more);
    }
  }

  lemma WindowAppend(log: Log, cs: Changeset, lo: int, hi: int, lost: set<int>)
    ensures Window(log + [cs], lo, hi, lost)
         == Window(log, lo, hi, lost) + (if InWindow(cs, lo, hi, lost) then [cs] else [])
  {
    assert (log + [cs])[..|log|] == log;
  }

  // What was lost outside of it does not matter.
  lemma {:induction false} WindowAgrees(log: Log, lo: int, hi: int, lost: set<int>, others: set<int>)
    requires forall t | 0 <= t < |log| && lo <= log[t].vs < hi :: log[t].vs in lost <==> log[t].vs in others
    ensures Window(log, lo, hi, lost) == Window(log, lo, hi, others)
  {
    if log != [] {
      WindowAgrees(log[..|log| - 1], lo, hi, lost, others);
    }
  }

  // A commit above the upper bound does not change the window either.
  lemma WindowBelow(log: Log, cs: Changeset, lo: int, hi: int, lost: set<int>)
    requires hi <= cs.vs
    ensures Window(log + [cs], lo, hi, lost) == Window(log, lo, hi, lost)
  {
    WindowAppend(log, cs, lo, hi, lost);
  }

  // What a page read from `c` is: the window from `c` to just past its last changeset, provided that
  // what was truncated at or above `c` is what was lost.
  lemma PageIsWindow(log: Log, trunc: nat, c: int, n: nat, lost: set<int>)
    requires Sorted(log) && trunc <= |log|
    requires forall t | 0 <= t < trunc :: c <= log[t].vs ==> log[t].vs in lost
    requires forall t | trunc <= t < |log| :: log[t].vs !in lost
    ensures var page := Show(log, trunc, c, n);
            && |page| <= n
            && (page == [] && n > 0 ==> Window(log, c, NextVs(log), lost) == [])
            && (page != [] ==> c < page[|page| - 1].vs + 1 <= NextVs(log)
                               && Window(log, c, page[|page| - 1].vs + 1, lost) == page)
            && (|page| < n ==> forall t | 0 <= t < |log| ::
                  log[t].vs in lost || log[t].vs < (if page == [] then c else page[|page| - 1].vs + 1))
  {
    var k := FirstAt(log, trunc, c);
    var page := Show(log, trunc, c, n);
    assert page == log[k..k + |page|];
    if page != [] {
      assert page[|page| - 1] == log[k + |page| - 1];
      WindowSlice(log, c, page[|page| - 1].vs + 1, lost, k, k + |page|);
    } else if n > 0 {
      WindowSlice(log, c, NextVs(log), lost, |log|, |log|);
    }
  }

  lemma WindowMember(log: Log, lo: int, hi: int, lost: set<int>, t: nat) returns (i: nat)
    requires t < |log| && InWindow(log[t], lo, hi, lost)
    ensures i < |Window(log, lo, hi, lost)| && Window(log, lo, hi, lost)[i] == log[t]
  {
    var n := |log| - 1;
    if t == n {
      i := |Window(log[..n], lo, hi, lost)|;
    } else {
      i := WindowMember(log[..n], lo, hi, lost, t);
    }
  }

  // The messages of a changeset in a sequence form one contiguous run of what is owned of it.
  lemma OwnedInPage(agent: AgentId, page: seq<Changeset>, i: nat)
    requires i < |page|
    ensures OwnedAll(agent, page)
         == OwnedAll(agent, page[..i]) + Owned(agent, page[i]) + OwnedAll(agent, page[i + 1..])
  {
    assert page == page[..i] + page[i..];
    OwnedAllConcat(agent, page[..i], page[i..]);
  }

  // Retention sweeps are invisible: what is owned of a window does not depend on its delete-only changesets.
  function WithoutSweeps(log: Log): Log {
    if log == [] then []
    else
      var r := WithoutSweeps(log[..|log| - 1]);
      if DeleteOnly(log[|log| - 1]) then r else r + [log[|log| - 1]]
  }

  lemma {:induction false} SweepsAreInvisible(agent: AgentId, log: Log, lo: int, hi: int, lost: set<int>)
    ensures OwnedAll(agent, Window(log, lo, hi, lost)) == OwnedAll(agent, Window(WithoutSweeps(log), lo, hi, lost))
  {
    if log != [] {
      var init, last := log[..|log| - 1], log[|log| - 1];
      SweepsAreInvisible(agent, init, lo, hi, lost);
      OwnedAllConcat(agent, Window(init, lo, hi, lost), [last]);
      if DeleteOnly(last) {
        DeletesOwnNothing(agent, last.changes);
        assert OwnedAll(agent, [last]) == [];
      } else {
        var kept := WithoutSweeps(init);
        WindowAppend(kept, last, lo, hi, lost);
        OwnedAllConcat(agent, Window(kept, lo, hi, lost), [last]);
      }
    }
  }
}
