// The values a changefeed query returns, and how catch-up reads them.

module Wire {
  datatype Option<+T> = None | Some(value: T)

  type AgentId = string

  /** `run` stands in `xs` at position `k`, without a gap. */
  predicate RunsAt<T(==)>(xs: seq<T>, k: nat, run: seq<T>) {
    k + |run| <= |xs| && xs[k..k + |run|] == run
  }

  datatype Message = Message(
    id: Option<string>, sender: Option<AgentId>, out: Option<AgentId>, payload: int, created: Option<int>)

  /** A database value. `Record(d)` is a record whose decoding as a message yields `d`, so the decoder
      is an arbitrary partial function given with the data; no other value decodes. */
  datatype Value =
    | Obj(fields: map<string, Value>)
    | Arr(items: seq<Value>)
    | Number(toInt: Option<int>)
    | Record(decoded: Option<Message>)
    | Null

  /** One committed transaction of the message table. */
  datatype Changeset = Changeset(vs: int, changes: seq<Value>)

  function Get(v: Value, key: string): Option<Value> {
    if v.Obj? && key in v.fields then Some(v.fields[key]) else None
  }

  function VersionstampOf(v: Value): Option<int> {
    match Get(v, "versionstamp")
    case Some(Number(n)) => n
    case _ => None
  }

  function Stamps(items: seq<Value>): seq<int> {
    if items == [] then []
    else
      var rest := Stamps(items[1..]);
      match VersionstampOf(items[0])
      case Some(vs) => [vs] + rest
      case None => rest
  }

  function Largest(xs: seq<int>): (m: int)
    requires xs != []
    ensures m in xs && forall x | x in xs :: x <= m
  {
    if |xs| == 1 then xs[0]
    else
      var m := Largest(xs[1..]);
      assert forall x | x in xs :: x == xs[0] || x in xs[1..];
      if m < xs[0] then xs[0] else m
  }

  function MaxVersionstamp(v: Value): (m: int)
    ensures v.Arr? && Stamps(v.items) != [] ==> m in Stamps(v.items) && forall x | x in Stamps(v.items) :: x <= m
    ensures !v.Arr? || Stamps(v.items) == [] ==> m == 0
  {
    if v.Arr? && Stamps(v.items) != [] then Largest(Stamps(v.items)) else 0
  }

  /** The running maximum catch-up keeps over a page, from a base value. */
  function Highest(base: int, items: seq<Value>): int {
    if items == [] then base
    else
      var m := Highest(base, items[..|items| - 1]);
      match VersionstampOf(items[|items| - 1])
      case Some(vs) => if m < vs then vs else m
      case None => m
  }

  /** The record a change carries: `update` wins over `create`; anything else carries none. */
  function RecordOf(change: Value): Option<Value> {
    if Get(change, "update").Some? then Get(change, "update") else Get(change, "create")
  }

  /** The message catch-up forwards for one change, if any. */
  function OwnedChange(agent: AgentId, change: Value): Option<Message> {
    match RecordOf(change)
    case Some(Record(Some(m))) => if m.out == Some(agent) then Some(m) else None
    case _ => None
  }

  function OwnedChanges(agent: AgentId, changes: seq<Value>): seq<Message> {
    if changes == [] then []
    else
      var rest := OwnedChanges(agent, changes[1..]);
      match OwnedChange(agent, changes[0])
      case Some(m) => [m] + rest
      case None => rest
  }

  function OwnedValue(agent: AgentId, changeset: Value): seq<Message> {
    match Get(changeset, "changes")
    case Some(Arr(changes)) => OwnedChanges(agent, changes)
    case _ => []
  }

  function OwnedValues(agent: AgentId, items: seq<Value>): seq<Message> {
    if items == [] then [] else OwnedValue(agent, items[0]) + OwnedValues(agent, items[1..])
  }

  /** How the feed presents a changeset: complete, and carrying its versionstamp. */
  function Encode(cs: Changeset): Value {
    Obj(map["versionstamp" := Number(Some(cs.vs)), "changes" := Arr(cs.changes)])
  }

  function EncodeAll(page: seq<Changeset>): (items: seq<Value>)
    ensures |items| == |page| && forall i | 0 <= i < |page| :: items[i] == Encode(page[i])
  {
    seq(|page|, i requires 0 <= i < |page| => Encode(page[i]))
  }

  function Owned(agent: AgentId, cs: Changeset): seq<Message> {
    OwnedChanges(agent, cs.changes)
  }

  function OwnedAll(agent: AgentId, page: seq<Changeset>): seq<Message> {
    if page == [] then [] else Owned(agent, page[0]) + OwnedAll(agent, page[1..])
  }

  /** A change object carries a message: as its "update" record, or as its "create" record if it has no
      "update" at all, and the record decodes. */
  predicate Carries(change: Value, m: Message) {
    && change.Obj?
    && if "update" in change.fields then change.fields["update"] == Record(Some(m))
       else "create" in change.fields && change.fields["create"] == Record(Some(m))
  }

  // What catch-up selects: of a change exactly the message it carries, if its recipient is the agent; of any
  // other change, and of a change for another recipient, nothing.
  lemma OwnedChangeMeans(agent: AgentId, change: Value)
    ensures forall m :: OwnedChange(agent, change) == Some(m) <==> Carries(change, m) && m.out == Some(agent)
  {
  }

  lemma {:induction false} OwnedChangesConcat(agent: AgentId, xs: seq<Value>, ys: seq<Value>)
    ensures OwnedChanges(agent, xs + ys) == OwnedChanges(agent, xs) + OwnedChanges(agent, ys)
  {
    if xs == [] {
      assert xs + ys == ys;
    } else {
      assert (xs + ys)[1..] == xs[1..] + ys;
      OwnedChangesConcat(agent, xs[1..], ys);
    }
  }

  // A changeset is filtered change by change, in order: what its `j`-th change carries for the agent stands
  // just after what the changes before it carry, and nothing else does.
  lemma OwnedInOrder(agent: AgentId, cs: Changeset, j: nat)
    requires j < |cs.changes|
    ensures var before, after := OwnedChanges(agent, cs.changes[..j]), OwnedChanges(agent, cs.changes[j + 1..]);
            && (forall m :: Carries(cs.changes[j], m) && m.out == Some(agent) ==>
                  Owned(agent, cs) == before + [m] + after)
            && ((forall m :: Carries(cs.changes[j], m) ==> m.out != Some(agent)) ==>
                  Owned(agent, cs) == before + after)
  {
    var xs := cs.changes;
    OwnedChangesConcat(agent, xs[..j], xs[j..]);
    assert xs == xs[..j] + xs[j..] && xs[j..][0] == xs[j] && xs[j..][1..] == xs[j + 1..];
    OwnedChangeMeans(agent, xs[j]);
  }

  // Conversely, what is owned of a changeset is carried by one of its changes and addressed to the agent.
  lemma {:induction false} OwnedIsCarried(agent: AgentId, changes: seq<Value>, k: nat) returns (j: nat)
    requires k < |OwnedChanges(agent, changes)|
    ensures j < |changes| && Carries(changes[j], OwnedChanges(agent, changes)[k])
    ensures OwnedChanges(agent, changes)[k].out == Some(agent)
  {
    OwnedChangeMeans(agent, changes[0]);
    match OwnedChange(agent, changes[0]) {
      case Some(_) =>
        if k == 0 {
          j := 0;
        } else {
          j := OwnedIsCarried(agent, changes[1..], k - 1);
          j := j + 1;
        }
      case None =>
        j := OwnedIsCarried(agent, changes[1..], k);
        j := j + 1;
    }
  }

  lemma {:induction false} OwnedAllIsCarried(agent: AgentId, page: seq<Changeset>, k: nat) returns (i: nat, j: nat)
    requires k < |OwnedAll(agent, page)|
    ensures i < |page| && j < |page[i].changes| && Carries(page[i].changes[j], OwnedAll(agent, page)[k])
    ensures OwnedAll(agent, page)[k].out == Some(agent)
  {
    if k < |Owned(agent, page[0])| {
      i := 0;
      j := OwnedIsCarried(agent, page[0].changes, k);
    } else {
      i, j := OwnedAllIsCarried(agent, page[1..], k - |Owned(agent, page[0])|);
      i := i + 1;
    }
  }

  // The other fields catch-up reads, by name.
  lemma FieldsMean(v: Value, n: int)
    ensures VersionstampOf(v) == Some(n) <==>
      v.Obj? && "versionstamp" in v.fields && v.fields["versionstamp"] == Number(Some(n))
    ensures forall changes :: v.Obj? && "changes" in v.fields && v.fields["changes"] == Arr(changes) ==>
      forall agent :: OwnedValue(agent, v) == OwnedChanges(agent, changes)
    ensures (!v.Obj? || "changes" !in v.fields || !v.fields["changes"].Arr?) ==>
      forall agent :: OwnedValue(agent, v) == []
  {
  }

  /** A changeset a retention sweep commits: deletes only, no record to forward. */
  predicate DeleteOnly(cs: Changeset) {
    forall ch | ch in cs.changes :: RecordOf(ch).None?
  }

  lemma DeleteOnlyMeans(cs: Changeset)
    ensures DeleteOnly(cs) <==>
      forall ch | ch in cs.changes :: ch.Obj? ==> "update" !in ch.fields && "create" !in ch.fields
  {
    forall ch | ch in cs.changes
      ensures RecordOf(ch).None? <==> (ch.Obj? ==> "update" !in ch.fields && "create" !in ch.fields)
    {
    }
  }

  lemma EncodedFields(cs: Changeset)
    ensures VersionstampOf(Encode(cs)) == Some(cs.vs)
    ensures Get(Encode(cs), "changes") == Some(Arr(cs.changes))
  {
    assert "versionstamp" in Encode(cs).fields && "changes" in Encode(cs).fields;
    assert Get(Encode(cs), "versionstamp") == Some(Number(Some(cs.vs)));
  }

  // Reading an encoded page back yields exactly the messages of the changesets.
  lemma {:induction false} OwnedRoundTrip(agent: AgentId, page: seq<Changeset>)
    ensures OwnedValues(agent, EncodeAll(page)) == OwnedAll(agent, page)
  {
    if page != [] {
      EncodedFields(page[0]);
      assert EncodeAll(page)[1..] == EncodeAll(page[1..]);
      OwnedRoundTrip(agent, page[1..]);
    }
  }

  lemma {:induction false} StampsRoundTrip(page: seq<Changeset>)
    ensures Stamps(EncodeAll(page)) == seq(|page|, i requires 0 <= i < |page| => page[i].vs)
  {
    if page != [] {
      EncodedFields(page[0]);
      assert EncodeAll(page)[1..] == EncodeAll(page[1..]);
      StampsRoundTrip(page[1..]);
    }
  }

  lemma {:induction false} OwnedAllConcat(agent: AgentId, xs: seq<Changeset>, ys: seq<Changeset>)
    ensures OwnedAll(agent, xs + ys) == OwnedAll(agent, xs) + OwnedAll(agent, ys)
  {
    if xs == [] {
      assert xs + ys == ys;
    } else {
      assert (xs + ys)[1..] == xs[1..] + ys;
      OwnedAllConcat(agent, xs[1..], ys);
    }
  }

  lemma {:induction false} DeletesOwnNothing(agent: AgentId, changes: seq<Value>)
    requires forall ch | ch in changes :: RecordOf(ch).None?
    ensures OwnedChanges(agent, changes) == []
  {
    if changes != [] {
      assert changes[0] in changes;
      forall ch | ch in changes[1..] ensures RecordOf(ch).None? { assert ch in changes; }
      DeletesOwnNothing(agent, changes[1..]);
    }
  }

  // Over a sorted page above the base, the running maximum is the last versionstamp.
  lemma {:induction false} HighestOfPage(base: int, page: seq<Changeset>)
    requires forall i, j | 0 <= i < j < |page| :: page[i].vs < page[j].vs
    requires forall i | 0 <= i < |page| :: base < page[i].vs
    ensures Highest(base, EncodeAll(page)) == if page == [] then base else page[|page| - 1].vs
  {
    if page != [] {
      var n := |page| - 1;
      EncodedFields(page[n]);
      assert EncodeAll(page)[..n] == EncodeAll(page[..n]);
      HighestOfPage(base, page[..n]);
    }
  }
}
