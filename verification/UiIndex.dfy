/** A snapshot of a UI tree: its relations are kept as a list and, both ways round, as buckets that
    must agree with that list; a node's properties are two parallel arrays. */
module UiIndex {
  import opened Wrappers

  datatype Relation = Relation(source: nat, target: nat, relation: nat)

  /** One direction of a relation: what `node` is related to. */
  datatype Entry = Entry(node: nat, relation: nat, related: nat)

  datatype Bucket = Bucket(node: nat, relation: nat, related: seq<nat>)

  predicate HasKey(b: Bucket, node: nat, relation: nat) {
    b.node == node && b.relation == relation
  }

  /** The nodes the list relates to `node`, in list order. */
  function Matching(entries: seq<Entry>, node: nat, relation: nat): seq<nat> {
    if entries == [] then []
    else
      var last := entries[|entries| - 1];
      Matching(entries[..|entries| - 1], node, relation)
        + if last.node == node && last.relation == relation then [last.related] else []
  }

  function TotalSize(buckets: seq<Bucket>): nat {
    if buckets == [] then 0 else TotalSize(buckets[..|buckets| - 1]) + |buckets[|buckets| - 1].related|
  }

  ghost predicate UniqueKeys(buckets: seq<Bucket>) {
    forall i, j :: 0 <= i < j < |buckets| ==> !HasKey(buckets[i], buckets[j].node, buckets[j].relation)
  }

  /** The buckets say what the list says: one bucket per key that occurs, holding all its nodes in list
      order. */
  ghost predicate Agrees(buckets: seq<Bucket>, entries: seq<Entry>) {
    && UniqueKeys(buckets)
    && (forall i :: 0 <= i < |buckets| ==>
          buckets[i].related == Matching(entries, buckets[i].node, buckets[i].relation) && buckets[i].related != [])
    && (forall k :: 0 <= k < |entries| ==> Keyed(buckets, entries[k].node, entries[k].relation))
    && TotalSize(buckets) == |entries|
  }

  ghost predicate Keyed(buckets: seq<Bucket>, node: nat, relation: nat) {
    exists i :: 0 <= i < |buckets| && HasKey(buckets[i], node, relation)
  }

  lemma {:induction false} NoEntryNoMatch(entries: seq<Entry>, node: nat, relation: nat)
    requires forall k :: 0 <= k < |entries| ==> !(entries[k].node == node && entries[k].relation == relation)
    ensures Matching(entries, node, relation) == []
  {
    if entries != [] {
      NoEntryNoMatch(entries[..|entries| - 1], node, relation);
    }
  }

  lemma MatchingPush(entries: seq<Entry>, e: Entry, node: nat, relation: nat)
    ensures Matching(entries + [e], node, relation)
         == Matching(entries, node, relation) + if e.node == node && e.relation == relation then [e.related] else []
  {
    assert (entries + [e])[..|entries|] == entries;
  }

  lemma {:induction false} TotalSizeGrow(buckets: seq<Bucket>, i: nat, node: nat)
    requires i < |buckets|
    ensures TotalSize(buckets[i := buckets[i].(related := buckets[i].related + [node])]) == TotalSize(buckets) + 1
  {
    var grown := buckets[i := buckets[i].(related := buckets[i].related + [node])];
    var n := |buckets| - 1;
    if i == n {
      assert grown[..n] == buckets[..n];
    } else {
      TotalSizeGrow(buckets[..n], i, node);
      assert grown[..n] == buckets[..n][i := grown[i]];
    }
  }

  /** The entry joins the bucket of its key. */
  lemma GrowAgrees(buckets: seq<Bucket>, entries: seq<Entry>, e: Entry, i: nat)
    requires Agrees(buckets, entries) && i < |buckets| && HasKey(buckets[i], e.node, e.relation)
    ensures Agrees(buckets[i := buckets[i].(related := buckets[i].related + [e.related])], entries + [e])
  {
    var grown, all := buckets[i := buckets[i].(related := buckets[i].related + [e.related])], entries + [e];
    TotalSizeGrow(buckets, i, e.related);
    forall j | 0 <= j < |grown|
      ensures grown[j].related == Matching(all, grown[j].node, grown[j].relation)
    {
      MatchingPush(entries, e, grown[j].node, grown[j].relation);
    }
    assert forall j :: 0 <= j < |grown| ==> grown[j].node == buckets[j].node && grown[j].relation == buckets[j].relation;
    forall k | 0 <= k < |all| ensures Keyed(grown, all[k].node, all[k].relation) {
      var j := i;
      if k < |entries| {
        assert Keyed(buckets, entries[k].node, entries[k].relation);
        j :| 0 <= j < |buckets| && HasKey(buckets[j], entries[k].node, entries[k].relation);
      }
      assert HasKey(grown[j], all[k].node, all[k].relation);
    }
  }

  /** The entry's key occurs for the first time. */
  lemma AppendAgrees(buckets: seq<Bucket>, entries: seq<Entry>, e: Entry)
    requires Agrees(buckets, entries) && !Keyed(buckets, e.node, e.relation)
    ensures Agrees(buckets + [Bucket(e.node, e.relation, [e.related])], entries + [e])
  {
    var grown, all := buckets + [Bucket(e.node, e.relation, [e.related])], entries + [e];
    assert grown[..|buckets|] == buckets;
    assert forall i :: 0 <= i < |buckets| ==> !HasKey(buckets[i], e.node, e.relation);
    AppendMatches(buckets, entries, e);
    forall k | 0 <= k < |all| ensures Keyed(grown, all[k].node, all[k].relation) {
      var j := |buckets|;
      if k < |entries| {
        assert Keyed(buckets, entries[k].node, entries[k].relation);
        j :| 0 <= j < |buckets| && HasKey(buckets[j], entries[k].node, entries[k].relation);
      }
      assert HasKey(grown[j], all[k].node, all[k].relation);
    }
  }

  lemma AppendMatches(buckets: seq<Bucket>, entries: seq<Entry>, e: Entry)
    requires Agrees(buckets, entries) && !Keyed(buckets, e.node, e.relation)
    ensures Matching(entries + [e], e.node, e.relation) == [e.related]
    ensures forall j :: 0 <= j < |buckets| ==>
      buckets[j].related == Matching(entries + [e], buckets[j].node, buckets[j].relation)
  {
    assert forall k :: 0 <= k < |entries| ==> Keyed(buckets, entries[k].node, entries[k].relation);
    NoEntryNoMatch(entries, e.node, e.relation);
    MatchingPush(entries, e, e.node, e.relation);
    forall j | 0 <= j < |buckets|
      ensures buckets[j].related == Matching(entries + [e], buckets[j].node, buckets[j].relation)
    {
      assert !HasKey(buckets[j], e.node, e.relation);
      MatchingPush(entries, e, buckets[j].node, buckets[j].relation);
    }
  }

  class RelationIndex {
    var buckets: seq<Bucket>
    ghost var entries: seq<Entry>  // what has been appended so far

    ghost predicate Valid()
      reads this
    {
      Agrees(buckets, entries)
    }

    constructor ()
      ensures Valid() && entries == []
    {
      buckets, entries := [], [];
    }

    method AppendRelated(node: nat, relation: nat, related: nat)
      requires Valid()
      modifies this
      ensures Valid() && entries == old(entries) + [Entry(node, relation, related)]
    {
      ghost var e := Entry(node, relation, related);
      var next := 0;
      while next < |buckets|
        invariant 0 <= next <= |buckets|
        invariant buckets == old(buckets) && entries == old(entries)
        invariant forall i :: 0 <= i < next ==> !HasKey(buckets[i], node, relation)
      {
        if buckets[next].node == node && buckets[next].relation == relation {
          GrowAgrees(buckets, entries, e, next);
          buckets := buckets[next := buckets[next].(related := buckets[next].related + [related])];
          entries := entries + [e];
          return;
        }
        next := next + 1;
      }
      AppendAgrees(buckets, entries, e);
      buckets, entries := buckets + [Bucket(node, relation, [related])], entries + [e];
    }

    method FindRelated(node: nat, relation: nat) returns (related: seq<nat>)
      requires Valid()
      ensures related == Matching(entries, node, relation)
    {
      var next := 0;
      while next < |buckets|
        invariant 0 <= next <= |buckets|
        invariant forall i :: 0 <= i < next ==> !HasKey(buckets[i], node, relation)
      {
        if buckets[next].node == node && buckets[next].relation == relation {
          return buckets[next].related;
        }
        next := next + 1;
      }
      assert forall k :: 0 <= k < |entries| ==> Keyed(buckets, entries[k].node, entries[k].relation);
      NoEntryNoMatch(entries, node, relation);
      return [];
    }
  }

  // ---- The snapshot ----

  /** The in-order targets, and sources, of the relations that match. */
  function Targets(relations: seq<Relation>, source: nat, relation: nat): seq<nat> {
    if relations == [] then []
    else
      var last := relations[|relations| - 1];
      Targets(relations[..|relations| - 1], source, relation)
        + if last.source == source && last.relation == relation then [last.target] else []
  }

  function Sources(relations: seq<Relation>, target: nat, relation: nat): seq<nat> {
    if relations == [] then []
    else
      var last := relations[|relations| - 1];
      Sources(relations[..|relations| - 1], target, relation)
        + if last.target == target && last.relation == relation then [last.source] else []
  }

  ghost predicate Increasing(at: seq<nat>) {
    forall i, j :: 0 <= i < j < |at| ==> at[i] < at[j]
  }

  /** They are the targets of exactly the relations with that source and that name, in order. */
  lemma {:induction false} TargetsAreTheRelated(relations: seq<Relation>, source: nat, relation: nat) returns (at: seq<nat>)
    ensures Increasing(at) && |at| == |Targets(relations, source, relation)|
    ensures forall i :: 0 <= i < |at| ==>
      at[i] < |relations| && relations[at[i]] == Relation(source, Targets(relations, source, relation)[i], relation)
    ensures forall k :: 0 <= k < |relations| && relations[k].source == source && relations[k].relation == relation ==> k in at
  {
    if relations == [] {
      at := [];
    } else {
      var n := |relations| - 1;
      at := TargetsAreTheRelated(relations[..n], source, relation);
      if relations[n].source == source && relations[n].relation == relation { at := at + [n]; }
    }
  }

  lemma {:induction false} SourcesAreTheRelated(relations: seq<Relation>, target: nat, relation: nat) returns (at: seq<nat>)
    ensures Increasing(at) && |at| == |Sources(relations, target, relation)|
    ensures forall i :: 0 <= i < |at| ==>
      at[i] < |relations| && relations[at[i]] == Relation(Sources(relations, target, relation)[i], target, relation)
    ensures forall k :: 0 <= k < |relations| && relations[k].target == target && relations[k].relation == relation ==> k in at
  {
    if relations == [] {
      at := [];
    } else {
      var n := |relations| - 1;
      at := SourcesAreTheRelated(relations[..n], target, relation);
      if relations[n].target == target && relations[n].relation == relation { at := at + [n]; }
    }
  }

  function Forward(relations: seq<Relation>): seq<Entry> {
    seq(|relations|, i requires 0 <= i < |relations| =>
      Entry(relations[i].source, relations[i].relation, relations[i].target))
  }

  function Reverse(relations: seq<Relation>): seq<Entry> {
    seq(|relations|, i requires 0 <= i < |relations| =>
      Entry(relations[i].target, relations[i].relation, relations[i].source))
  }

  lemma {:induction false} ForwardMatches(relations: seq<Relation>, source: nat, relation: nat)
    ensures Matching(Forward(relations), source, relation) == Targets(relations, source, relation)
  {
    if relations != [] {
      var front := relations[..|relations| - 1];
      ForwardMatches(front, source, relation);
      assert Forward(relations)[..|front|] == Forward(front);
    }
  }

  lemma {:induction false} ReverseMatches(relations: seq<Relation>, target: nat, relation: nat)
    ensures Matching(Reverse(relations), target, relation) == Sources(relations, target, relation)
  {
    if relations != [] {
      var front := relations[..|relations| - 1];
      ReverseMatches(front, target, relation);
      assert Reverse(relations)[..|front|] == Reverse(front);
    }
  }

  class UiSnapshot {
    var relations: seq<Relation>
    const forward: RelationIndex
    const reverse: RelationIndex

    /** Both indexes agree with the list. */
    ghost predicate Valid()
      reads this, forward, reverse
    {
      && forward.Valid() && forward.entries == Forward(relations)
      && reverse.Valid() && reverse.entries == Reverse(relations)
    }

    constructor FromRecords(relations: seq<Relation>)
      ensures Valid() && this.relations == relations
    {
      forward := new RelationIndex();
      reverse := new RelationIndex();
      this.relations := relations;
      new;
      IndexAll();
    }

    method IndexRelation(r: Relation)
      requires forward.Valid() && reverse.Valid() && forward != reverse
      modifies forward, reverse
      ensures forward.Valid() && forward.entries == old(forward.entries) + [Entry(r.source, r.relation, r.target)]
      ensures reverse.Valid() && reverse.entries == old(reverse.entries) + [Entry(r.target, r.relation, r.source)]
    {
      forward.AppendRelated(r.source, r.relation, r.target);
      reverse.AppendRelated(r.target, r.relation, r.source);
    }

    method IndexAll()
      requires forward.Valid() && reverse.Valid() && forward != reverse && forward.entries == reverse.entries == []
      modifies forward, reverse
      ensures Valid()
    {
      var next := 0;
      while next < |relations|
        invariant 0 <= next <= |relations|
        invariant forward.Valid() && forward.entries == Forward(relations[..next])
        invariant reverse.Valid() && reverse.entries == Reverse(relations[..next])
      {
        IndexRelation(relations[next]);
        next := next + 1;
      }
      assert relations[..next] == relations;
    }

    method Related(source: nat, relation: nat) returns (related: seq<nat>)
      requires Valid()
      ensures related == Targets(relations, source, relation)
    {
      related := forward.FindRelated(source, relation);
      ForwardMatches(relations, source, relation);
    }

    method RelatedReverse(target: nat, relation: nat) returns (related: seq<nat>)
      requires Valid()
      ensures related == Sources(relations, target, relation)
    {
      related := reverse.FindRelated(target, relation);
      ReverseMatches(relations, target, relation);
    }
  }

  /** The two directions agree: a target occurs among a source's as often as that source among its. */
  lemma {:induction false} DirectionsAgree(relations: seq<Relation>, source: nat, target: nat, relation: nat)
    ensures multiset(Targets(relations, source, relation))[target] == multiset(Sources(relations, target, relation))[source]
  {
    if relations != [] {
      DirectionsAgree(relations[..|relations| - 1], source, target, relation);
    }
  }

  // ---- A node's properties ----

  datatype Property<V> = Property(id: nat, read: V)

  /** What is stored first under an id. */
  function FirstRead<V>(properties: seq<Property<V>>, id: nat): Option<V> {
    if properties == [] then None
    else if properties[0].id == id then Some(properties[0].read)
    else FirstRead(properties[1..], id)
  }

  class UiNodeRecord<V> {
    var propertyIds: seq<nat>
    var propertyReads: seq<V>

    ghost predicate Stores(properties: seq<Property<V>>)
      reads this
    {
      && |propertyIds| == |propertyReads| == |properties|
      && forall i :: 0 <= i < |properties| ==> propertyIds[i] == properties[i].id && propertyReads[i] == properties[i].read
    }

    constructor (properties: seq<Property<V>>)
      ensures Stores(properties)
    {
      propertyIds, propertyReads := [], [];
      new;
      var next := 0;
      while next < |properties|
        invariant 0 <= next <= |properties| && Stores(properties[..next])
      {
        propertyIds := propertyIds + [properties[next].id];
        propertyReads := propertyReads + [properties[next].read];
        next := next + 1;
      }
      assert properties[..next] == properties;
    }

    /** The first property stored under the id; `absent` if there is none. */
    method GetProperty(id: nat, absent: V, ghost properties: seq<Property<V>>) returns (read: V)
      requires Stores(properties)
      ensures read == if FirstRead(properties, id).Some? then FirstRead(properties, id).value else absent
      ensures forall k :: 0 <= k < |properties| && properties[k].id == id && (forall j :: 0 <= j < k ==> properties[j].id != id) ==>
        read == properties[k].read
      ensures (forall k :: 0 <= k < |properties| ==> properties[k].id != id) ==> read == absent
    {
      var index := 0;
      while index < |propertyIds|
        invariant 0 <= index <= |propertyIds|
        invariant FirstRead(properties, id) == FirstRead(properties[index..], id)
        invariant forall k :: 0 <= k < index ==> properties[k].id != id
      {
        if propertyIds[index] == id {
          return propertyReads[index];
        }
        assert properties[index..][1..] == properties[index + 1..];
        index := index + 1;
      }
      return absent;
    }
  }
}
