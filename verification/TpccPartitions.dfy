/** Partitioned ORDER, NEW_ORDER and ORDER_LINE tables behave as one table. */
module TpccPartitions {
  import opened Replay
  import opened TpccSchedule

  const MAX_PARTITION_CNT := 100

  datatype Kind = OrderTable | NewOrderTable | OrderLineTable

  function BaseId(kind: Kind): nat {
    match kind
    case OrderTable => 7
    case NewOrderTable => 7 + MAX_PARTITION_CNT
    case OrderLineTable => 7 + MAX_PARTITION_CNT * 2
  }

  function TableId(kind: Kind, i: nat): nat { BaseId(kind) + i }

  ghost predicate NoCollision(cnt: nat) {
    forall k, k', i: nat, j: nat | i < cnt && j < cnt && (k != k' || i != j) :: TableId(k, i) != TableId(k', j)
  }

  /** Partition tables have ids of their own exactly if there are at most 100 partitions.
      With more, registering one partition would replace another. */
  lemma IdsCollide(cnt: nat)
    ensures NoCollision(cnt) <==> cnt <= 100
  {
    if cnt > MAX_PARTITION_CNT {
      assert TableId(OrderTable, MAX_PARTITION_CNT) == TableId(NewOrderTable, 0);
    }
  }

  /** The partition of a district's rows. */
  function PartitionOf(cnt: nat, w: int, d: int): (i: nat)
    requires cnt > 0
    ensures i < cnt
  {
    TableOffset(w, d) % cnt
  }

  /** The districts, warehouse by warehouse, go to the partitions in turn. */
  lemma PartitionsInTurn(cnt: nat, w: int, d: int)
    requires cnt > 0
    ensures PartitionOf(cnt, 1, 1) == 0
    ensures PartitionOf(cnt, w, d + 1) == NextPartition(cnt, PartitionOf(cnt, w, d))
    ensures PartitionOf(cnt, w + 1, 1) == NextPartition(cnt, PartitionOf(cnt, w, 10))
  {
    NextResidue(TableOffset(w, d), cnt);
    NextResidue(TableOffset(w, 10), cnt);
  }

  function NextPartition(cnt: nat, i: nat): nat { if i + 1 == cnt then 0 else i + 1 }

  datatype Key = Key(w: int, d: int, o: int)

  /** Every row lies in the partition of its district. */
  ghost predicate InPlace<V>(parts: seq<map<Key, V>>) {
    |parts| > 0 && forall i, k | 0 <= i < |parts| && k in parts[i] :: PartitionOf(|parts|, k.w, k.d) == i
  }

  /** All rows together. */
  function Whole<V>(parts: seq<map<Key, V>>): map<Key, V> {
    if parts == [] then map[] else Whole(parts[..|parts| - 1]) + parts[|parts| - 1]
  }

  lemma {:induction false} WholeHas<V>(parts: seq<map<Key, V>>, k: Key)
    ensures k in Whole(parts) <==> exists i :: 0 <= i < |parts| && k in parts[i]
  {
    if parts != [] {
      WholeHas(parts[..|parts| - 1], k);
      if k in parts[|parts| - 1] {
        assert k in parts[|parts| - 1];
      } else if k in Whole(parts[..|parts| - 1]) {
        var i :| 0 <= i < |parts| - 1 && k in parts[..|parts| - 1][i];
        assert k in parts[i];
      } else {
        forall i | 0 <= i < |parts| ensures k !in parts[i] { assert i < |parts| - 1 ==> parts[i] == parts[..|parts| - 1][i]; }
      }
    }
  }

  lemma {:induction false} WholeAt<V>(parts: seq<map<Key, V>>, k: Key, i: nat)
    requires i < |parts| && k in parts[i] && forall j | 0 <= j < |parts| && k in parts[j] :: j == i
    ensures k in Whole(parts) && Whole(parts)[k] == parts[i][k]
  {
    var front := parts[..|parts| - 1];
    if i < |parts| - 1 {
      assert forall j | 0 <= j < |front| :: front[j] == parts[j];
      WholeAt(front, k, i);
    }
  }

  /** ONE TABLE.  Looking a row up in the partition of its district is looking it up in the
      whole. */
  lemma LookupIsWhole<V>(parts: seq<map<Key, V>>, k: Key)
    requires InPlace(parts)
    ensures
      var i := PartitionOf(|parts|, k.w, k.d);
      (k in parts[i] <==> k in Whole(parts)) && (k in parts[i] ==> parts[i][k] == Whole(parts)[k])
  {
    var i := PartitionOf(|parts|, k.w, k.d);
    WholeHas(parts, k);
    if k in parts[i] { WholeAt(parts, k, i); }
  }

  lemma PutIsWhole<V>(parts: seq<map<Key, V>>, k: Key, v: V)
    requires InPlace(parts)
    ensures
      var i := PartitionOf(|parts|, k.w, k.d);
      var parts' := parts[i := parts[i][k := v]];
      InPlace(parts') && Whole(parts') == Whole(parts)[k := v]
  {
    var i := PartitionOf(|parts|, k.w, k.d);
    var parts' := parts[i := parts[i][k := v]];
    assert InPlace(parts');
    forall x ensures (x in Whole(parts') <==> x == k || x in Whole(parts))
      && (x in Whole(parts') ==> Whole(parts')[x] == if x == k then v else Whole(parts)[x])
    {
      LookupIsWhole(parts', x);
      LookupIsWhole(parts, x);
    }
  }

  lemma DeleteIsWhole<V>(parts: seq<map<Key, V>>, k: Key)
    requires InPlace(parts)
    ensures
      var i := PartitionOf(|parts|, k.w, k.d);
      var parts' := parts[i := parts[i] - {k}];
      InPlace(parts') && Whole(parts') == Whole(parts) - {k}
  {
    var i := PartitionOf(|parts|, k.w, k.d);
    var parts' := parts[i := parts[i] - {k}];
    assert InPlace(parts');
    forall x ensures (x in Whole(parts') <==> x != k && x in Whole(parts))
      && (x in Whole(parts') ==> Whole(parts')[x] == Whole(parts)[x])
    {
      LookupIsWhole(parts', x);
      LookupIsWhole(parts, x);
    }
  }

  class PartitionedTable<V> {
    var parts: seq<map<Key, V>>

    ghost predicate Valid()
      reads this
    {
      InPlace(parts)
    }

    constructor (cnt: nat)
      requires cnt > 0
      ensures Valid() && Whole(parts) == map[]
    {
      parts := seq(cnt, _ => map[]);
      new;
      forall k ensures k !in Whole(parts) { WholeHas(parts, k); }
    }

    method Select(k: Key) returns (found: Option<V>)
      requires Valid()
      ensures found == if k in Whole(parts) then Some(Whole(parts)[k]) else None
    {
      LookupIsWhole(parts, k);
      var i := PartitionOf(|parts|, k.w, k.d);
      found := if k in parts[i] then Some(parts[i][k]) else None;
    }

    /** Inserts or overwrites a row. */
    method Put(k: Key, v: V)
      requires Valid()
      modifies this
      ensures Valid() && |parts| == |old(parts)| && Whole(parts) == Whole(old(parts))[k := v]
    {
      var i := PartitionOf(|parts|, k.w, k.d);
      ghost var before := parts;
      parts := parts[i := parts[i][k := v]];
      PutIsWhole(before, k, v);
    }

    method Delete(k: Key)
      requires Valid()
      modifies this
      ensures Valid() && |parts| == |old(parts)| && Whole(parts) == Whole(old(parts)) - {k}
    {
      var i := PartitionOf(|parts|, k.w, k.d);
      ghost var before := parts;
      parts := parts[i := parts[i] - {k}];
      DeleteIsWhole(before, k);
    }
  }
}
