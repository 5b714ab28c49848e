/** The slot allocator of a table, under sequential use. */
module SlotTable {

  /** Header flag and bytes of one record slot. */
  datatype Slot<R> = Free(junk: R) | Occupied(data: R)

  /** A record position: block number and slot within the block. */
  datatype Address = Address(block: nat, slot: nat)

  predicate InBlocks<R>(blocks: seq<seq<Slot<R>>>, a: Address) {
    a.block < |blocks| && a.slot < |blocks[a.block]|
  }

  predicate Live<R>(blocks: seq<seq<Slot<R>>>, a: Address) {
    InBlocks(blocks, a) && blocks[a.block][a.slot].Occupied?
  }

  function At<R>(blocks: seq<seq<Slot<R>>>, a: Address): Slot<R>
    requires InBlocks(blocks, a)
  {
    blocks[a.block][a.slot]
  }

  /** The slot was handed out at least once. */
  predicate Used<R>(blocks: seq<seq<Slot<R>>>, next: Address, a: Address) {
    InBlocks(blocks, a) && (a.block < next.block || a.slot < next.slot)
  }

  /** The free list names, once each, exactly the used slots that hold no live record; no slot
      beyond next holds one. */
  ghost predicate Tracked<R(!new)>(blocks: seq<seq<Slot<R>>>, freeList: seq<Address>, next: Address) {
    && (forall i, j | 0 <= i < j < |freeList| :: freeList[i] != freeList[j])
    && (forall a | InBlocks(blocks, a) :: Used(blocks, next, a) <==> Live(blocks, a) || a in freeList)
    && (forall a :: a in freeList ==> InBlocks(blocks, a) && !Live(blocks, a))
  }

  ghost predicate Holds<R(!new)>(blocks: seq<seq<Slot<R>>>, live: map<Address, R>) {
    && (forall a :: a in live <==> Live(blocks, a))
    && (forall a | a in live :: At(blocks, a).data == live[a])
  }

  /** blocks' is blocks with one slot written. */
  ghost predicate Written<R(!new)>(blocks: seq<seq<Slot<R>>>, blocks': seq<seq<Slot<R>>>, a: Address, slot: Slot<R>) {
    && InBlocks(blocks, a) && |blocks'| == |blocks|
    && (forall b | 0 <= b < |blocks| :: |blocks'[b]| == |blocks[b]|)
    && (forall x | InBlocks(blocks, x) :: At(blocks', x) == if x == a then slot else At(blocks, x))
  }

  lemma WrittenLive<R(!new)>(blocks: seq<seq<Slot<R>>>, blocks': seq<seq<Slot<R>>>, a: Address, slot: Slot<R>)
    requires Written(blocks, blocks', a, slot)
    ensures forall x :: InBlocks(blocks', x) <==> InBlocks(blocks, x)
    ensures forall x :: Live(blocks', x) <==> if x == a then slot.Occupied? else Live(blocks, x)
  {
    forall x ensures Live(blocks', x) <==> if x == a then slot.Occupied? else Live(blocks, x) {
      if InBlocks(blocks, x) { assert At(blocks', x) == if x == a then slot else At(blocks, x); }
    }
  }

  lemma WrittenHolds<R(!new)>(blocks: seq<seq<Slot<R>>>, blocks': seq<seq<Slot<R>>>, a: Address, slot: Slot<R>, live: map<Address, R>)
    requires Written(blocks, blocks', a, slot) && Holds(blocks, live)
    ensures Holds(blocks', match slot case Occupied(r) => live[a := r] case Free(_) => live - {a})
  {
    WrittenLive(blocks, blocks', a, slot);
    var live' := match slot case Occupied(r) => live[a := r] case Free(_) => live - {a};
    forall x | x in live' ensures At(blocks', x).data == live'[x] {
      if x != a { assert At(blocks', x) == At(blocks, x); }
    }
  }

  lemma TakesUnused<R(!new)>(blocks: seq<seq<Slot<R>>>, blocks': seq<seq<Slot<R>>>, freeList: seq<Address>, a: Address, r: R)
    requires Tracked(blocks, freeList, a) && Written(blocks, blocks', a, Occupied(r)) && a.block == |blocks| - 1
    ensures !Live(blocks, a) && Tracked(blocks', freeList, Address(a.block, a.slot + 1))
  {
    assert !Used(blocks, a, a);
    WrittenLive(blocks, blocks', a, Occupied(r));
  }

  lemma TakesFreed<R(!new)>(blocks: seq<seq<Slot<R>>>, blocks': seq<seq<Slot<R>>>, a: Address, rest: seq<Address>, next: Address, r: R)
    requires Tracked(blocks, [a] + rest, next) && Written(blocks, blocks', a, Occupied(r))
    ensures !Live(blocks, a) && Tracked(blocks', rest, next)
  {
    var freeList := [a] + rest;
    WrittenLive(blocks, blocks', a, Occupied(r));
    assert freeList[0] == a && forall j | 0 <= j < |rest| :: freeList[j + 1] == rest[j];
    assert a in freeList && a !in rest;
  }

  lemma GivesBack<R(!new)>(blocks: seq<seq<Slot<R>>>, blocks': seq<seq<Slot<R>>>, freeList: seq<Address>, next: Address, a: Address, junk: R)
    requires Live(blocks, a) && Tracked(blocks, freeList, next) && Written(blocks, blocks', a, Free(junk))
    ensures Tracked(blocks', freeList + [a], next)
  {
    WrittenLive(blocks, blocks', a, Free(junk));
  }

  lemma OneMoreBlock<R(!new)>(blocks: seq<seq<Slot<R>>>, block: seq<Slot<R>>, freeList: seq<Address>, next: Address, live: map<Address, R>)
    requires Tracked(blocks, freeList, next) && Holds(blocks, live) && forall i | 0 <= i < |block| :: block[i].Free?
    requires blocks == [] || (next.block == |blocks| - 1 && next.slot == |blocks[next.block]|)
    ensures Tracked(blocks + [block], freeList, Address(|blocks|, 0)) && Holds(blocks + [block], live)
  {
    var more, next' := blocks + [block], Address(|blocks|, 0);
    forall a ensures InBlocks(blocks, a) ==> InBlocks(more, a) && At(more, a) == At(blocks, a) {}
    forall a ensures Live(more, a) <==> Live(blocks, a) {}
    forall a | InBlocks(more, a) ensures Used(more, next', a) <==> Live(more, a) || a in freeList {
      if InBlocks(blocks, a) { assert Used(blocks, next, a); }
    }
  }

  lemma OneMore(n: nat, p: nat)
    ensures (n + 1) * p == n * p + p
  {
  }

  class BaseTable<R(!new)> {
    const perBlock: nat                      // record_num_per_block
    const blank: R                           // what a new block holds
    var blocks: seq<seq<Slot<R>>>
    var freeList: seq<Address>
    var next: Address                        // next_freespace_ptr
    var occupiedCount: nat
    var allocatedCount: nat
    ghost var live: map<Address, R>          // the records of the table

    /** Slots of the last block that were never used. */
    function Unused(): int
      reads this
    {
      if blocks == [] then 0 else perBlock - next.slot
    }

    ghost predicate Valid()
      reads this
    {
      && perBlock > 0
      && (forall b | 0 <= b < |blocks| :: |blocks[b]| == perBlock)
      && (blocks != [] ==> next.block == |blocks| - 1 && next.slot <= perBlock)
      && allocatedCount == |blocks| * perBlock
      && occupiedCount + |freeList| + Unused() == allocatedCount
      && Tracked(blocks, freeList, next) && Holds(blocks, live)
      && |live| == occupiedCount
    }

    constructor (perBlock: nat, blank: R)
      requires perBlock > 0
      ensures Valid() && live == map[] && this.perBlock == perBlock
    {
      this.perBlock, this.blank := perBlock, blank;
      blocks, freeList, next := [], [], Address(0, 0);
      occupiedCount, allocatedCount := 0, 0;
      live := map[];
    }

    method AllocateNextBlock()
      requires Valid() && allocatedCount == occupiedCount
      modifies this
      ensures Valid() && live == old(live) && Unused() == perBlock
      ensures freeList == old(freeList) && allocatedCount == old(allocatedCount) + perBlock
    {
      var block := seq(perBlock, _ => Free(blank));
      OneMoreBlock(blocks, block, freeList, next, live);
      OneMore(|blocks|, perBlock);
      blocks := blocks + [block];
      next := Address(|blocks| - 1, 0);
      allocatedCount := allocatedCount + perBlock;
    }

    /** Writes header and bytes of one slot. */
    method SetSlot(a: Address, slot: Slot<R>)
      requires InBlocks(blocks, a)
      modifies this`blocks
      ensures Written(old(blocks), blocks, a, slot)
    {
      blocks := blocks[a.block := blocks[a.block][a.slot := slot]];
    }

    /** Fills the next slot that was never used. */
    method FillUnused(record: R) returns (ans: Address)
      requires Valid() && Unused() > 0
      modifies this
      ensures Valid() && ans !in old(live) && live == old(live)[ans := record]
      ensures ans == old(next) && freeList == old(freeList) && allocatedCount == old(allocatedCount)
    {
      ans := next;
      SetSlot(ans, Occupied(record));
      TakesUnused(old(blocks), blocks, freeList, ans, record);
      WrittenHolds(old(blocks), blocks, ans, Occupied(record), live);
      next, occupiedCount, live := Address(ans.block, ans.slot + 1), occupiedCount + 1, live[ans := record];
    }

    /** Fills the slot at the head of the free list. */
    method FillFreed(record: R) returns (ans: Address)
      requires Valid() && freeList != []
      modifies this
      ensures Valid() && ans !in old(live) && live == old(live)[ans := record]
      ensures [ans] + freeList == old(freeList) && allocatedCount == old(allocatedCount)
    {
      ans := freeList[0];
      assert ans in freeList;
      var rest := freeList[1..];
      assert freeList == [ans] + rest;
      SetSlot(ans, Occupied(record));
      TakesFreed(old(blocks), blocks, ans, rest, next, record);
      WrittenHolds(old(blocks), blocks, ans, Occupied(record), live);
      freeList, occupiedCount, live := rest, occupiedCount + 1, live[ans := record];
    }

    /** Hands out a slot that holds no live record, fills it, and changes no other record.  The
        slot freed longest ago comes first, and the table grows, by one block, only if every
        slot holds a live record. */
    method InsertRecord(record: R) returns (ans: Address)
      requires Valid()
      modifies this
      ensures Valid() && ans !in old(live) && live == old(live)[ans := record]
      ensures if old(freeList) == [] then freeList == [] else [ans] + freeList == old(freeList)
      ensures allocatedCount == old(allocatedCount) + if old(|live| == allocatedCount) then perBlock else 0
    {
      if allocatedCount == occupiedCount {
        AllocateNextBlock();
        ans := FillUnused(record);
      } else if |freeList| > 0 {
        ans := FillFreed(record);
      } else {
        ans := FillUnused(record);
      }
    }

    method DeleteRecord(a: Address)
      requires Valid() && a in live
      modifies this
      ensures Valid() && live == old(live) - {a}
      ensures freeList == old(freeList) + [a] && allocatedCount == old(allocatedCount)
    {
      var junk := At(blocks, a).data;
      SetSlot(a, Free(junk));
      GivesBack(old(blocks), blocks, freeList, next, a, junk);
      WrittenHolds(old(blocks), blocks, a, Free(junk), live);
      freeList, occupiedCount, live := freeList + [a], occupiedCount - 1, live - {a};
      assert live.Keys == old(live).Keys - {a};
    }

    /** Overwrites the bytes of a live record in place. */
    method OverwriteRecord(a: Address, record: R)
      requires Valid() && a in live
      modifies this
      ensures Valid() && live == old(live)[a := record]
    {
      SetSlot(a, Occupied(record));
      WrittenLive(old(blocks), blocks, a, Occupied(record));
      WrittenHolds(old(blocks), blocks, a, Occupied(record), live);
      live := live[a := record];
      assert live.Keys == old(live).Keys;
    }
  }
}
