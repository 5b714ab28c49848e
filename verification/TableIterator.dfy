/** The iterator over a table's chained blocks. */
module TableIterator {
  import opened Replay
  import opened SlotTable

  /** The live records from slot i of block b on, in block order. */
  function LiveFrom<R>(blocks: seq<seq<Slot<R>>>, b: nat, i: nat): seq<Address>
    decreases |blocks| - b, if b < |blocks| then |blocks[b]| - i else 0
  {
    if b >= |blocks| then []
    else if i >= |blocks[b]| then LiveFrom(blocks, b + 1, 0)
    else (if blocks[b][i].Occupied? then [Address(b, i)] else []) + LiveFrom(blocks, b, i + 1)
  }

  predicate Precedes(a: Address, a': Address) {
    a.block < a'.block || (a.block == a'.block && a.slot < a'.slot)
  }

  /** EACH LIVE RECORD ONCE, in block order: the sequence that the iterator walks holds
      exactly the live records, strictly increasing. */
  lemma {:induction false} LiveListed<R>(blocks: seq<seq<Slot<R>>>, b: nat, i: nat)
    ensures forall a :: a in LiveFrom(blocks, b, i) <==> Live(blocks, a) && (a == Address(b, i) || Precedes(Address(b, i), a))
    ensures forall j, k | 0 <= j < k < |LiveFrom(blocks, b, i)| :: Precedes(LiveFrom(blocks, b, i)[j], LiveFrom(blocks, b, i)[k])
    decreases |blocks| - b, if b < |blocks| then |blocks[b]| - i else 0
  {
    if b < |blocks| {
      if i >= |blocks[b]| {
        LiveListed(blocks, b + 1, 0);
      } else {
        LiveListed(blocks, b, i + 1);
        var rest := LiveFrom(blocks, b, i + 1);
        forall k | 0 <= k < |rest| ensures Precedes(Address(b, i), rest[k]) { assert rest[k] in rest; }
      }
    }
  }

  /** The blocks are those of a table that has at least one block. */
  predicate Walkable<R>(blocks: seq<seq<Slot<R>>>) {
    blocks != [] && forall b | 0 <= b < |blocks| :: blocks[b] != []
  }

  lemma PassSlot<R>(blocks: seq<seq<Slot<R>>>, b: nat, i: nat)
    requires b < |blocks| && i < |blocks[b]|
    ensures LiveFrom(blocks, b, i) == (if blocks[b][i].Occupied? then [Address(b, i)] else []) + LiveFrom(blocks, b, i + 1)
  {
  }

  class TableIterator<R> {
    const blocks: seq<seq<Slot<R>>>
    var curBlock: nat
    var mPtr: nat

    predicate Valid()
      reads this
    {
      Walkable(blocks) && curBlock < |blocks| && mPtr <= |blocks[curBlock]|
    }

    function Remaining(): seq<Address>
      reads this
    {
      LiveFrom(blocks, curBlock, mPtr)
    }

    constructor (blocks: seq<seq<Slot<R>>>)
      requires Walkable(blocks)
      ensures Valid() && this.blocks == blocks && Remaining() == LiveFrom(blocks, 0, 0)
    {
      this.blocks := blocks;
      curBlock, mPtr := 0, 0;
    }

    /** Moves to the next live record, if there is one. */
    method HasNext() returns (has: bool)
      requires Valid()
      modifies this
      ensures Valid() && Remaining() == old(Remaining()) && has == (Remaining() != [])
    {
      while curBlock + 1 < |blocks| || mPtr != |blocks[curBlock]|
        invariant Valid() && Remaining() == old(Remaining())
        decreases |blocks| - curBlock, |blocks[curBlock]| - mPtr
      {
        if mPtr == |blocks[curBlock]| {
          assert LiveFrom(blocks, curBlock, mPtr) == LiveFrom(blocks, curBlock + 1, 0);
          curBlock, mPtr := curBlock + 1, 0;
        }
        PassSlot(blocks, curBlock, mPtr);
        if blocks[curBlock][mPtr].Occupied? {
          return true;
        }
        mPtr := mPtr + 1;
      }
      assert LiveFrom(blocks, |blocks|, 0) == [];
      return false;
    }

    /** The next live record. */
    method Next() returns (ans: Address)
      requires Valid() && Remaining() != []
      modifies this
      ensures Valid() && [ans] + Remaining() == old(Remaining()) && Live(blocks, ans)
    {
      ans := Address(0, 0);
      while true
        invariant Valid() && Remaining() == old(Remaining())
        decreases |blocks| - curBlock, |blocks[curBlock]| - mPtr
      {
        if mPtr == |blocks[curBlock]| {
          assert LiveFrom(blocks, curBlock, mPtr) == LiveFrom(blocks, curBlock + 1, 0);
          assert LiveFrom(blocks, |blocks|, 0) == [];
          curBlock, mPtr := curBlock + 1, 0;
        }
        PassSlot(blocks, curBlock, mPtr);
        if blocks[curBlock][mPtr].Occupied? {
          ans := Address(curBlock, mPtr);
          mPtr := mPtr + 1;
          return;
        }
        mPtr := mPtr + 1;
      }
    }
  }

  /** The loop of every scan: the records that match, in block order. */
  function Matching<R>(blocks: seq<seq<Slot<R>>>, addresses: seq<Address>, matches: R -> bool): seq<Address> {
    if addresses == [] then []
    else
      var rest, a := Matching(blocks, addresses[..|addresses| - 1], matches), addresses[|addresses| - 1];
      if Live(blocks, a) && matches(At(blocks, a).data) then rest + [a] else rest
  }

  method Scan<R>(blocks: seq<seq<Slot<R>>>, matches: R -> bool) returns (found: seq<Address>)
    requires Walkable(blocks)
    ensures found == Matching(blocks, LiveFrom(blocks, 0, 0), matches)
  {
    found := [];
    var walk := new TableIterator(blocks);
    ghost var done: seq<Address> := [];
    var has := walk.HasNext();
    while has
      invariant walk.Valid() && walk.blocks == blocks && has == (walk.Remaining() != [])
      invariant done + walk.Remaining() == LiveFrom(blocks, 0, 0)
      invariant found == Matching(blocks, done, matches)
      decreases |walk.Remaining()|
    {
      ghost var before := walk.Remaining();
      var a := walk.Next();
      assert done + before == (done + [a]) + walk.Remaining();
      assert (done + [a])[..|done + [a]| - 1] == done;
      done := done + [a];
      if matches(blocks[a.block][a.slot].data) {
        found := found + [a];
      }
      has := walk.HasNext();
    }
    assert done + [] == done;
  }

  predicate Matches<R>(blocks: seq<seq<Slot<R>>>, a: Address, matches: R -> bool) {
    Live(blocks, a) && matches(At(blocks, a).data)
  }

  lemma {:induction false} MatchingListed<R>(blocks: seq<seq<Slot<R>>>, addresses: seq<Address>, matches: R -> bool)
    requires forall j, k | 0 <= j < k < |addresses| :: Precedes(addresses[j], addresses[k])
    ensures forall a :: a in Matching(blocks, addresses, matches) <==> a in addresses && Matches(blocks, a, matches)
    ensures forall j, k | 0 <= j < k < |Matching(blocks, addresses, matches)| ::
      Precedes(Matching(blocks, addresses, matches)[j], Matching(blocks, addresses, matches)[k])
  {
    if addresses != [] {
      var front, a := addresses[..|addresses| - 1], addresses[|addresses| - 1];
      assert addresses == front + [a];
      MatchingListed(blocks, front, matches);
      var rest := Matching(blocks, front, matches);
      forall j | 0 <= j < |rest| ensures Precedes(rest[j], a) {
        assert rest[j] in front;
      }
    }
  }

  /** A SCAN IS COMPLETE.  It returns each live record that matches once, in block order. */
  lemma ScanListed<R>(blocks: seq<seq<Slot<R>>>, matches: R -> bool)
    ensures
      var found := Matching(blocks, LiveFrom(blocks, 0, 0), matches);
      && (forall a :: a in found <==> Matches(blocks, a, matches))
      && (forall j, k | 0 <= j < k < |found| :: Precedes(found[j], found[k]))
  {
    LiveListed(blocks, 0, 0);
    MatchingListed(blocks, LiveFrom(blocks, 0, 0), matches);
  }

  lemma FirstMatch<R>(blocks: seq<seq<Slot<R>>>, done: seq<Address>, a: Address, rest: seq<Address>, matches: R -> bool)
    requires LiveFrom(blocks, 0, 0) == done + [a] + rest && forall b | b in done :: !Matches(blocks, b, matches)
    ensures forall b | Matches(blocks, b, matches) :: b == a || Precedes(a, b)
  {
    LiveListed(blocks, 0, 0);
    var all := LiveFrom(blocks, 0, 0);
    assert all[|done|] == a;
    forall j | 0 <= j < |done| ensures all[j] in done { assert all[j] == done[j]; }
    forall b | Matches(blocks, b, matches) ensures b == a || Precedes(a, b) {
      assert b in all;
      var k :| 0 <= k < |all| && all[k] == b;
    }
  }

  lemma NoMatch<R>(blocks: seq<seq<Slot<R>>>, done: seq<Address>, matches: R -> bool)
    requires LiveFrom(blocks, 0, 0) == done && forall b | b in done :: !Matches(blocks, b, matches)
    ensures forall b :: !Matches(blocks, b, matches)
  {
    LiveListed(blocks, 0, 0);
  }

  /** The scan of a select for one record stops at the first match. */
  method ScanFirst<R>(blocks: seq<seq<Slot<R>>>, matches: R -> bool) returns (found: Option<Address>)
    requires Walkable(blocks)
    ensures found.None? ==> forall a :: !Matches(blocks, a, matches)
    ensures found.Some? ==> Matches(blocks, found.value, matches)
    ensures found.Some? ==> forall a | Matches(blocks, a, matches) :: a == found.value || Precedes(found.value, a)
  {
    var walk := new TableIterator(blocks);
    ghost var done: seq<Address> := [];
    var has := walk.HasNext();
    while has
      invariant walk.Valid() && walk.blocks == blocks && has == (walk.Remaining() != [])
      invariant done + walk.Remaining() == LiveFrom(blocks, 0, 0)
      invariant forall a | a in done :: !Matches(blocks, a, matches)
      decreases |walk.Remaining()|
    {
      ghost var before := walk.Remaining();
      var a := walk.Next();
      assert done + before == (done + [a]) + walk.Remaining();
      if matches(blocks[a.block][a.slot].data) {
        FirstMatch(blocks, done, a, walk.Remaining(), matches);
        return Some(a);
      }
      done := done + [a];
      has := walk.HasNext();
    }
    assert done + [] == done;
    NoMatch(blocks, done, matches);
    return None;
  }
}
