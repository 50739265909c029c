/** A reorganisation that leaves neighbours in the LRU unlinked. */
module LruReorg {
  import opened Basics
  import opened Types
  import opened SimpleLru
  import opened LruStores
  import opened LruLinks

  const PARENT := Entry(10, 5, Some(9), Null)
  const CHILD := Entry(11, 6, Some(10), Null)
  const SIBLING := Entry(20, 5, Some(9), Null)

  /** The cache after block 5 and its child 6 came in. */
  function ParentAndChild(chain: ChainName): LruState {
    StoreOne(StoreOne(LruState(Empty(4), Empty(4)), chain, BlockHeader, PARENT), chain, BlockHeader, CHILD)
  }

  lemma ParentAndChildCached(chain: ChainName)
    ensures ParentAndChild(chain).byNumber
      == Lru(4, map[NumberKey(BlockHeader, 5, chain) := PARENT, NumberKey(BlockHeader, 6, chain) := CHILD],
             [NumberKey(BlockHeader, 5, chain), NumberKey(BlockHeader, 6, chain)])
  {
    var k5, k6 := NumberKey(BlockHeader, 5, chain), NumberKey(BlockHeader, 6, chain);
    var l: NumberLru := Empty(4);
    AddFresh(l, k5, PARENT);
    var l1 := Lru(4, map[k5 := PARENT], [k5]);
    assert l1 == Add(l, k5, PARENT);
    TouchOnly(l1, k5);
    AddFresh(l1, k6, CHILD);
  }

  lemma TouchOnly(l: NumberLru, k: NumberKey)
    requires l.order == [k]
    ensures Touch(l, k) == l
  {
    assert Without([k], k) == Without([k][..0], k) == [];
  }

  /** Without the proviso links do break: a sibling of a cached block leaves that block's old
      child in place above it. */
  lemma SiblingLeavesStaleChild(chain: ChainName)
    ensures LinkedBatch([SIBLING])
    ensures Linked(ParentAndChild(chain).byNumber)
    ensures !Linked(StoreOne(ParentAndChild(chain), chain, BlockHeader, SIBLING).byNumber)
  {
    ParentAndChildCached(chain);
    hide ParentAndChild, Without;
    var s := ParentAndChild(chain);
    var k5, k6 := NumberKey(BlockHeader, 5, chain), NumberKey(BlockHeader, 6, chain);
    var r := StoreOne(s, chain, BlockHeader, SIBLING).byNumber;
    assert r == Add(s.byNumber, k5, SIBLING);
    assert r.values == s.byNumber.values[k5 := SIBLING];
    assert !LinkedAt(r, chain, BlockHeader, 5);
  }
}
