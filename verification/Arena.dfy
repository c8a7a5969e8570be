/** The block arena of the buffer cache (clh/cache.c:13-58). */
module Arena {
  import opened Sequences

  /** A slot of the arena, which is a node of the cache's tree. */
  class CacheNode {
    var mem: nat
    var memh: nat
    var left: CacheNode?
    var right: CacheNode?

    constructor ()
      ensures left == null && right == null
    {
      mem, memh, left, right := 0, 0, null, null;
    }
  }

  ghost predicate NoDup(q: seq<CacheNode>) {
    forall i, j | 0 <= i < j < |q| :: q[i] != q[j]
  }

  class Block {
    var next: Block?
    var count: nat
    const mem: seq<CacheNode>

    constructor (size: nat)
      ensures next == null && count == 0 && |mem| == size && NoDup(mem) && fresh(mem)
    {
      next, count := null, 0;
      var slots := [];
      while |slots| < size
        invariant |slots| <= size && NoDup(slots) && fresh(slots)
      {
        var node := new CacheNode();
        slots := slots + [node];
      }
      mem := slots;
    }
  }

  /** Every slot of the blocks, in order. */
  ghost function Slots(bs: seq<Block>): seq<CacheNode> {
    if bs == [] then [] else Slots(DropLast(bs)) + Last(bs).mem
  }

  /** The slots handed out, in the order they were. */
  ghost function Handed(bs: seq<Block>): seq<CacheNode>
    reads bs
    requires forall b | b in bs :: b.count <= |b.mem|
  {
    if bs == [] then [] else Handed(DropLast(bs)) + Last(bs).mem[..Last(bs).count]
  }

  lemma {:induction false} HandedAreSlots(bs: seq<Block>)
    requires forall b | b in bs :: b.count <= |b.mem|
    ensures forall n | n in Handed(bs) :: n in Slots(bs)
  {
    if bs != [] {
      HandedAreSlots(DropLast(bs));
    }
  }

  class Allocator {
    var firstBlock: Block
    var lastBlock: Block
    const blockSize: nat
    ghost var blocks: seq<Block>
    ghost var slots: seq<CacheNode>   // every slot of the blocks
    ghost var used: seq<CacheNode>    // the slots handed out, in order

    /** The blocks are chained, all but the last are full, and no two slots
        are the same object. */
    ghost predicate Valid()
      reads this, blocks
    {
      && 0 < blockSize && blocks != []
      && firstBlock == blocks[0] && lastBlock == Last(blocks)
      && (forall i | 0 <= i < |blocks| :: |blocks[i].mem| == blockSize && blocks[i].count <= blockSize)
      && (forall i | 0 <= i < |blocks| - 1 :: blocks[i].count == blockSize && blocks[i].next == blocks[i + 1])
      && Last(blocks).next == null
      && (forall i, j | 0 <= i < j < |blocks| :: blocks[i] != blocks[j])
      && slots == Slots(blocks) && NoDup(slots)
      && used == Handed(blocks)
    }

    /** buffer_cache_node_allocator_create */
    constructor (blockSize: nat)
      requires blockSize > 0
      ensures Valid() && used == [] && this.blockSize == blockSize && fresh(blocks)
      ensures forall n | n in slots :: fresh(n)
    {
      this.blockSize := blockSize;
      var block := new Block(blockSize);
      firstBlock, lastBlock, blocks := block, block, [block];
      slots, used := block.mem, [];
      new;
      OneBlock(block);
    }

    /** The branch that appends a block to the chain. */
    method Grow()
      requires Valid() && lastBlock.count >= blockSize
      modifies this`lastBlock, this`blocks, this`slots, lastBlock`next
      ensures Valid() && used == old(used) && lastBlock.count < blockSize
      ensures blocks == old(blocks) + [lastBlock] && fresh(lastBlock)
      ensures slots == old(slots) + lastBlock.mem && fresh(lastBlock.mem)
    {
      hide Slots, Handed, NoDup;
      var block := new Block(blockSize);
      SlotsApart(slots, block.mem);
      lastBlock.next := block;
      lastBlock := block;
      blocks, slots := blocks + [block], slots + block.mem;
      SameCounts(old(blocks));
      SlotsMore(old(blocks), block);
      assert forall i | 0 <= i < |blocks| - 1 :: blocks[i].next == blocks[i + 1];
    }

    /** The next slot of the last block. */
    method HandOut() returns (node: CacheNode)
      requires Valid() && lastBlock.count < blockSize
      modifies this`used, lastBlock`count
      ensures Valid() && node !in old(used) && used == old(used) + [node]
      ensures node in slots
    {
      hide Slots, Handed, NoDup;
      NextUnused(blocks, lastBlock.count);
      node := lastBlock.mem[lastBlock.count];
      lastBlock.count := lastBlock.count + 1;
      used := used + [node];
      HandedMore(blocks);
    }

    /** buffer_cache_node_allocator_create_node: a slot never handed out before. */
    method CreateNode() returns (node: CacheNode)
      requires Valid()
      modifies this, lastBlock
      ensures Valid() && node !in old(used) && used == old(used) + [node]
      ensures lastBlock == old(lastBlock) || fresh(lastBlock)
      ensures forall n | n in slots :: n in old(slots) || fresh(n)
      ensures node in slots
    {
      hide Slots, Handed, NoDup;
      if lastBlock.count >= blockSize {
        Grow();
      }
      node := HandOut();
    }

    /** buffer_cache_node_allocator_destroy: along the chain, one unmap for each
        slot ever handed out, with the handle the slot holds now. */
    method Destroy() returns (unmapped: seq<nat>)
      requires Valid()
      ensures unmapped == old(Handles(used))
    {
      hide Slots, NoDup;
      unmapped := [];
      var cur: Block? := firstBlock;
      ghost var k := 0;
      while cur != null
        invariant k <= |blocks| && cur == (if k < |blocks| then blocks[k] else null)
        invariant unmapped == Handles(Handed(blocks[..k]))
        decreases |blocks| - k
      {
        var block: Block := cur;
        cur := cur.next;
        ghost var before := Handed(blocks[..k]);
        var i := 0;
        while i < block.count
          invariant i <= block.count
          invariant unmapped == Handles(before + block.mem[..i])
        {
          unmapped := unmapped + [block.mem[i].memh];
          i := i + 1;
        }
        assert DropLast(blocks[..k + 1]) == blocks[..k];
        k := k + 1;
      }
      assert blocks[..k] == blocks;
    }
  }

  /** The memory handles in a sequence of nodes. */
  ghost function Handles(q: seq<CacheNode>): seq<nat>
    reads q
  {
    seq(|q|, i requires 0 <= i < |q| reads q => q[i].memh)
  }

  lemma OneBlock(b: Block)
    ensures Slots([b]) == b.mem
    ensures b.count == 0 ==> Handed([b]) == []
  {
    assert DropLast([b]) == [];
  }

  lemma SlotsMore(bs: seq<Block>, b: Block)
    ensures Slots(bs + [b]) == Slots(bs) + b.mem
    ensures (forall c | c in bs :: c.count <= |c.mem|) && b.count == 0 ==> Handed(bs + [b]) == Handed(bs)
  {
    assert DropLast(bs + [b]) == bs;
  }

  lemma SlotsApart(q: seq<CacheNode>, r: seq<CacheNode>)
    requires NoDup(q) && NoDup(r)
    ensures (forall n | n in r :: n !in q) ==> NoDup(q + r)
  {
    if forall n | n in r :: n !in q {
      forall i, j | 0 <= i < j < |q + r|
        ensures (q + r)[i] != (q + r)[j]
      {
        if i < |q| <= j {
          assert q[i] in q && r[j - |q|] in r;
        }
      }
    }
  }

  /** Relinking does not change what was handed out. */
  twostate lemma SameCounts(bs: seq<Block>)
    requires forall b | b in bs :: old(b.count) == b.count <= |b.mem|
    ensures Handed(bs) == old(Handed(bs))
  {
    if bs != [] {
      SameCounts(DropLast(bs));
    }
  }

  /** The next slot of the last block is not among those handed out. */
  lemma NextUnused(bs: seq<Block>, k: nat)
    requires bs != [] && (forall b | b in bs :: b.count <= |b.mem|) && NoDup(Slots(bs))
    requires k == Last(bs).count < |Last(bs).mem|
    ensures Last(bs).mem[k] !in Handed(bs) && Last(bs).mem[k] in Slots(bs)
  {
    HandedAreSlots(DropLast(bs));
    var q, m := Slots(DropLast(bs)), Last(bs).mem;
    assert Slots(bs) == q + m;
    assert forall i | 0 <= i < |q| :: Slots(bs)[i] == q[i];
    assert Slots(bs)[|q| + k] == m[k];
    assert forall i | 0 <= i < k :: Slots(bs)[|q| + i] == m[i];
  }

  /** Counting one more slot of the last block hands out that slot. */
  twostate lemma HandedMore(bs: seq<Block>)
    requires bs != [] && (forall b | b in DropLast(bs) :: old(b.count) == b.count <= |b.mem|)
    requires old(Last(bs).count) < |Last(bs).mem| && Last(bs).count == old(Last(bs).count) + 1
    ensures (forall b | b in bs :: old(b.count) <= |b.mem| && b.count <= |b.mem|)
    ensures Handed(bs) == old(Handed(bs)) + [Last(bs).mem[old(Last(bs).count)]]
  {
    SameCounts(DropLast(bs));
  }

  /** Writes that leave the handles alone leave them alone. */
  twostate lemma HandlesKept(q: seq<CacheNode>)
    requires forall n | n in q :: n.memh == old(n.memh)
    ensures Handles(q) == old(Handles(q))
  {
    assert forall i | 0 <= i < |q| :: q[i] in q;
  }
}
