/** Blocks, transactions and hash-linked chains.

    Hashes are idealised: the id of a block or of a transaction is the very content that
    is hashed.  Equal ids therefore mean equal content, an id determines its parent and
    its height, and no id can be its own ancestor. */
module Chain {

  datatype Option<+T> = None | Some(value: T)

  /** `address` is None when the output script has no address (NULL in the database). */
  datatype TxOut = TxOut(value: nat, address: Option<nat>)

  datatype OutPoint = OutPoint(tx: Tx, vout: nat)

  datatype Tx = Tx(coinbase: bool, ins: seq<OutPoint>, outs: seq<TxOut>, salt: nat)

  /** `Null` is the all-zero hash a genesis block points to. */
  datatype BlockId = Null | Hash(prev: BlockId, txs: seq<Tx>, nonce: nat)

  /** A block as the fetcher reports it: the height it was asked for and its id. */
  datatype Block = Block(height: nat, id: BlockId)

  /** All blocks from genesis up to and including `id`. */
  function Ancestors(id: BlockId): seq<BlockId> {
    match id
    case Null => []
    case Hash(prev, _, _) => Ancestors(prev) + [id]
  }

  /** The reported height is the real one. */
  predicate Genuine(b: Block) {
    b.id.Hash? && b.height + 1 == |Ancestors(b.id)|
  }

  /** What the next block on top of `c` must point to. */
  function Top(c: seq<BlockId>): BlockId {
    if c == [] then Null else c[|c| - 1]
  }

  /** Block `i` of `c` points to the block below it. */
  ghost predicate LinkedAt(c: seq<BlockId>, i: nat)
    requires i < |c|
  {
    c[i].Hash? && c[i].prev == if i == 0 then Null else c[i - 1]
  }

  ghost predicate IsChain(c: seq<BlockId>) {
    forall i | 0 <= i < |c| :: LinkedAt(c, i)
  }

  lemma {:induction false} ChainAncestors(c: seq<BlockId>)
    requires IsChain(c)
    ensures c == Ancestors(Top(c))
  {
    if c != [] {
      var init := c[..|c| - 1];
      assert LinkedAt(c, |c| - 1);
      ChainPrefix'(c, |c| - 1);
      ChainAncestors(init);
      assert c == init + [Top(c)];
    }
  }

  lemma ChainPrefix'(c: seq<BlockId>, n: nat)
    requires IsChain(c) && n <= |c|
    ensures IsChain(c[..n])
  {
    forall i | 0 <= i < n ensures LinkedAt(c[..n], i) {
      assert LinkedAt(c, i);
    }
  }

  lemma {:induction false} AncestorsChain(id: BlockId)
    ensures IsChain(Ancestors(id)) && Top(Ancestors(id)) == id
  {
    if id.Hash? {
      AncestorsChain(id.prev);
      ChainExtend'(Ancestors(id.prev), id);
    }
  }

  lemma ChainPrefix(c: seq<BlockId>, n: nat)
    requires IsChain(c) && n <= |c|
    ensures IsChain(c[..n])
    ensures n > 0 ==> c[..n] == Ancestors(c[n - 1])
  {
    ChainPrefix'(c, n);
    ChainAncestors(c[..n]);
  }

  lemma ChainHeight(c: seq<BlockId>, i: nat)
    requires IsChain(c) && i < |c|
    ensures |Ancestors(c[i])| == i + 1 && c[i].Hash?
    ensures Genuine(Block(i, c[i]))
    ensures c[i].prev == Top(c[..i])
  {
    ChainPrefix(c, i + 1);
    assert LinkedAt(c, i);
  }

  /** Two chains that share a block share everything below it. */
  lemma SharedBlock(a: seq<BlockId>, b: seq<BlockId>, i: nat, j: nat)
    requires IsChain(a) && IsChain(b) && i < |a| && j < |b| && a[i] == b[j]
    ensures i == j && a[..i + 1] == b[..i + 1]
  {
    ChainPrefix(a, i + 1);
    ChainPrefix(b, j + 1);
  }

  lemma ChainExtend'(c: seq<BlockId>, id: BlockId)
    requires IsChain(c) && id.Hash? && id.prev == Top(c)
    ensures IsChain(c + [id])
  {
    var d := c + [id];
    forall i | 0 <= i < |d| ensures LinkedAt(d, i) {
      assert i < |c| ==> LinkedAt(c, i);
    }
  }

  lemma ChainExtend(c: seq<BlockId>, id: BlockId)
    requires IsChain(c) && id.Hash? && id.prev == Top(c)
    ensures IsChain(c + [id]) && Ancestors(id) == c + [id]
  {
    ChainExtend'(c, id);
    ChainAncestors(c);
  }

  /** The reference chain of the tests: cut the chain at `h` and put `id` there; refuse to
      leave a gap. */
  function ChainInsert(c: seq<BlockId>, h: nat, id: BlockId): (r: Option<seq<BlockId>>)
    ensures r.None? <==> h > |c|
    ensures r.Some? ==> |r.value| == h + 1 && r.value[h] == id && r.value[..h] == c[..h]
  {
    if h > |c| then None else Some(c[..h] + [id])
  }

  /** The reference chain as the vector it is in the tests, truncated and pushed in place. */
  class ReferenceChain {
    var blocks: seq<BlockId>

    constructor ()
      ensures blocks == []
    {
      blocks := [];
    }

    /** `refused` stands for the failed assertion on a gap. */
    method Insert(height: nat, id: BlockId) returns (refused: bool)
      modifies this
      ensures refused <==> ChainInsert(old(blocks), height, id).None?
      ensures !refused ==> ChainInsert(old(blocks), height, id) == Some(blocks)
      ensures refused ==> blocks == old(blocks)
    {
      if height < |blocks| {
        blocks := blocks[..height];
      }
      if |blocks| != height {
        return true;
      }
      assert blocks == old(blocks)[..height];
      blocks := blocks + [id];
      return false;
    }
  }

  /** What a consumer may rely on: the block is genuine, leaves no gap above `c` and points
      to the block of `c` just below it. */
  predicate Fits(c: seq<BlockId>, b: Block) {
    b.height <= |c| && b.id.Hash? && b.id.prev == Top(c[..b.height])
  }

  /** `c` after a fitting block. */
  function Insert(c: seq<BlockId>, b: Block): (r: seq<BlockId>)
    requires b.height <= |c|
    ensures ChainInsert(c, b.height, b.id) == Some(r)
  {
    c[..b.height] + [b.id]
  }

  lemma InsertKeepsChain(c: seq<BlockId>, b: Block)
    requires IsChain(c) && Fits(c, b)
    ensures IsChain(Insert(c, b)) && Genuine(b)
  {
    ChainPrefix(c, b.height);
    ChainExtend(c[..b.height], b.id);
  }

  function Ids(bs: seq<Block>): (r: seq<BlockId>)
    ensures |r| == |bs|
  {
    if bs == [] then [] else Ids(bs[..|bs| - 1]) + [bs[|bs| - 1].id]
  }

  lemma {:induction false} IdsConcat(a: seq<Block>, b: seq<Block>)
    ensures Ids(a + b) == Ids(a) + Ids(b)
  {
    if b == [] {
      assert a + b == a;
    } else {
      assert (a + b)[..|a + b| - 1] == a + b[..|b| - 1];
      IdsConcat(a, b[..|b| - 1]);
    }
  }

  lemma {:induction false} IdsAt(bs: seq<Block>, i: nat)
    requires i < |bs|
    ensures Ids(bs)[i] == bs[i].id
  {
    if i < |bs| - 1 {
      IdsAt(bs[..|bs| - 1], i);
    }
  }

  function IdSet(bs: seq<Block>): set<BlockId> {
    set b | b in bs :: b.id
  }

  lemma IdSetConcat(a: seq<Block>, b: seq<Block>)
    ensures IdSet(a + b) == IdSet(a) + IdSet(b)
  {
    assert forall x :: x in a + b <==> x in a || x in b;
  }

  /** The blocks of `c` at heights lo..hi-1. */
  function Blocks(c: seq<BlockId>, lo: nat, hi: nat): (r: seq<Block>)
    requires lo <= hi <= |c|
    ensures |r| == hi - lo
  {
    if lo == hi then [] else Blocks(c, lo, hi - 1) + [Block(hi - 1, c[hi - 1])]
  }

  lemma {:induction false} BlocksMeaning(c: seq<BlockId>, lo: nat, hi: nat)
    requires lo <= hi <= |c|
    ensures Ids(Blocks(c, lo, hi)) == c[lo..hi]
    ensures forall i | 0 <= i < hi - lo :: Blocks(c, lo, hi)[i] == Block(lo + i, c[lo + i])
  {
    if lo < hi {
      BlocksMeaning(c, lo, hi - 1);
      assert Blocks(c, lo, hi)[..hi - 1 - lo] == Blocks(c, lo, hi - 1);
      assert c[lo..hi] == c[lo..hi - 1] + [c[hi - 1]];
    }
  }
}
