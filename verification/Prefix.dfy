/** The exact prefix index of one worker: hash chains over whole blocks, and what publishing,
    forgetting and looking up do to the index. */
module PrefixIndex {
  import opened Common
  import opened PoolState

  type Token = nat
  type Hash = nat

  /** One step of the running hash. */
  type Step = (Hash, Token) -> Hash

  /** The running hash after `tokens`. */
  function Fold(step: Step, seed: Hash, tokens: seq<Token>): Hash {
    if tokens == [] then seed else step(Fold(step, seed, tokens[..|tokens| - 1]), tokens[|tokens| - 1])
  }

  function AtLeastOne(n: nat): (m: nat)
    ensures m >= 1
  {
    if n >= 1 then n else 1
  }

  lemma WholeBlocks(i: nat, bs: nat, n: nat)
    requires bs >= 1
    ensures i <= n / bs <==> i * bs <= n
  {
    var d := n / bs;
    assert n == d * bs + n % bs;
    assert i <= d ==> i * bs <= d * bs;
    assert i > d ==> i * bs >= (d + 1) * bs == d * bs + bs;
  }

  /** The tokens of the first `i` blocks. */
  function Blocks(tokens: seq<Token>, bs: nat, i: nat): seq<Token>
    requires bs >= 1 && i <= |tokens| / bs
  {
    WholeBlocks(i, bs, |tokens|);
    tokens[..i * bs]
  }

  /** One hash for each whole block, covering every token up to its end. */
  function BlockHashes(step: Step, seed: Hash, tokens: seq<Token>, bs: nat): seq<Hash>
    requires bs >= 1
  {
    seq(|tokens| / bs, i requires 0 <= i < |tokens| / bs => Fold(step, seed, Blocks(tokens, bs, i + 1)))
  }

  /** The prefixes that end with each whole block. */
  function Prefixes(tokens: seq<Token>, bs: nat): (ps: seq<seq<Token>>)
    requires bs >= 1
    ensures |ps| == |tokens| / bs
  {
    seq(|tokens| / bs, i requires 0 <= i < |tokens| / bs => Blocks(tokens, bs, i + 1))
  }

  method ComputeHashes(step: Step, seed: Hash, tokens: seq<Token>, blockSize: nat) returns (out: seq<Hash>)
    ensures out == BlockHashes(step, seed, tokens, AtLeastOne(blockSize))
  {
    var bs := AtLeastOne(blockSize);
    out := [];
    var h := seed;
    for i := 0 to |tokens| / bs
      invariant out == BlockHashes(step, seed, tokens, bs)[..i]
      invariant h == Fold(step, seed, Blocks(tokens, bs, i))
    {
      WholeBlocks(i, bs, |tokens|);
      WholeBlocks(i + 1, bs, |tokens|);
      assert (i + 1) * bs == i * bs + bs;
      for j := 0 to bs
        invariant h == Fold(step, seed, tokens[..i * bs + j])
      {
        var k := i * bs + j;
        assert tokens[..k + 1][..k] == tokens[..k];
        h := step(h, tokens[k]);
      }
      out := out + [h];
    }
  }

  /** The hashes of a prompt start with those of every prompt it extends. */
  lemma HashesExtend(step: Step, seed: Hash, tokens: seq<Token>, more: seq<Token>, bs: nat)
    requires bs >= 1 && tokens <= more
    ensures BlockHashes(step, seed, tokens, bs) <= BlockHashes(step, seed, more, bs)
  {
    var a, b := BlockHashes(step, seed, tokens, bs), BlockHashes(step, seed, more, bs);
    FewerBlocks(|tokens|, |more|, bs);
    forall i | 0 <= i < |a| ensures a[i] == b[i] {
      SameBlocks(tokens, more, bs, i + 1);
    }
  }

  lemma FewerBlocks(n: nat, m: nat, bs: nat)
    requires bs >= 1 && n <= m
    ensures n / bs <= m / bs
  {
    WholeBlocks(n / bs, bs, n);
    WholeBlocks(n / bs, bs, m);
  }

  lemma SameBlocks(tokens: seq<Token>, more: seq<Token>, bs: nat, i: nat)
    requires bs >= 1 && tokens <= more && i <= |tokens| / bs && i <= |more| / bs
    ensures Blocks(tokens, bs, i) == Blocks(more, bs, i)
  {
    WholeBlocks(i, bs, |tokens|);
  }

  /** The two maps of the index, and the prefix each indexed block was published for. */
  datatype Index = Index(
    byHash: map<Hash, Block>, byBlock: map<Block, Hash>, published: map<Block, seq<Token>>)

  ghost predicate Inverse(x: Index) {
    && (forall h | h in x.byHash :: x.byHash[h] in x.byBlock && x.byBlock[x.byHash[h]] == h)
    && (forall b | b in x.byBlock :: x.byBlock[b] in x.byHash && x.byHash[x.byBlock[b]] == b)
  }

  /** Each indexed block is indexed under the hash of the prefix it was published for. */
  ghost predicate Faithful(x: Index, step: Step, seed: Hash) {
    forall b | b in x.byBlock :: b in x.published && x.byBlock[b] == Fold(step, seed, x.published[b])
  }

  function Publish(x: Index, h: Hash, b: Block, prefix: seq<Token>): Index {
    var gone := if h in x.byHash && x.byHash[h] != b then {x.byHash[h]} else {};
    Index(x.byHash[h := b], (x.byBlock - gone)[b := h], x.published[b := prefix])
  }

  /** Publishes the first `n` hashes with their blocks. */
  function PublishFirst(x: Index, hs: seq<Hash>, bs: seq<Block>, ps: seq<seq<Token>>, n: nat): Index
    requires n <= |hs| && n <= |bs| && n <= |ps|
  {
    if n == 0 then x else Publish(PublishFirst(x, hs, bs, ps, n - 1), hs[n - 1], bs[n - 1], ps[n - 1])
  }

  function Forget(x: Index, b: Block): Index {
    if b in x.byBlock then Index(x.byHash - {x.byBlock[b]}, x.byBlock - {b}, x.published) else x
  }

  function ForgetAll(x: Index, bs: seq<Block>): Index {
    if bs == [] then x else Forget(ForgetAll(x, bs[..|bs| - 1]), bs[|bs| - 1])
  }

  /** Every indexed block belongs to the pool. */
  predicate Within(x: Index, p: Pool) {
    forall h | h in x.byHash :: x.byHash[h] < |p.refcount|
  }

  predicate Hit(x: Index, p: Pool, h: Hash)
    requires Within(x, p)
  {
    h in x.byHash && Live(p, x.byHash[h])
  }

  /** How many of the leading hashes hit. */
  function ChainLength(x: Index, p: Pool, hs: seq<Hash>, from: nat): (n: nat)
    requires Within(x, p) && from <= |hs|
    ensures from <= n <= |hs|
    ensures forall i | from <= i < n :: Hit(x, p, hs[i])
    ensures n < |hs| ==> !Hit(x, p, hs[n])
    decreases |hs| - from
  {
    if from == |hs| || !Hit(x, p, hs[from]) then from else ChainLength(x, p, hs, from + 1)
  }

  /** The pool after the first `n` hashes, all of them hits, have each taken a reference. */
  function AfterHits(x: Index, p: Pool, hs: seq<Hash>, n: nat): (q: Pool)
    requires Within(x, p) && n <= ChainLength(x, p, hs, 0)
    ensures |q.refcount| == |p.refcount|
    ensures forall b: Block | b < |p.refcount| :: Live(p, b) <==> Live(q, b)
  {
    if n == 0 then p
    else
      assert Hit(x, p, hs[n - 1]);
      var q := AfterHits(x, p, hs, n - 1);
      ReacquiredLive(q, x.byHash[hs[n - 1]]);
      Reacquired(q, x.byHash[hs[n - 1]])
  }

  /** The blocks of the first `n` hashes. */
  function BlocksOf(x: Index, p: Pool, hs: seq<Hash>, n: nat): seq<Block>
    requires Within(x, p) && n <= ChainLength(x, p, hs, 0)
  {
    if n == 0 then []
    else
      assert Hit(x, p, hs[n - 1]);
      BlocksOf(x, p, hs, n - 1) + [x.byHash[hs[n - 1]]]
  }

  lemma ReacquiredLive(p: Pool, b: Block)
    requires b < |p.refcount| && Live(p, b)
    ensures forall c: Block | c < |p.refcount| :: Live(p, c) <==> Live(Reacquired(p, b), c)
  {
    var q := Reacquired(p, b);
    if b in p.cached {
      var i := IndexIn(p.cached, b);
      forall c: Block | c < |p.refcount| ensures Live(p, c) <==> Live(q, c) {
        if c in p.cached && c != b {
          var k :| 0 <= k < |p.cached| && p.cached[k] == c;
          assert q.cached[if k < i then k else k - 1] == c;
        }
        if c in q.cached {
          var k :| 0 <= k < |q.cached| && q.cached[k] == c;
          assert p.cached[if k < i then k else k + 1] == c;
        }
      }
    }
  }

  /** The index after a lookup: an entry whose page the pool has given away is dropped. */
  function AfterLookup(x: Index, p: Pool, hs: seq<Hash>): Index
    requires Within(x, p)
  {
    var n := ChainLength(x, p, hs, 0);
    if n < |hs| && hs[n] in x.byHash
    then Index(x.byHash - {hs[n]}, x.byBlock - {x.byHash[hs[n]]}, x.published)
    else x
  }
}

/** The cache object. */
module PrefixCaches {
  import opened Common
  import opened PoolState
  import opened BlockPools
  import opened PrefixIndex

  /** From index `x` and pool `p`, following `hs` gave `blocks` and left `y` and `q`, counting hits and
      misses. */
  ghost predicate Followed(
    x: Index, p: Pool, hs: seq<Hash>, blocks: seq<Block>, y: Index, q: Pool, hits: int, misses: int)
    requires Within(x, p)
  {
    var n := ChainLength(x, p, hs, 0);
    && blocks == BlocksOf(x, p, hs, n)
    && q == AfterHits(x, p, hs, n) && y == AfterLookup(x, p, hs)
    && hits == n && misses == if n < |hs| then 1 else 0
  }

  /** Following stops after the hit before `n`, at the first miss or the end. */
  lemma FollowedTo(x: Index, p: Pool, hs: seq<Hash>, n: nat, blocks: seq<Block>, y: Index, q: Pool)
    requires Within(x, p) && n <= ChainLength(x, p, hs, 0)
    requires n < |hs| ==> !Hit(x, p, hs[n])
    requires blocks == BlocksOf(x, p, hs, n) && q == AfterHits(x, p, hs, n)
    requires y == if n < |hs| && hs[n] in x.byHash
      then Index(x.byHash - {hs[n]}, x.byBlock - {x.byHash[hs[n]]}, x.published) else x
    ensures Followed(x, p, hs, blocks, y, q, n, if n < |hs| then 1 else 0)
  {
  }

  /** Whether the next hash hits shows in the pool that the hits so far have left. A hit lets the chain
      run on, and its block takes a reference. */
  lemma NextHit(x: Index, p: Pool, hs: seq<Hash>, i: nat, block: Block, q: Pool, blocks: seq<Block>)
    requires Within(x, p) && i < |hs| && i <= ChainLength(x, p, hs, 0)
    requires hs[i] in x.byHash && block == x.byHash[hs[i]]
    requires q == AfterHits(x, p, hs, i) && blocks == BlocksOf(x, p, hs, i)
    ensures block < |q.refcount| && (Hit(x, p, hs[i]) <==> Live(q, block))
    ensures Live(q, block) ==> (
      && i + 1 <= ChainLength(x, p, hs, 0)
      && AfterHits(x, p, hs, i + 1) == Reacquired(q, block)
      && BlocksOf(x, p, hs, i + 1) == blocks + [block])
  {
  }

  class PrefixCache {
    const blockSize: nat
    const enabled: bool
    const step: Step
    const seed: Hash
    var byHash: map<Hash, Block>
    var byBlock: map<Block, Hash>
    var hits: nat
    var misses: nat
    /** The prefix each block was last published for. */
    ghost var published: map<Block, seq<Token>>

    ghost function State(): Index
      reads this
    {
      Index(byHash, byBlock, published)
    }

    constructor (blockSize: nat, enabled: bool, step: Step, seed: Hash)
      ensures State() == Index(map[], map[], map[]) && hits == 0 && misses == 0
      ensures this.blockSize == blockSize && this.enabled == enabled
      ensures this.step == step && this.seed == seed
    {
      this.blockSize, this.enabled, this.step, this.seed := blockSize, enabled, step, seed;
      byHash, byBlock, published, hits, misses := map[], map[], map[], 0, 0;
    }

    function Bs(): (n: nat)
      ensures n >= 1
    {
      AtLeastOne(blockSize)
    }

    /** The longest chain of indexed live blocks, each with one more reference. */
    method Lookup(tokens: seq<Token>, pool: BlockPool) returns (count: nat, blocks: seq<Block>)
      requires Within(State(), pool.State())
      modifies this`byHash, this`byBlock, this`hits, this`misses, pool`cached, pool.refcount
      ensures count == |blocks| * blockSize
      ensures !enabled ==> blocks == [] && State() == old(State()) && pool.State() == old(pool.State())
      ensures !enabled ==> hits == old(hits) && misses == old(misses) + |tokens| / Bs()
      ensures enabled ==>
        Followed(old(State()), old(pool.State()), BlockHashes(step, seed, tokens, Bs()), blocks,
                 State(), pool.State(), hits - old(hits), misses - old(misses))
    {
      count, blocks := 0, [];
      if !enabled {
        misses := misses + |tokens| / AtLeastOne(blockSize);
        return;
      }
      var hs := ComputeHashes(step, seed, tokens, blockSize);
      blocks := FollowChain(hs, pool);
      count := |blocks| * blockSize;
    }

    /** Takes references along the chain of hashes until the first that misses. */
    method FollowChain(hs: seq<Hash>, pool: BlockPool) returns (blocks: seq<Block>)
      requires Within(State(), pool.State())
      modifies this`byHash, this`byBlock, this`hits, this`misses, pool`cached, pool.refcount
      ensures Followed(old(State()), old(pool.State()), hs, blocks,
                       State(), pool.State(), hits - old(hits), misses - old(misses))
    {
      ghost var x, p := State(), pool.State();
      blocks := [];
      for i := 0 to |hs|
        invariant i <= ChainLength(x, p, hs, 0) && State() == x
        invariant blocks == BlocksOf(x, p, hs, i)
        invariant pool.State() == AfterHits(x, p, hs, i)
        invariant hits == old(hits) + i && misses == old(misses)
      {
        var h := hs[i];
        if h !in byHash {
          misses := misses + 1;
          FollowedTo(x, p, hs, i, blocks, State(), pool.State());
          return;
        }
        var block := byHash[h];
        NextHit(x, p, hs, i, block, pool.State(), blocks);
        var ok := pool.Reacquire(block);
        if !ok {
          byHash := byHash - {h};
          byBlock := byBlock - {block};
          misses := misses + 1;
          FollowedTo(x, p, hs, i, blocks, State(), pool.State());
          return;
        }
        blocks := blocks + [block];
        hits := hits + 1;
      }
      FollowedTo(x, p, hs, |hs|, blocks, State(), pool.State());
    }

    method PublishOne(h: Hash, b: Block, ghost prefix: seq<Token>)
      modifies this`byHash, this`byBlock, this`published
      ensures State() == Publish(old(State()), h, b, prefix)
    {
      if h in byHash {
        var prev := byHash[h];
        byHash := byHash[h := b];
        if prev != b {
          byBlock := byBlock - {prev};
        }
      } else {
        byHash := byHash[h := b];
      }
      byBlock := byBlock[b := h];
      published := published[b := prefix];
    }

    /** Publishes freshly computed blocks under the hashes of the prefixes they complete. */
    method Insert(tokens: seq<Token>, blocks: seq<Block>)
      modifies this`byHash, this`byBlock, this`published
      ensures !enabled ==> State() == old(State())
      ensures enabled ==>
        var hs := BlockHashes(step, seed, tokens, Bs());
        State() == PublishFirst(old(State()), hs, blocks, Prefixes(tokens, Bs()), MinNat(|hs|, |blocks|))
    {
      if !enabled {
        return;
      }
      var hs := ComputeHashes(step, seed, tokens, blockSize);
      ghost var ps := Prefixes(tokens, Bs());
      ghost var x := State();
      for i := 0 to MinNat(|hs|, |blocks|)
        invariant State() == PublishFirst(x, hs, blocks, ps, i)
      {
        PublishOne(hs[i], blocks[i], ps[i]);
      }
    }

    method Forget(blocks: seq<Block>)
      modifies this`byHash, this`byBlock
      ensures State() == ForgetAll(old(State()), blocks)
    {
      for i := 0 to |blocks|
        invariant State() == ForgetAll(old(State()), blocks[..i])
      {
        assert blocks[..i + 1][..i] == blocks[..i];
        var b := blocks[i];
        if b in byBlock {
          var h := byBlock[b];
          byBlock := byBlock - {b};
          byHash := byHash - {h};
        }
      }
      assert blocks[..|blocks|] == blocks;
    }
  }
}

/** What keeps the index right, and what a lookup then means. */
module PrefixLaws {
  import opened Common
  import opened PoolState
  import opened PrefixIndex
  import opened PoolLaws

  /** Publishing a block keeps the two maps mutually inverse exactly when the block is not indexed
      under another hash. */
  lemma PublishKeepsInverseIff(x: Index, h: Hash, b: Block, prefix: seq<Token>)
    requires Inverse(x)
    ensures Inverse(Publish(x, h, b, prefix)) <==> (b in x.byBlock ==> x.byBlock[b] == h)
  {
    var y := Publish(x, h, b, prefix);
    if b in x.byBlock && x.byBlock[b] != h {
      var left := x.byBlock[b];
      assert y.byHash[left] == b && y.byBlock[b] == h;
    }
  }

  /** For example: block 0, indexed under hash 1, is published again under hash 2; both now lead to it,
      and it leads back to 2 alone. */
  lemma RepublishedUnderTwo()
    ensures var x := Index(map[1 := 0], map[0 := 1], map[0 := [7]]);
      && Inverse(x)
      && Publish(x, 2, 0, [8]) == Index(map[1 := 0, 2 := 0], map[0 := 2], map[0 := [8]])
      && !Inverse(Publish(x, 2, 0, [8]))
  {
    var x := Index(map[1 := 0], map[0 := 1], map[0 := [7]]);
    PublishKeepsInverseIff(x, 2, 0, [8]);
  }

  lemma PublishKeepsFaithful(x: Index, h: Hash, b: Block, prefix: seq<Token>, step: Step, seed: Hash)
    requires Faithful(x, step, seed) && h == Fold(step, seed, prefix)
    ensures Faithful(Publish(x, h, b, prefix), step, seed)
  {
  }

  /** A whole insertion keeps the index right when its blocks are distinct and none is indexed under
      a hash other than its own. */
  lemma {:induction false} InsertKeepsRight(
      x: Index, hs: seq<Hash>, bs: seq<Block>, ps: seq<seq<Token>>, n: nat, step: Step, seed: Hash)
    requires n <= |hs| && n <= |bs| && n <= |ps| && Inverse(x) && Faithful(x, step, seed)
    requires forall i | 0 <= i < n :: hs[i] == Fold(step, seed, ps[i])
    requires forall i, j | 0 <= i < j < n :: bs[i] != bs[j]
    requires forall i | 0 <= i < n && bs[i] in x.byBlock :: x.byBlock[bs[i]] == hs[i]
    ensures var y := PublishFirst(x, hs, bs, ps, n);
      && Inverse(y) && Faithful(y, step, seed)
      && forall b | b in y.byBlock && (forall i | 0 <= i < n :: bs[i] != b) ::
           b in x.byBlock && y.byBlock[b] == x.byBlock[b]
  {
    if n > 0 {
      InsertKeepsRight(x, hs, bs, ps, n - 1, step, seed);
      var y := PublishFirst(x, hs, bs, ps, n - 1);
      PublishKeepsInverseIff(y, hs[n - 1], bs[n - 1], ps[n - 1]);
      PublishKeepsFaithful(y, hs[n - 1], bs[n - 1], ps[n - 1], step, seed);
    }
  }

  lemma {:induction false} ForgetKeepsRight(x: Index, bs: seq<Block>, step: Step, seed: Hash)
    requires Inverse(x) && Faithful(x, step, seed)
    ensures var y := ForgetAll(x, bs);
      && Inverse(y) && Faithful(y, step, seed)
      && forall b :: b in y.byBlock <==> b in x.byBlock && b !in bs
  {
    if bs != [] {
      ForgetKeepsRight(x, bs[..|bs| - 1], step, seed);
      assert bs == bs[..|bs| - 1] + [bs[|bs| - 1]];
    }
  }

  lemma LookupKeepsRight(x: Index, p: Pool, hs: seq<Hash>, step: Step, seed: Hash)
    requires Inverse(x) && Faithful(x, step, seed) && Within(x, p)
    ensures Inverse(AfterLookup(x, p, hs)) && Faithful(AfterLookup(x, p, hs), step, seed)
  {
  }

  /** The first miss leaves no entry behind; every other hash keeps its own, and so does every other block. */
  lemma LookupDropsDead(x: Index, p: Pool, hs: seq<Hash>)
    requires Within(x, p)
    ensures var n, y := ChainLength(x, p, hs, 0), AfterLookup(x, p, hs);
      && (n < |hs| ==> hs[n] !in y.byHash)
      && y.byHash.Keys <= x.byHash.Keys && y.byBlock.Keys <= x.byBlock.Keys
      && (forall h | h in x.byHash && (n < |hs| ==> h != hs[n]) ::
            h in y.byHash && y.byHash[h] == x.byHash[h])
      && (forall b | b in x.byBlock ::
            if n < |hs| && hs[n] in x.byHash && x.byHash[hs[n]] == b then b !in y.byBlock
            else b in y.byBlock && y.byBlock[b] == x.byBlock[b])
  {
  }

  /** Looking the same prompt up again finds the same blocks and changes nothing more. */
  lemma LookupAgain(x: Index, p: Pool, hs: seq<Hash>)
    requires Within(x, p)
    ensures var n := ChainLength(x, p, hs, 0);
      var y, q := AfterLookup(x, p, hs), AfterHits(x, p, hs, n);
      && Within(y, q) && ChainLength(y, q, hs, 0) == n
      && BlocksOf(y, q, hs, n) == BlocksOf(x, p, hs, n) && AfterLookup(y, q, hs) == y
  {
    var n := ChainLength(x, p, hs, 0);
    var y, q := AfterLookup(x, p, hs), AfterHits(x, p, hs, n);
    LookupDropsDead(x, p, hs);
    forall i | 0 <= i < n ensures Hit(y, q, hs[i]) {
      assert Hit(x, p, hs[i]);
    }
    ChainIs(y, q, hs, 0, n);
    BlocksOfAt(x, p, hs, n);
    BlocksOfAt(y, q, hs, n);
  }

  lemma {:induction false} ChainIs(x: Index, p: Pool, hs: seq<Hash>, from: nat, n: nat)
    requires Within(x, p) && from <= n <= |hs|
    requires forall i | from <= i < n :: Hit(x, p, hs[i])
    requires n < |hs| ==> !Hit(x, p, hs[n])
    ensures ChainLength(x, p, hs, from) == n
    decreases n - from
  {
    if from < n {
      ChainIs(x, p, hs, from + 1, n);
    }
  }

  // --------------------------------------------------- what a lookup returns

  /** No different published prefix shares its hash with this one. */
  ghost predicate Unshared(x: Index, step: Step, seed: Hash, prefix: seq<Token>) {
    forall b | b in x.byBlock && b in x.published ::
      Fold(step, seed, x.published[b]) == Fold(step, seed, prefix) ==> x.published[b] == prefix
  }

  /** None of the prefixes shares its hash with a different published prefix. */
  ghost predicate CollisionFree(x: Index, step: Step, seed: Hash, ps: seq<seq<Token>>) {
    forall i | 0 <= i < |ps| :: Unshared(x, step, seed, ps[i])
  }

  predicate PublishedAs(x: Index, b: Block, prefix: seq<Token>) {
    b in x.published && x.published[b] == prefix
  }

  ghost predicate Hashed(step: Step, seed: Hash, hs: seq<Hash>, ps: seq<seq<Token>>) {
    |hs| == |ps| && forall i | 0 <= i < |ps| :: hs[i] == Fold(step, seed, ps[i])
  }

  /** The hashes of a prompt are those of its prefixes, which all differ. */
  lemma PromptHashed(step: Step, seed: Hash, tokens: seq<Token>, bs: nat)
    requires bs >= 1
    ensures Hashed(step, seed, BlockHashes(step, seed, tokens, bs), Prefixes(tokens, bs))
    ensures Distinct(Prefixes(tokens, bs))
  {
    var ps := Prefixes(tokens, bs);
    forall i, j | 0 <= i < j < |ps| ensures ps[i] != ps[j] {
      BlocksGrow(tokens, bs, i + 1, j + 1);
    }
  }

  lemma BlocksGrow(tokens: seq<Token>, bs: nat, i: nat, j: nat)
    requires bs >= 1 && i < j <= |tokens| / bs
    ensures Blocks(tokens, bs, i) != Blocks(tokens, bs, j)
  {
    BlocksLength(tokens, bs, i);
    BlocksLength(tokens, bs, j);
    MoreTimes(i, j, bs);
  }

  lemma BlocksLength(tokens: seq<Token>, bs: nat, i: nat)
    requires bs >= 1 && i <= |tokens| / bs
    ensures |Blocks(tokens, bs, i)| == i * bs
  {
    WholeBlocks(i, bs, |tokens|);
  }

  lemma MoreTimes(i: nat, j: nat, n: nat)
    requires i < j && n >= 1
    ensures i * n < j * n
  {
    assert j * n == i * n + (j - i) * n && (j - i) * n >= 1;
  }

  /** The hash of a prefix leads to a block published for that prefix, if to any; and a block published
      for it is the one its hash leads to. */
  lemma HashNames(x: Index, step: Step, seed: Hash, h: Hash, prefix: seq<Token>)
    requires Inverse(x) && Faithful(x, step, seed) && Unshared(x, step, seed, prefix)
    requires h == Fold(step, seed, prefix)
    ensures h in x.byHash ==> PublishedAs(x, x.byHash[h], prefix)
    ensures forall b | b in x.byBlock && PublishedAs(x, b, prefix) :: h in x.byHash && x.byHash[h] == b
  {
  }

  lemma {:induction false} BlocksOfAt(x: Index, p: Pool, hs: seq<Hash>, n: nat)
    requires Within(x, p) && n <= ChainLength(x, p, hs, 0)
    ensures |BlocksOf(x, p, hs, n)| == n
    ensures forall i | 0 <= i < n :: hs[i] in x.byHash && BlocksOf(x, p, hs, n)[i] == x.byHash[hs[i]]
  {
    if n > 0 {
      assert Hit(x, p, hs[n - 1]);
      BlocksOfAt(x, p, hs, n - 1);
    }
  }

  /** `out` are live blocks published for the first prefixes, and no live block is published for the
      next. */
  ghost predicate LongestChain(x: Index, p: Pool, out: seq<Block>, ps: seq<seq<Token>>) {
    && |out| <= |ps|
    && (forall i | 0 <= i < |out| ::
          PublishedAs(x, out[i], ps[i]) && out[i] < |p.refcount| && Live(p, out[i]))
    && (|out| < |ps| ==> forall b | b in x.byBlock && b < |p.refcount| && Live(p, b) ::
          !PublishedAs(x, b, ps[|out|]))
  }

  lemma ChainIsLongest(
      x: Index, p: Pool, step: Step, seed: Hash, hs: seq<Hash>, ps: seq<seq<Token>>, out: seq<Block>)
    requires Inverse(x) && Faithful(x, step, seed) && Within(x, p)
    requires Hashed(step, seed, hs, ps) && CollisionFree(x, step, seed, ps)
    requires out == BlocksOf(x, p, hs, ChainLength(x, p, hs, 0))
    ensures LongestChain(x, p, out, ps)
  {
    var n := ChainLength(x, p, hs, 0);
    BlocksOfAt(x, p, hs, n);
    forall i | 0 <= i < n
      ensures PublishedAs(x, out[i], ps[i]) && out[i] < |p.refcount| && Live(p, out[i])
    {
      assert Hit(x, p, hs[i]);
      HashNames(x, step, seed, hs[i], ps[i]);
    }
    if n < |hs| {
      HashNames(x, step, seed, hs[n], ps[n]);
    }
  }

  lemma ChainIsDistinct(x: Index, p: Pool, out: seq<Block>, ps: seq<seq<Token>>)
    requires LongestChain(x, p, out, ps) && Distinct(ps)
    ensures Distinct(out)
  {
    forall i, j | 0 <= i < j < |out| ensures out[i] != out[j] {
      assert PublishedAs(x, out[i], ps[i]) && PublishedAs(x, out[j], ps[j]);
    }
  }

  /** What a lookup returns: live blocks, each published for exactly that prefix of the prompt; and the
      first block not returned is either not published for its prefix or gone. */
  lemma LookupIsLongestPrefix(x: Index, p: Pool, step: Step, seed: Hash, tokens: seq<Token>, bs: nat)
    requires bs >= 1 && Inverse(x) && Faithful(x, step, seed) && Within(x, p)
    requires CollisionFree(x, step, seed, Prefixes(tokens, bs))
    ensures var hs := BlockHashes(step, seed, tokens, bs);
      LongestChain(x, p, BlocksOf(x, p, hs, ChainLength(x, p, hs, 0)), Prefixes(tokens, bs))
  {
    var hs, ps := BlockHashes(step, seed, tokens, bs), Prefixes(tokens, bs);
    PromptHashed(step, seed, tokens, bs);
    ChainIsLongest(x, p, step, seed, hs, ps, BlocksOf(x, p, hs, ChainLength(x, p, hs, 0)));
  }

  /** Without collisions no block is returned twice. */
  lemma LookupIsDistinct(x: Index, p: Pool, step: Step, seed: Hash, tokens: seq<Token>, bs: nat)
    requires bs >= 1 && Inverse(x) && Faithful(x, step, seed) && Within(x, p)
    requires CollisionFree(x, step, seed, Prefixes(tokens, bs))
    ensures var hs := BlockHashes(step, seed, tokens, bs);
      Distinct(BlocksOf(x, p, hs, ChainLength(x, p, hs, 0)))
  {
    var hs := BlockHashes(step, seed, tokens, bs);
    PromptHashed(step, seed, tokens, bs);
    LookupIsLongestPrefix(x, p, step, seed, tokens, bs);
    ChainIsDistinct(x, p, BlocksOf(x, p, hs, ChainLength(x, p, hs, 0)), Prefixes(tokens, bs));
  }

  lemma {:induction false} HitsCount(x: Index, p: Pool, hs: seq<Hash>, n: nat)
    requires Within(x, p) && n <= ChainLength(x, p, hs, 0)
    ensures forall b: Block | b < |p.refcount| ::
      AfterHits(x, p, hs, n).refcount[b] == p.refcount[b] + multiset(BlocksOf(x, p, hs, n))[b]
  {
    if n > 0 {
      HitsCount(x, p, hs, n - 1);
    }
  }

  /** Without collisions each returned block gains exactly one reference, and no other changes. */
  lemma LookupReferences(x: Index, p: Pool, step: Step, seed: Hash, tokens: seq<Token>, bs: nat)
    requires bs >= 1 && Inverse(x) && Faithful(x, step, seed) && Within(x, p)
    requires CollisionFree(x, step, seed, Prefixes(tokens, bs))
    ensures var hs := BlockHashes(step, seed, tokens, bs);
      var n := ChainLength(x, p, hs, 0);
      forall b: Block | b < |p.refcount| :: AfterHits(x, p, hs, n).refcount[b]
        == p.refcount[b] + if b in BlocksOf(x, p, hs, n) then 1 else 0
  {
    var hs := BlockHashes(step, seed, tokens, bs);
    var n := ChainLength(x, p, hs, 0);
    HitsCount(x, p, hs, n);
    LookupIsDistinct(x, p, step, seed, tokens, bs);
    OnceEach(BlocksOf(x, p, hs, n));
  }

  // ----------------------------------------------------------- whole insertions

  /** The blocks are distinct, and one that is indexed already is indexed under its own hash, or under
      one that an earlier block of the insertion takes over. */
  ghost predicate Fresh(x: Index, hs: seq<Hash>, bs: seq<Block>, n: nat)
    requires n <= |hs| && n <= |bs|
  {
    && Distinct(bs[..n])
    && forall i | 0 <= i < n && bs[i] in x.byBlock ::
      x.byBlock[bs[i]] == hs[i] || x.byBlock[bs[i]] in hs[..i]
  }

  /** What an insertion leaves of the blocks it does not name: those whose hash it does not take. */
  ghost predicate OthersKept(x: Index, y: Index, hs: seq<Hash>, bs: seq<Block>) {
    forall b | b !in bs ::
      && (b in y.byBlock <==> b in x.byBlock && x.byBlock[b] !in hs)
      && (b in y.byBlock ==> y.byBlock[b] == x.byBlock[b])
  }

  lemma OneMore<T>(s: seq<T>, n: nat)
    requires n < |s|
    ensures s[..n + 1] == s[..n] + [s[n]]
    ensures Distinct(s[..n + 1]) ==> Distinct(s[..n]) && s[n] !in s[..n]
  {
    if Distinct(s[..n + 1]) {
      assert forall i | 0 <= i < n :: s[..n][i] == s[..n + 1][i];
      forall i | 0 <= i < n ensures s[i] != s[n] {
        assert s[..n + 1][i] == s[i] && s[..n + 1][n] == s[n];
      }
    }
  }

  lemma FreshFront(x: Index, hs: seq<Hash>, bs: seq<Block>, n: nat)
    requires n < |hs| && n < |bs| && Fresh(x, hs, bs, n + 1)
    ensures Fresh(x, hs, bs, n) && bs[n] !in bs[..n]
    ensures bs[n] in x.byBlock ==> x.byBlock[bs[n]] == hs[n] || x.byBlock[bs[n]] in hs[..n]
  {
    OneMore(bs, n);
  }

  lemma {:induction false} FreshInsertion(
      x: Index, hs: seq<Hash>, bs: seq<Block>, ps: seq<seq<Token>>, n: nat)
    requires n <= |hs| && n <= |bs| && n <= |ps| && Inverse(x) && Fresh(x, hs, bs, n)
    ensures Inverse(PublishFirst(x, hs, bs, ps, n))
    ensures OthersKept(x, PublishFirst(x, hs, bs, ps, n), hs[..n], bs[..n])
  {
    if n == 0 {
      assert hs[..0] == [] && bs[..0] == [];
    } else {
      var m := n - 1;
      FreshFront(x, hs, bs, m);
      FreshInsertion(x, hs, bs, ps, m);
      FreshStep(x, PublishFirst(x, hs, bs, ps, m), hs, bs, m, ps[m], hs[..n], bs[..n]);
    }
  }

  lemma FreshStep(
      x: Index, y: Index, hs: seq<Hash>, bs: seq<Block>, m: nat, prefix: seq<Token>,
      taken: seq<Hash>, named: seq<Block>)
    requires m < |hs| && m < |bs| && Fresh(x, hs, bs, m + 1)
    requires Inverse(y) && OthersKept(x, y, hs[..m], bs[..m])
    requires taken == hs[..m + 1] && named == bs[..m + 1]
    ensures var z := Publish(y, hs[m], bs[m], prefix); Inverse(z) && OthersKept(x, z, taken, named)
  {
    FreshFront(x, hs, bs, m);
    PublishKeepsInverseIff(y, hs[m], bs[m], prefix);
    OneMore(hs, m);
    OneMore(bs, m);
    FreshPublication(x, y, hs[..m], bs[..m], hs[m], bs[m], prefix);
  }

  lemma FreshPublication(
      x: Index, y: Index, hs: seq<Hash>, bs: seq<Block>, h: Hash, c: Block, prefix: seq<Token>)
    requires Inverse(y) && OthersKept(x, y, hs, bs)
    ensures OthersKept(x, Publish(y, h, c, prefix), hs + [h], bs + [c])
  {
    forall b | b !in bs + [c]
      ensures var z := Publish(y, h, c, prefix);
        && (b in z.byBlock <==> b in x.byBlock && x.byBlock[b] !in hs + [h])
        && (b in z.byBlock ==> z.byBlock[b] == x.byBlock[b])
    {
      assert b !in bs && b != c;
      OtherKept(y, h, c, prefix, b);
    }
  }

  /** Publishing costs another block its entry exactly when it takes that block's hash. */
  lemma OtherKept(y: Index, h: Hash, c: Block, prefix: seq<Token>, b: Block)
    requires Inverse(y) && b != c
    ensures var z := Publish(y, h, c, prefix);
      && (b in z.byBlock <==> b in y.byBlock && y.byBlock[b] != h)
      && (b in z.byBlock ==> z.byBlock[b] == y.byBlock[b])
  {
  }

  lemma {:induction false} HashesTaken(
      x: Index, hs: seq<Hash>, bs: seq<Block>, ps: seq<seq<Token>>, n: nat)
    requires n <= |hs| && n <= |bs| && n <= |ps| && Distinct(hs[..n])
    ensures var y := PublishFirst(x, hs, bs, ps, n);
      && (forall i | 0 <= i < n :: hs[i] in y.byHash && y.byHash[hs[i]] == bs[i])
      && (forall h | h in x.byHash && h !in hs[..n] :: h in y.byHash && y.byHash[h] == x.byHash[h])
  {
    if n > 0 {
      OneMore(hs, n - 1);
      HashesTaken(x, hs, bs, ps, n - 1);
      assert forall i | 0 <= i < n - 1 :: hs[i] == hs[..n - 1][i];
    }
  }

  /** A block whose hash another block takes over leaves the index for good. */
  lemma {:induction false} StaysOut(
      x: Index, hs: seq<Hash>, bs: seq<Block>, ps: seq<seq<Token>>, n: nat, j: nat, b: Block)
    requires j < n <= |hs| && n <= |bs| && n <= |ps|
    requires forall i | j <= i < n :: bs[i] != b
    requires var y := PublishFirst(x, hs, bs, ps, j); hs[j] in y.byHash && y.byHash[hs[j]] == b
    ensures b !in PublishFirst(x, hs, bs, ps, n).byBlock
  {
    if n > j + 1 {
      StaysOut(x, hs, bs, ps, n - 1, j, b);
    }
  }

  lemma StaleInsertion(x: Index, hs: seq<Hash>, bs: seq<Block>, ps: seq<seq<Token>>, n: nat, i: nat)
    requires i < n <= |hs| && n <= |bs| && n <= |ps| && Inverse(x)
    requires Distinct(hs[..n]) && Distinct(bs[..n])
    requires bs[i] in x.byBlock && x.byBlock[bs[i]] != hs[i] && x.byBlock[bs[i]] !in hs[..i]
    ensures !Inverse(PublishFirst(x, hs, bs, ps, n))
  {
    var y, b := PublishFirst(x, hs, bs, ps, n), bs[i];
    var h := x.byBlock[b];
    HashesTaken(x, hs, bs, ps, n);
    assert y.byHash[hs[i]] == b;
    if j :| i < j < n && hs[j] == h {
      TakenLater(x, hs, bs, ps, n, i, j);
    } else {
      assert h !in hs[..n] by {
        assert forall k | 0 <= k < i :: hs[k] == hs[..i][k];
      }
      assert y.byHash[h] == b;
    }
  }

  lemma TakenLater(
      x: Index, hs: seq<Hash>, bs: seq<Block>, ps: seq<seq<Token>>, n: nat, i: nat, j: nat)
    requires i < j < n <= |hs| && n <= |bs| && n <= |ps| && Inverse(x)
    requires Distinct(hs[..n]) && Distinct(bs[..n]) && bs[i] in x.byBlock && x.byBlock[bs[i]] == hs[j]
    ensures bs[i] !in PublishFirst(x, hs, bs, ps, n).byBlock
  {
    assert forall k | 0 <= k < n :: hs[k] == hs[..n][k] && bs[k] == bs[..n][k];
    assert forall k | 0 <= k < j :: hs[..j][k] == hs[..n][k];
    HashesTaken(x, hs, bs, ps, j);
    StaysOut(x, hs, bs, ps, n, j, bs[i]);
  }

  /** A whole insertion, whose hashes differ, keeps the two maps mutually inverse exactly when its
      blocks are distinct and each one indexed already is indexed under its own hash, or under one that
      an earlier block of the insertion takes over. */
  lemma InsertKeepsInverseIff(
      x: Index, hs: seq<Hash>, bs: seq<Block>, ps: seq<seq<Token>>, n: nat)
    requires n <= |hs| && n <= |bs| && n <= |ps| && Inverse(x) && Distinct(hs[..n])
    ensures Inverse(PublishFirst(x, hs, bs, ps, n)) <==> Fresh(x, hs, bs, n)
  {
    if Fresh(x, hs, bs, n) {
      FreshInsertion(x, hs, bs, ps, n);
    } else if !Distinct(bs[..n]) {
      RepeatedBlock(x, hs, bs, ps, n);
    } else {
      var i :| 0 <= i < n && bs[i] in x.byBlock && x.byBlock[bs[i]] != hs[i]
        && x.byBlock[bs[i]] !in hs[..i];
      StaleInsertion(x, hs, bs, ps, n, i);
    }
  }

  lemma RepeatedBlock(x: Index, hs: seq<Hash>, bs: seq<Block>, ps: seq<seq<Token>>, n: nat)
    requires n <= |hs| && n <= |bs| && n <= |ps| && Distinct(hs[..n]) && !Distinct(bs[..n])
    ensures !Inverse(PublishFirst(x, hs, bs, ps, n))
  {
    var y := PublishFirst(x, hs, bs, ps, n);
    var i, j :| 0 <= i < j < n && bs[..n][i] == bs[..n][j];
    HashesTaken(x, hs, bs, ps, n);
    assert hs[..n][i] != hs[..n][j];
    assert y.byHash[hs[i]] == bs[i] && y.byHash[hs[j]] == bs[i];
  }

  // ----------------------------------------------------------------- reuse

  /** Page contents agree with what each indexed block was published for. */
  ghost predicate Truthful(x: Index, content: map<Block, seq<Token>>) {
    forall b | b in x.byBlock ::
      b in x.published && b in content && content[b] == x.published[b]
  }

  /** What is left of the page contents once `n` blocks have been handed out. */
  ghost function ContentAfter(p: Pool, content: map<Block, seq<Token>>, n: nat): map<Block, seq<Token>>
    requires Partitioned(p) && Available(p) >= n
  {
    content - (set b | b in TakeN(p, n).1)
  }

  /** Allocation hands out the head of the supply, so it leaves the index truthful exactly when none of
      those blocks is still indexed: forget before reuse. */
  lemma ReuseKeepsTruthIff(x: Index, content: map<Block, seq<Token>>, p: Pool, n: nat)
    requires Truthful(x, content) && Partitioned(p) && Available(p) >= n
    ensures n <= |Supply(p)|
    ensures Truthful(x, ContentAfter(p, content, n))
      <==> forall b | b in Supply(p)[..n] :: b !in x.byBlock
  {
    TakeNGives(p, n);
    var out := TakeN(p, n).1;
    assert Supply(p)[..n] == out;
    if b :| b in out && b in x.byBlock {
      assert b !in ContentAfter(p, content, n);
    }
  }

  /** A block that is handed out while indexed answers to its old hash from then on. */
  lemma ReusedBlockHits(x: Index, p: Pool, n: nat, b: Block)
    requires Inverse(x) && Within(x, p) && Partitioned(p) && Available(p) >= n
    requires n <= |Supply(p)| && b in Supply(p)[..n] && b in x.byBlock
    ensures Within(x, TakeN(p, n).0) && Hit(x, TakeN(p, n).0, x.byBlock[b])
  {
    TakeNGives(p, n);
    assert Supply(p)[..n] == TakeN(p, n).1;
    assert x.byHash[x.byBlock[b]] == b;
  }

  /** For example: the only page, cached and indexed for the prompt [7], is handed out and filled for
      [8]; a lookup of [7] then returns it. */
  lemma StalePageIsServed(step: Step, seed: Hash)
    ensures var h := Fold(step, seed, [7]);
      var p, x := Pool([0], [], [0]), Index(map[h := 0], map[0 := h], map[0 := [7]]);
      && Partitioned(p) && Available(p) == 1 && Inverse(x) && Faithful(x, step, seed)
      && Truthful(x, map[0 := [7]])
      && var (q, out) := TakeN(p, 1);
      && out == [0] && Within(x, q)
      && var hs := BlockHashes(step, seed, [7], 1);
      && ChainLength(x, q, hs, 0) == 1 && BlocksOf(x, q, hs, 1) == [0]
      && !Truthful(x, map[0 := [8]])
  {
    var h := Fold(step, seed, [7]);
    var p, x := Pool([0], [], [0]), Index(map[h := 0], map[0 := h], map[0 := [7]]);
    assert p.free + p.cached == [0] && 0 in p.cached;
    TakeNGives(p, 1);
    var (q, out) := TakeN(p, 1);
    assert Supply(p) == [0] && out == Supply(p)[..1] == [0];
    var hs := BlockHashes(step, seed, [7], 1);
    assert Blocks([7], 1, 1) == [7] && hs == [h];
    assert Hit(x, q, hs[0]);
    assert BlocksOf(x, q, hs, 1) == BlocksOf(x, q, hs, 0) + [x.byHash[hs[0]]];
  }
}
