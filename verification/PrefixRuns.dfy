/** The block pool and the prefix index over whole runs: they share pages, and a lookup never lies. */
module PrefixRuns {
  import opened Common
  import opened PoolState
  import PoolLaws
  import opened PrefixIndex
  import opened PrefixLaws

  /** How prompts are hashed. */
  datatype Scheme = Scheme(step: Step, seed: Hash, blockSize: nat)

  /** The pool with the references its callers hold, the index, and what each filled page contains. */
  datatype World = World(
    store: PoolLaws.World, index: Index, content: map<Block, seq<Token>>)

  datatype Op =
    | Use(op: PoolLaws.Op)
    | Fill(block: Block, prefix: seq<Token>)      // a caller computes a page it holds
    | Lookup(tokens: seq<Token>)
    | Insert(tokens: seq<Token>, blocks: seq<Block>)
    | Forget(blocks: seq<Block>)
    | Reclaim(n: nat)                             // evict cached blocks, then forget them

  /** The next `n` blocks to be handed out are not indexed. */
  ghost predicate Forgotten(w: World, n: nat) {
    n <= |Supply(w.store.pool)| ==>
      forall b | b in Supply(w.store.pool)[..n] :: b !in w.index.byBlock
  }

  /** The published pages are held and filled as claimed. */
  ghost predicate Computed(w: World, ps: seq<seq<Token>>, blocks: seq<Block>, n: nat)
    requires n <= |ps| && n <= |blocks|
  {
    forall i | 0 <= i < n ::
      && blocks[i] in w.store.held
      && blocks[i] in w.content && w.content[blocks[i]] == ps[i]
  }

  function Inserted(k: Scheme, tokens: seq<Token>, blocks: seq<Block>): nat
    requires k.blockSize >= 1
  {
    MinNat(|Prefixes(tokens, k.blockSize)|, |blocks|)
  }

  /** The discipline: hand back only references that are held, forget a block before it is handed out
      again, fill only pages that are held and not indexed, publish only what has been computed. */
  ghost predicate Allowed(k: Scheme, w: World, op: Op)
    requires k.blockSize >= 1
  {
    match op
    case Use(u) => PoolLaws.Allowed(w.store, u) && (u.Alloc? ==> Forgotten(w, u.n))
    case Fill(b, _) => b in w.store.held && b !in w.index.byBlock
    case Lookup(_) => true
    case Insert(tokens, blocks) =>
      Computed(w, Prefixes(tokens, k.blockSize), blocks, Inserted(k, tokens, blocks))
    case Forget(_) => true
    case Reclaim(_) => true
  }

  /** Everything a lookup relies on: the pool is sound, the maps are mutually inverse and lead to blocks
      of the pool, and every indexed page contains the prefix it is indexed for. */
  ghost predicate Right(k: Scheme, w: World) {
    && k.blockSize >= 1
    && PoolLaws.Sound(w.store)
    && Inverse(w.index) && Faithful(w.index, k.step, k.seed)
    && Within(w.index, w.store.pool)
    && Truthful(w.index, w.content)
  }

  function Hashes(k: Scheme, tokens: seq<Token>): seq<Hash>
    requires k.blockSize >= 1
  {
    BlockHashes(k.step, k.seed, tokens, k.blockSize)
  }

  /** The blocks a lookup returns. */
  function Found(k: Scheme, w: World, tokens: seq<Token>): seq<Block>
    requires k.blockSize >= 1 && Within(w.index, w.store.pool)
  {
    var hs := Hashes(k, tokens);
    BlocksOf(w.index, w.store.pool, hs, ChainLength(w.index, w.store.pool, hs, 0))
  }

  ghost function Looked(k: Scheme, w: World, hs: seq<Hash>): World
    requires Within(w.index, w.store.pool)
  {
    var p := w.store.pool;
    var n := ChainLength(w.index, p, hs, 0);
    World(
      PoolLaws.World(AfterHits(w.index, p, hs, n), w.store.held + multiset(BlocksOf(w.index, p, hs, n))),
      AfterLookup(w.index, p, hs), w.content)
  }

  ghost function Used(w: World, u: PoolLaws.Op): World
    requires PoolLaws.Sound(w.store) && PoolLaws.Allowed(w.store, u)
  {
    var content :=
      if u.Alloc? && Available(w.store.pool) >= u.n then ContentAfter(w.store.pool, w.content, u.n)
      else w.content;
    World(PoolLaws.After(w.store, u), w.index, content)
  }

  function Evictees(p: Pool, n: nat): seq<Block> { p.cached[..MinNat(n, |p.cached|)] }

  ghost function After(k: Scheme, w: World, op: Op): World
    requires Right(k, w) && Allowed(k, w, op)
  {
    match op
    case Use(u) => Used(w, u)
    case Fill(b, prefix) => w.(content := w.content[b := prefix])
    case Lookup(tokens) => Looked(k, w, Hashes(k, tokens))
    case Insert(tokens, blocks) =>
      w.(index := PublishFirst(w.index, Hashes(k, tokens), blocks, Prefixes(tokens, k.blockSize),
                               Inserted(k, tokens, blocks)))
    case Forget(blocks) => w.(index := ForgetAll(w.index, blocks))
    case Reclaim(n) =>
      World(PoolLaws.After(w.store, PoolLaws.Evict(n)),
            ForgetAll(w.index, Evictees(w.store.pool, n)), w.content)
  }

  // ----------------------------------------------------------- one operation

  lemma UseKeepsRight(k: Scheme, w: World, u: PoolLaws.Op)
    requires Right(k, w) && PoolLaws.Allowed(w.store, u) && (u.Alloc? ==> Forgotten(w, u.n))
    ensures Right(k, Used(w, u))
  {
    PoolLaws.EveryOpKeepsSound(w.store, u);
    if u.Alloc? && Available(w.store.pool) >= u.n {
      ReuseKeepsTruthIff(w.index, w.content, w.store.pool, u.n);
    }
  }

  lemma {:induction false} HitsKeepPartition(x: Index, p: Pool, hs: seq<Hash>, n: nat)
    requires Within(x, p) && n <= ChainLength(x, p, hs, 0) && Partitioned(p)
    ensures Partitioned(AfterHits(x, p, hs, n)) && AfterHits(x, p, hs, n).free == p.free
  {
    if n > 0 {
      HitsKeepPartition(x, p, hs, n - 1);
      assert Hit(x, p, hs[n - 1]);
      PoolLaws.ReacquireKeeps(AfterHits(x, p, hs, n - 1), x.byHash[hs[n - 1]]);
    }
  }

  lemma LookupKeepsSound(k: Scheme, w: World, hs: seq<Hash>)
    requires PoolLaws.Sound(w.store) && Within(w.index, w.store.pool)
    ensures PoolLaws.Sound(Looked(k, w, hs).store)
  {
    var x, p := w.index, w.store.pool;
    var n := ChainLength(x, p, hs, 0);
    HitsKeepPartition(x, p, hs, n);
    HitsCount(x, p, hs, n);
    BlocksOfAt(x, p, hs, n);
    PoolLaws.NothingOutOfRange(p, BlocksOf(x, p, hs, n));
  }

  lemma LookupKeepsAll(k: Scheme, w: World, tokens: seq<Token>)
    requires Right(k, w)
    ensures Right(k, Looked(k, w, Hashes(k, tokens)))
  {
    LookupKeepsSound(k, w, Hashes(k, tokens));
    LookupKeepsRight(w.index, w.store.pool, Hashes(k, tokens), k.step, k.seed);
  }

  /** Pages filled as claimed are distinct, and none is indexed under a hash other than its own. */
  lemma ComputedPublishes(
      k: Scheme, w: World, hs: seq<Hash>, ps: seq<seq<Token>>, blocks: seq<Block>, n: nat)
    requires Right(k, w) && Hashed(k.step, k.seed, hs, ps) && Distinct(ps)
    requires n <= |ps| && n <= |blocks| && Computed(w, ps, blocks, n)
    ensures forall i, j | 0 <= i < j < n :: blocks[i] != blocks[j]
    ensures forall i | 0 <= i < n && blocks[i] in w.index.byBlock :: w.index.byBlock[blocks[i]] == hs[i]
  {
    forall i, j | 0 <= i < j < n ensures blocks[i] != blocks[j] {
      assert w.content[blocks[i]] == ps[i] && w.content[blocks[j]] == ps[j];
    }
  }

  /** An insertion leads hashes only to its own blocks, beyond those the index led to already. */
  lemma {:induction false} InsertLeads(
      x: Index, hs: seq<Hash>, bs: seq<Block>, ps: seq<seq<Token>>, n: nat)
    requires n <= |hs| && n <= |bs| && n <= |ps|
    ensures var y := PublishFirst(x, hs, bs, ps, n);
      forall h | h in y.byHash :: y.byHash[h] in bs[..n] || (h in x.byHash && y.byHash[h] == x.byHash[h])
  {
    if n > 0 {
      InsertLeads(x, hs, bs, ps, n - 1);
      OneMore(bs, n - 1);
    }
  }

  /** Its blocks are published for their own prefixes. */
  lemma {:induction false} InsertPublishes(
      x: Index, hs: seq<Hash>, bs: seq<Block>, ps: seq<seq<Token>>, n: nat)
    requires n <= |hs| && n <= |bs| && n <= |ps|
    requires forall i, j | 0 <= i < j < n :: bs[i] != bs[j]
    ensures var y := PublishFirst(x, hs, bs, ps, n);
      forall i | 0 <= i < n :: PublishedAs(y, bs[i], ps[i])
  {
    if n > 0 {
      InsertPublishes(x, hs, bs, ps, n - 1);
    }
  }

  /** What other blocks were published for does not change. */
  lemma {:induction false} InsertLeavesOthers(
      x: Index, hs: seq<Hash>, bs: seq<Block>, ps: seq<seq<Token>>, n: nat, b: Block)
    requires n <= |hs| && n <= |bs| && n <= |ps| && b in x.published && b !in bs[..n]
    ensures PublishedAs(PublishFirst(x, hs, bs, ps, n), b, x.published[b])
  {
    if n > 0 {
      OneMore(bs, n - 1);
      InsertLeavesOthers(x, hs, bs, ps, n - 1, b);
    }
  }

  lemma InsertKeepsTruth(
      k: Scheme, w: World, hs: seq<Hash>, ps: seq<seq<Token>>, blocks: seq<Block>, n: nat)
    requires Right(k, w) && Hashed(k.step, k.seed, hs, ps) && Distinct(ps)
    requires n <= |ps| && n <= |blocks| && Computed(w, ps, blocks, n)
    ensures Right(k, w.(index := PublishFirst(w.index, hs, blocks, ps, n)))
  {
    var y := PublishFirst(w.index, hs, blocks, ps, n);
    ComputedPublishes(k, w, hs, ps, blocks, n);
    InsertKeepsRight(w.index, hs, blocks, ps, n, k.step, k.seed);
    InsertLeads(w.index, hs, blocks, ps, n);
    InsertPublishes(w.index, hs, blocks, ps, n);
    forall h | h in y.byHash ensures y.byHash[h] < |w.store.pool.refcount| {
      if y.byHash[h] in blocks[..n] {
        assert w.store.held[y.byHash[h]] > 0;
      }
    }
    forall b | b in y.byBlock
      ensures b in y.published && b in w.content && w.content[b] == y.published[b]
    {
      if b in blocks[..n] {
        var i :| 0 <= i < n && blocks[i] == b;
        assert PublishedAs(y, blocks[i], ps[i]);
      } else {
        assert b in w.index.byBlock;
        InsertLeavesOthers(w.index, hs, blocks, ps, n, b);
      }
    }
  }

  lemma {:induction false} ForgetOnlyDrops(x: Index, bs: seq<Block>)
    ensures var y := ForgetAll(x, bs);
      && y.published == x.published
      && (forall h | h in y.byHash :: h in x.byHash && y.byHash[h] == x.byHash[h])
      && (forall b | b in y.byBlock :: b in x.byBlock)
  {
    if bs != [] {
      ForgetOnlyDrops(x, bs[..|bs| - 1]);
    }
  }

  lemma ForgetKeepsAll(k: Scheme, w: World, bs: seq<Block>)
    requires Right(k, w)
    ensures Right(k, w.(index := ForgetAll(w.index, bs)))
  {
    ForgetKeepsRight(w.index, bs, k.step, k.seed);
    ForgetOnlyDrops(w.index, bs);
  }

  /** Every allowed operation keeps the pool sound and the index right and truthful. */
  lemma EveryOpKeepsRight(k: Scheme, w: World, op: Op)
    requires Right(k, w) && Allowed(k, w, op)
    ensures Right(k, After(k, w, op))
  {
    match op
    case Use(u) => UseKeepsRight(k, w, u);
    case Fill(b, prefix) =>
    case Lookup(tokens) => LookupKeepsAll(k, w, tokens);
    case Insert(tokens, blocks) =>
      PromptHashed(k.step, k.seed, tokens, k.blockSize);
      InsertKeepsTruth(k, w, Hashes(k, tokens), Prefixes(tokens, k.blockSize), blocks,
                       Inserted(k, tokens, blocks));
    case Forget(blocks) => ForgetKeepsAll(k, w, blocks);
    case Reclaim(n) =>
      UseKeepsRight(k, w, PoolLaws.Evict(n));
      ForgetKeepsAll(k, Used(w, PoolLaws.Evict(n)), Evictees(w.store.pool, n));
  }

  // ------------------------------------------------------------------- runs

  /** A run of operations, each allowed when it is made. */
  ghost predicate AllowedRun(k: Scheme, w: World, ops: seq<Op>)
    requires Right(k, w)
    decreases |ops|
  {
    ops != [] ==> (
      && Allowed(k, w, ops[0])
      && (EveryOpKeepsRight(k, w, ops[0]); AllowedRun(k, After(k, w, ops[0]), ops[1..])))
  }

  ghost function Run(k: Scheme, w: World, ops: seq<Op>): World
    requires Right(k, w) && AllowedRun(k, w, ops)
    decreases |ops|
  {
    if ops == [] then w
    else
      EveryOpKeepsRight(k, w, ops[0]);
      Run(k, After(k, w, ops[0]), ops[1..])
  }

  /** A pool of `blocks` blocks, all free, and nothing indexed. */
  function New(blocks: nat, free: seq<Block>): World {
    World(PoolLaws.World(Pool(seq(blocks, i => 0), free, []), multiset{}),
          Index(map[], map[], map[]), map[])
  }

  lemma NewIsRight(k: Scheme, blocks: nat, free: seq<Block>)
    requires k.blockSize >= 1 && Distinct(free) && forall b: Block :: b in free <==> b < blocks
    ensures Right(k, New(blocks, free))
  {
    assert free + [] == free;
  }

  /** Over every run that forgets before reuse, the pool stays sound and the index right and truthful. */
  lemma {:induction false} RunsStayRight(k: Scheme, w: World, ops: seq<Op>)
    requires Right(k, w) && AllowedRun(k, w, ops)
    ensures Right(k, Run(k, w, ops))
    decreases |ops|
  {
    if ops != [] {
      EveryOpKeepsRight(k, w, ops[0]);
      RunsStayRight(k, After(k, w, ops[0]), ops[1..]);
    }
  }

  /** The pages contain exactly the first prefixes of the prompt, and no live indexed page contains the
      next. */
  ghost predicate HoldsPrompt(w: World, out: seq<Block>, ps: seq<seq<Token>>) {
    && Distinct(out) && |out| <= |ps|
    && (forall i | 0 <= i < |out| :: Contains(w, out[i], ps[i]))
    && (|out| < |ps| ==>
          forall b | b in w.index.byBlock && b < |w.store.pool.refcount| && Live(w.store.pool, b) ::
            !Contains(w, b, ps[|out|]))
  }

  ghost predicate Contains(w: World, b: Block, prefix: seq<Token>) {
    b in w.content && w.content[b] == prefix
  }

  lemma LookupTellsTruth(k: Scheme, w: World, tokens: seq<Token>)
    requires Right(k, w) && CollisionFree(w.index, k.step, k.seed, Prefixes(tokens, k.blockSize))
    ensures HoldsPrompt(w, Found(k, w, tokens), Prefixes(tokens, k.blockSize))
  {
    var out, ps := Found(k, w, tokens), Prefixes(tokens, k.blockSize);
    LookupIsLongestPrefix(w.index, w.store.pool, k.step, k.seed, tokens, k.blockSize);
    LookupIsDistinct(w.index, w.store.pool, k.step, k.seed, tokens, k.blockSize);
    FoundHolds(k, w, Hashes(k, tokens), ps, out);
  }

  lemma FoundHolds(k: Scheme, w: World, hs: seq<Hash>, ps: seq<seq<Token>>, out: seq<Block>)
    requires Right(k, w) && LongestChain(w.index, w.store.pool, out, ps) && Distinct(out)
    requires out == BlocksOf(w.index, w.store.pool, hs, ChainLength(w.index, w.store.pool, hs, 0))
    ensures HoldsPrompt(w, out, ps)
  {
    BlocksOfAt(w.index, w.store.pool, hs, ChainLength(w.index, w.store.pool, hs, 0));
    forall i | 0 <= i < |out| ensures Contains(w, out[i], ps[i]) {
      assert PublishedAs(w.index, out[i], ps[i]);
      assert out[i] == w.index.byHash[hs[i]] && out[i] in w.index.byBlock;
    }
    if |out| < |ps| {
      forall b | b in w.index.byBlock && b < |w.store.pool.refcount| && Live(w.store.pool, b)
        ensures !Contains(w, b, ps[|out|])
      {
        assert !PublishedAs(w.index, b, ps[|out|]);
      }
    }
  }

  /** So after every such run a lookup without collisions returns distinct pages that hold exactly the
      prompt's first blocks, as many as any live page allows. */
  lemma RunsServeTruth(k: Scheme, w: World, ops: seq<Op>, tokens: seq<Token>)
    requires Right(k, w) && AllowedRun(k, w, ops)
    requires CollisionFree(Run(k, w, ops).index, k.step, k.seed, Prefixes(tokens, k.blockSize))
    ensures var u := Run(k, w, ops);
      Within(u.index, u.store.pool) && HoldsPrompt(u, Found(k, u, tokens), Prefixes(tokens, k.blockSize))
  {
    RunsStayRight(k, w, ops);
    LookupTellsTruth(k, Run(k, w, ops), tokens);
  }

  // --------------------------------------------------- a discipline in practice

  /** No indexed block is on the free list. */
  ghost predicate Clean(w: World) {
    forall b | b in w.store.pool.free :: b !in w.index.byBlock
  }

  /** A way to keep to the discipline without knowing what comes next: reclaim cached blocks rather than
      only evict them, allocate from the free list alone, and release to it only what is not indexed. */
  ghost predicate Careful(k: Scheme, w: World, op: Op)
    requires k.blockSize >= 1
  {
    match op
    case Use(u) =>
      && PoolLaws.Allowed(w.store, u) && !u.Evict?
      && (u.Alloc? ==> u.n <= |w.store.pool.free|)
      && (u.Release? && !u.keep ==> forall b | b in u.blocks :: b !in w.index.byBlock)
    case Fill(_, _) => Allowed(k, w, op)
    case Lookup(_) => true
    case Insert(_, _) => Allowed(k, w, op)
    case Forget(_) => true
    case Reclaim(_) => true
  }

  lemma {:induction false} ReversedHas<T>(s: seq<T>)
    ensures |Reversed(s)| == |s| && forall x :: x in Reversed(s) <==> x in s
  {
    if s != [] {
      ReversedHas(s[..|s| - 1]);
      assert s == s[..|s| - 1] + [s[|s| - 1]];
    }
  }

  lemma CleanIsForgotten(w: World, n: nat)
    requires Clean(w) && n <= |w.store.pool.free|
    ensures Forgotten(w, n)
  {
    var p := w.store.pool;
    ReversedHas(p.free);
    assert Supply(p)[..n] == Reversed(p.free)[..n];
    forall b | b in Supply(p)[..n] ensures b !in w.index.byBlock {
      assert b in Reversed(p.free);
    }
  }

  lemma {:induction false} TakingShrinksFree(p: Pool, n: nat)
    requires Partitioned(p) && Available(p) >= n
    ensures forall b | b in TakeN(p, n).0.free :: b in p.free
  {
    if n > 0 {
      TakingShrinksFree(p, n - 1);
    }
  }

  lemma {:induction false} DroppingFrees(p: Pool, blocks: seq<Block>, keep: bool)
    requires InRange(p, blocks)
    ensures forall b | b in DropAll(p, blocks, keep).free :: b in p.free || (!keep && b in blocks)
  {
    if blocks != [] {
      var n := |blocks| - 1;
      assert blocks[n] in blocks && forall b | b in blocks[..n] :: b in blocks;
      DroppingFrees(p, blocks[..n], keep);
    }
  }

  lemma CarefulUse(k: Scheme, w: World, u: PoolLaws.Op)
    requires Right(k, w) && Clean(w) && Careful(k, w, Use(u))
    ensures Allowed(k, w, Use(u)) && Clean(Used(w, u))
  {
    match u
    case Alloc(n) =>
      CleanIsForgotten(w, n);
      if Available(w.store.pool) >= n {
        TakingShrinksFree(w.store.pool, n);
      }
    case Incref(blocks) =>
      PoolLaws.AllHeldInRange(w.store, blocks);
      PoolLaws.AddAllCounts(w.store.pool, blocks);
    case Release(blocks, keep) =>
      PoolLaws.BackInRange(w.store, blocks);
      DroppingFrees(w.store.pool, blocks, keep);
    case Reacquire(b) =>
    case Evict(n) =>
  }

  lemma CarefulInsert(
      k: Scheme, w: World, hs: seq<Hash>, ps: seq<seq<Token>>, blocks: seq<Block>, n: nat)
    requires Right(k, w) && Clean(w) && Hashed(k.step, k.seed, hs, ps) && Distinct(ps)
    requires n <= |ps| && n <= |blocks| && Computed(w, ps, blocks, n)
    ensures Clean(w.(index := PublishFirst(w.index, hs, blocks, ps, n)))
  {
    ComputedPublishes(k, w, hs, ps, blocks, n);
    InsertKeepsRight(w.index, hs, blocks, ps, n, k.step, k.seed);
    forall b | b in w.store.pool.free ensures b !in PublishFirst(w.index, hs, blocks, ps, n).byBlock {
      assert w.store.held[b] == 0;
      assert forall i | 0 <= i < n :: blocks[i] != b;
    }
  }

  lemma CarefulReclaim(k: Scheme, w: World, n: nat)
    requires Right(k, w) && Clean(w)
    ensures Clean(After(k, w, Reclaim(n)))
  {
    ForgetKeepsRight(w.index, Evictees(w.store.pool, n), k.step, k.seed);
  }

  /** A careful operation is allowed, and leaves no indexed block on the free list. */
  lemma CarefulIsAllowed(k: Scheme, w: World, op: Op)
    requires Right(k, w) && Clean(w) && Careful(k, w, op)
    ensures Allowed(k, w, op) && Clean(After(k, w, op))
  {
    match op
    case Use(u) => CarefulUse(k, w, u);
    case Fill(b, prefix) =>
    case Lookup(tokens) =>
      var hs := Hashes(k, tokens);
      HitsKeepPartition(w.index, w.store.pool, hs, ChainLength(w.index, w.store.pool, hs, 0));
    case Insert(tokens, blocks) =>
      PromptHashed(k.step, k.seed, tokens, k.blockSize);
      CarefulInsert(k, w, Hashes(k, tokens), Prefixes(tokens, k.blockSize), blocks,
                    Inserted(k, tokens, blocks));
    case Forget(blocks) => ForgetOnlyDrops(w.index, blocks);
    case Reclaim(n) => CarefulReclaim(k, w, n);
  }

  ghost predicate CarefulRun(k: Scheme, w: World, ops: seq<Op>)
    requires Right(k, w) && Clean(w)
    decreases |ops|
  {
    ops != [] ==> (
      && Careful(k, w, ops[0])
      && (CarefulIsAllowed(k, w, ops[0]); EveryOpKeepsRight(k, w, ops[0]);
          CarefulRun(k, After(k, w, ops[0]), ops[1..])))
  }

  /** Every careful run is allowed, and no indexed block is ever on the free list. */
  lemma {:induction false} CarefulRunsStayClean(k: Scheme, w: World, ops: seq<Op>)
    requires Right(k, w) && Clean(w) && CarefulRun(k, w, ops)
    ensures AllowedRun(k, w, ops) && Clean(Run(k, w, ops))
    decreases |ops|
  {
    if ops != [] {
      CarefulIsAllowed(k, w, ops[0]);
      EveryOpKeepsRight(k, w, ops[0]);
      CarefulRunsStayClean(k, After(k, w, ops[0]), ops[1..]);
    }
  }
}
