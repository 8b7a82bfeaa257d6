/** What the pool keeps over whole runs, and exactly when. */
module PoolLaws {
  import opened Common
  import opened PoolState

  // ------------------------------------------------------------- one operation

  /** The callers hold what they hand back. */
  ghost predicate Covers(refcount: seq<nat>, blocks: seq<Block>) {
    forall b: Block | b in blocks :: b < |refcount| && multiset(blocks)[b] <= refcount[b]
  }

  lemma {:induction false} DropAllCounts(p: Pool, blocks: seq<Block>, keep: bool)
    requires InRange(p, blocks)
    ensures forall b: Block | b < |p.refcount| ::
      DropAll(p, blocks, keep).refcount[b] == SatSub(p.refcount[b], multiset(blocks)[b])
  {
    if blocks != [] {
      var n := |blocks| - 1;
      FrontLastMultiset(blocks);
      assert blocks[n] in blocks && forall b | b in blocks[..n] :: b in blocks;
      DropAllCounts(p, blocks[..n], keep);
    }
  }

  lemma DropOneKeeps(p: Pool, b: Block, keep: bool)
    requires Partitioned(p) && b < |p.refcount| && p.refcount[b] > 0
    ensures Partitioned(DropOne(p, b, keep))
  {
    var q := DropOne(p, b, keep);
    if p.refcount[b] == 1 {
      if keep {
        assert q.free + q.cached == p.free + p.cached + [b];
      } else {
        InsertDistinct(p.free, b, p.cached);
      }
    }
  }

  lemma InsertDistinct(s: seq<Block>, b: Block, t: seq<Block>)
    requires Distinct(s + t) && b !in s && b !in t
    ensures Distinct(s + [b] + t)
  {
    var u := s + t;
    assert forall i | 0 <= i < |s| :: u[i] == s[i];
    assert forall i | 0 <= i < |t| :: u[|s| + i] == t[i];
  }

  /** Releasing a block nobody holds lists it twice. */
  lemma DropOneBreaks(p: Pool, b: Block, keep: bool)
    requires Partitioned(p) && b < |p.refcount| && p.refcount[b] == 0
    ensures !Distinct(DropOne(p, b, keep).free + DropOne(p, b, keep).cached)
  {
    var q := DropOne(p, b, keep);
    assert b in p.free + p.cached;
    var i :| 0 <= i < |p.free + p.cached| && (p.free + p.cached)[i] == b;
    var j := if keep then |q.free + q.cached| - 1 else |p.free|;
    var k := if keep || i < |p.free| then i else i + 1;
    assert (q.free + q.cached)[j] == b && (q.free + q.cached)[k] == b && j != k;
  }

  lemma StaysDoubled(p: Pool, b: Block, keep: bool)
    requires !Distinct(p.free + p.cached) && b < |p.refcount|
    ensures !Distinct(DropOne(p, b, keep).free + DropOne(p, b, keep).cached)
  {
    var q := DropOne(p, b, keep);
    var s, t := p.free + p.cached, q.free + q.cached;
    var i, j :| 0 <= i < j < |s| && s[i] == s[j];
    var shift := if |q.free| > |p.free| then 1 else 0;
    var k, l := if i < |p.free| then i else i + shift, if j < |p.free| then j else j + shift;
    assert t[k] == s[i] && t[l] == s[j] && k < l;
  }

  /** Releasing keeps the partition exactly when every reference handed back is held. */
  lemma {:induction false} ReleaseKeepsIff(p: Pool, blocks: seq<Block>, keep: bool)
    requires Partitioned(p) && InRange(p, blocks)
    ensures var q := DropAll(p, blocks, keep);
      if Covers(p.refcount, blocks) then Partitioned(q) else !Distinct(q.free + q.cached)
  {
    if blocks != [] {
      var n := |blocks| - 1;
      var b := blocks[n];
      assert blocks == blocks[..n] + [b] && b in blocks;
      assert forall x | x in blocks[..n] :: x in blocks;
      FrontLastMultiset(blocks);
      ReleaseKeepsIff(p, blocks[..n], keep);
      DropAllCounts(p, blocks[..n], keep);
      var q := DropAll(p, blocks[..n], keep);
      CoversFront(p.refcount, blocks);
      if !Covers(p.refcount, blocks[..n]) {
        StaysDoubled(q, b, keep);
      } else if q.refcount[b] > 0 {
        DropOneKeeps(q, b, keep);
      } else {
        DropOneBreaks(q, b, keep);
      }
    }
  }

  /** For example: a block that is held once and released twice is listed free twice. */
  lemma SecondReleaseDoubles()
    ensures var p := Pool([1], [], []);
      && Partitioned(p) && InRange(p, [0, 0])
      && DropAll(p, [0, 0], false) == Pool([0], [0, 0], [])
      && !Partitioned(Pool([0], [0, 0], []))
  {
    var p := Pool([1], [], []);
    assert [0, 0][..1] == [0] && [0][..0] == [];
    assert DropAll(p, [0], false) == Pool([0], [0], []);
    var twice: seq<Block> := [0, 0] + [];
    assert twice == [0, 0] && twice[0] == twice[1];
  }

  lemma CoversFront(refcount: seq<nat>, blocks: seq<Block>)
    requires blocks != [] && forall b | b in blocks :: b < |refcount|
    ensures var n := |blocks| - 1;
      assert blocks[n] in blocks;
      Covers(refcount, blocks) <==>
        Covers(refcount, blocks[..n]) && multiset(blocks[..n])[blocks[n]] < refcount[blocks[n]]
  {
    var n := |blocks| - 1;
    FrontLastMultiset(blocks);
    assert blocks == blocks[..n] + [blocks[n]];
    assert blocks[n] in blocks;
    if Covers(refcount, blocks) {
      forall b: Block | b in blocks[..n]
        ensures b < |refcount| && multiset(blocks[..n])[b] <= refcount[b]
      {
        assert b in blocks;
      }
    }
    if Covers(refcount, blocks[..n]) && multiset(blocks[..n])[blocks[n]] < refcount[blocks[n]] {
      forall b: Block | b in blocks ensures multiset(blocks)[b] <= refcount[b] {
        if b != blocks[n] {
          assert b in blocks[..n];
        }
      }
    }
  }

  lemma {:induction false} AddAllCounts(p: Pool, blocks: seq<Block>)
    requires InRange(p, blocks)
    ensures var q := AddAll(p, blocks);
      && q.free == p.free && q.cached == p.cached
      && forall b: Block | b < |p.refcount| :: q.refcount[b] == p.refcount[b] + multiset(blocks)[b]
  {
    if blocks != [] {
      var n := |blocks| - 1;
      FrontLastMultiset(blocks);
      assert blocks[n] in blocks && forall b | b in blocks[..n] :: b in blocks;
      AddAllCounts(p, blocks[..n]);
    }
  }

  /** Taking more references keeps the partition exactly when each block is referenced already. */
  lemma IncrefKeepsIff(p: Pool, blocks: seq<Block>)
    requires Partitioned(p) && InRange(p, blocks)
    ensures Partitioned(AddAll(p, blocks)) <==> forall b | b in blocks :: p.refcount[b] > 0
  {
    AddAllCounts(p, blocks);
    var q := AddAll(p, blocks);
    forall b: Block | b < |p.refcount| ensures multiset(blocks)[b] > 0 <==> b in blocks {
      InMultiset(blocks, b);
    }
    if b :| b in blocks && p.refcount[b] == 0 {
      assert b in q.free || b in q.cached;
      assert q.refcount[b] > 0;
    }
  }

  lemma ReacquireKeeps(p: Pool, b: Block)
    requires Partitioned(p) && b < |p.refcount| && Live(p, b)
    ensures var q := Reacquired(p, b);
      Partitioned(q) && q.refcount == p.refcount[b := p.refcount[b] + 1] && q.free == p.free
  {
    var q := Reacquired(p, b);
    if b in p.cached {
      LeavesCache(p, b, q.cached);
      assert forall x: Block | x < |p.refcount| && x != b :: q.refcount[x] == p.refcount[x];
    }
  }

  /** Taken out of the cached queue, a block is in neither list, and every other one stays where it is. */
  lemma LeavesCache(p: Pool, b: Block, left: seq<Block>)
    requires Distinct(p.free + p.cached) && b in p.cached
    requires left == RemoveAt(p.cached, IndexIn(p.cached, b))
    ensures Distinct(p.free + left)
    ensures forall x :: x in p.free || x in left <==> (x in p.free || x in p.cached) && x != b
  {
    var i, s := IndexIn(p.cached, b), p.free + p.cached;
    assert s[|p.free| + i] == b;
    assert p.free + left == RemoveAt(s, |p.free| + i);
    DistinctRemove(s, |p.free| + i);
    forall x ensures x in p.free || x in left <==> (x in p.free || x in p.cached) && x != b {
      assert x in p.free || x in left <==> x in p.free + left;
      assert x in p.free || x in p.cached <==> x in s;
    }
  }

  lemma EvictKeeps(p: Pool, n: nat)
    requires Partitioned(p)
    ensures Partitioned(Evicted(p, n))
  {
    var q := Evicted(p, n);
    assert q.free + q.cached == p.free + p.cached;
    forall b ensures b in q.free || b in q.cached <==> b in p.free || b in p.cached {
      assert b in q.free || b in q.cached <==> b in q.free + q.cached;
    }
  }

  // ------------------------------------------------------------------- runs

  datatype Op =
    | Alloc(n: nat)
    | Incref(blocks: seq<Block>)
    | Release(blocks: seq<Block>, keep: bool)
    | Reacquire(block: Block)
    | Evict(n: nat)

  /** The pool with the references its callers hold. */
  datatype World = World(pool: Pool, held: multiset<Block>)

  /** What a caller may do: pass on or hand back references it holds, and ask for anything. */
  ghost predicate Allowed(w: World, op: Op) {
    match op
    case Alloc(n) => true
    case Incref(blocks) => forall b | b in blocks :: b in w.held
    case Release(blocks, keep) => multiset(blocks) <= w.held
    case Reacquire(b) => b < |w.pool.refcount|
    case Evict(n) => true
  }

  ghost predicate Sound(w: World) {
    && Partitioned(w.pool)
    && forall b: Block :: w.held[b] == if b < |w.pool.refcount| then w.pool.refcount[b] else 0
  }

  ghost function After(w: World, op: Op): World
    requires Sound(w) && Allowed(w, op)
  {
    match op
    case Alloc(n) =>
      if Available(w.pool) < n then w
      else World(TakeN(w.pool, n).0, w.held + multiset(TakeN(w.pool, n).1))
    case Incref(blocks) =>
      AllHeldInRange(w, blocks);
      World(AddAll(w.pool, blocks), w.held + multiset(blocks))
    case Release(blocks, keep) =>
      BackInRange(w, blocks);
      World(DropAll(w.pool, blocks, keep), w.held - multiset(blocks))
    case Reacquire(b) =>
      if Live(w.pool, b) then World(Reacquired(w.pool, b), w.held + multiset{b}) else w
    case Evict(n) => World(Evicted(w.pool, n), w.held)
  }

  lemma AllHeldInRange(w: World, blocks: seq<Block>)
    requires Sound(w) && forall b | b in blocks :: b in w.held
    ensures InRange(w.pool, blocks)
  {
    forall b | b in blocks ensures b < |w.pool.refcount| {
      assert w.held[b] > 0;
    }
  }

  lemma BackInRange(w: World, blocks: seq<Block>)
    requires Sound(w) && multiset(blocks) <= w.held
    ensures InRange(w.pool, blocks) && Covers(w.pool.refcount, blocks)
  {
    forall b: Block | b in blocks ensures b < |w.pool.refcount| && multiset(blocks)[b] <= w.pool.refcount[b] {
      InMultiset(blocks, b);
      assert multiset(blocks)[b] <= w.held[b];
    }
  }

  lemma {:induction false} OnceEach(s: seq<Block>)
    requires Distinct(s)
    ensures forall b :: multiset(s)[b] == if b in s then 1 else 0
  {
    if s != [] {
      HeadTailMultiset(s);
      OnceEach(s[1..]);
      forall b ensures multiset(s)[b] == if b in s then 1 else 0 {
        assert b in s <==> b == s[0] || b in s[1..];
      }
    }
  }

  /** Whatever a caller that only uses references it holds does, the pool stays partitioned and each
      count is the number of references held. */
  lemma EveryOpKeepsSound(w: World, op: Op)
    requires Sound(w) && Allowed(w, op)
    ensures Sound(After(w, op)) && |After(w, op).pool.refcount| == |w.pool.refcount|
  {
    match op
    case Alloc(n) =>
      if Available(w.pool) >= n {
        TakeNGives(w.pool, n);
        OnceEach(TakeN(w.pool, n).1);
      }
    case Incref(blocks) =>
      AllHeldInRange(w, blocks);
      IncrefKeepsIff(w.pool, blocks);
      AddAllCounts(w.pool, blocks);
      NothingOutOfRange(w.pool, blocks);
    case Release(blocks, keep) =>
      BackInRange(w, blocks);
      ReleaseKeepsIff(w.pool, blocks, keep);
      DropAllCounts(w.pool, blocks, keep);
      NothingOutOfRange(w.pool, blocks);
    case Reacquire(b) =>
      if Live(w.pool, b) {
        ReacquireKeeps(w.pool, b);
      }
    case Evict(n) => EvictKeeps(w.pool, n);
  }

  lemma NothingOutOfRange(p: Pool, blocks: seq<Block>)
    requires InRange(p, blocks)
    ensures forall b: Block | b >= |p.refcount| :: multiset(blocks)[b] == 0
  {
    forall b: Block | b >= |p.refcount| ensures multiset(blocks)[b] == 0 {
      InMultiset(blocks, b);
    }
  }

  /** A run of operations, each allowed when it is made. */
  ghost predicate AllowedRun(w: World, ops: seq<Op>)
    requires Sound(w)
    decreases |ops|
  {
    ops != [] ==> (
      && Allowed(w, ops[0])
      && (EveryOpKeepsSound(w, ops[0]); AllowedRun(After(w, ops[0]), ops[1..])))
  }

  ghost function Run(w: World, ops: seq<Op>): World
    requires Sound(w) && AllowedRun(w, ops)
    decreases |ops|
  {
    if ops == [] then w
    else
      EveryOpKeepsSound(w, ops[0]);
      Run(After(w, ops[0]), ops[1..])
  }

  /** Over every run of allowed operations, free, cached and referenced blocks partition the pool and
      each count equals the number of references held. */
  lemma {:induction false} RunsStaySound(w: World, ops: seq<Op>)
    requires Sound(w) && AllowedRun(w, ops)
    ensures Sound(Run(w, ops)) && |Run(w, ops).pool.refcount| == |w.pool.refcount|
    decreases |ops|
  {
    if ops != [] {
      EveryOpKeepsSound(w, ops[0]);
      RunsStaySound(After(w, ops[0]), ops[1..]);
    }
  }
}
