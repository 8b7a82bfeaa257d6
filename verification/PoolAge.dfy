/** Cached blocks are given up in the order in which they were let go. */
module PoolAge {
  import opened Common
  import opened PoolState
  import opened PoolLaws
  import opened BlockPools

  /** Since which operation each cached block has waited. */
  type Ages = map<Block, nat>

  /** Operation `k` took the pool from `s` to `t`: what is cached since then has waited since `k`. */
  ghost function Noted(ages: Ages, s: Pool, t: Pool, k: nat): Ages {
    map b | b in t.cached :: if b in s.cached && b in ages then ages[b] else k
  }

  ghost predicate Known(cached: seq<Block>, ages: Ages, k: nat) {
    forall b | b in cached :: b in ages && ages[b] < k
  }

  /** The queue of cached blocks has the longest waiting first. */
  ghost predicate ByAge(cached: seq<Block>, ages: Ages, k: nat) {
    Known(cached, ages, k) && forall i, j | 0 <= i < j < |cached| :: ages[cached[i]] <= ages[cached[j]]
  }

  lemma FrontLeaves(s: Pool, t: Pool, ages: Ages, k: nat, m: nat)
    requires ByAge(s.cached, ages, k) && m <= |s.cached| && t.cached == s.cached[m..]
    ensures ByAge(t.cached, Noted(ages, s, t, k), k + 1)
  {
    forall b | b in t.cached ensures b in s.cached && b in ages && ages[b] < k {
    }
  }

  lemma OneLeaves(s: Pool, t: Pool, ages: Ages, k: nat, m: nat)
    requires ByAge(s.cached, ages, k) && m < |s.cached| && t.cached == RemoveAt(s.cached, m)
    ensures ByAge(t.cached, Noted(ages, s, t, k), k + 1)
  {
    assert forall i | 0 <= i < |t.cached| :: t.cached[i] == s.cached[if i < m then i else i + 1];
  }

  lemma SomeJoin(s: Pool, t: Pool, ages: Ages, k: nat, joined: seq<Block>)
    requires ByAge(s.cached, ages, k) && t.cached == s.cached + joined && Distinct(t.cached)
    ensures ByAge(t.cached, Noted(ages, s, t, k), k + 1)
  {
    var after := Noted(ages, s, t, k);
    forall i | 0 <= i < |t.cached|
      ensures after[t.cached[i]] == if i < |s.cached| then ages[s.cached[i]] else k
    {
      assert forall j | 0 <= j < |s.cached| :: t.cached[j] == s.cached[j];
    }
  }

  /** Of `n` blocks handed out, the last `m` come from the front of the cached blocks, and those only once
      the free list is empty. */
  ghost predicate FromFront(p: Pool, q: Pool, out: seq<Block>, n: nat, m: nat) {
    && m <= |p.cached| && m <= n && |out| == n
    && q.cached == p.cached[m..] && out[n - m..] == p.cached[..m]
    && (m > 0 ==> q.free == [])
    && AllIn(out[..n - m], p.free) && AllIn(q.free, p.free)
  }

  ghost predicate AllIn(s: seq<Block>, t: seq<Block>) { forall b | b in s :: b in t }

  lemma {:induction false} TakesFront(p: Pool, n: nat) returns (m: nat)
    requires Partitioned(p) && Available(p) >= n
    ensures FromFront(p, TakeN(p, n).0, TakeN(p, n).1, n, m)
  {
    if n == 0 {
      m := 0;
    } else {
      m := TakesFront(p, n - 1);
      var (q, out) := TakeN(p, n - 1);
      TakeKeeps(q);
      if q.free == [] {
        TakenFromQueue(p, q, out, n, m);
        m := m + 1;
      } else {
        TakenFromList(p, q, out, n);
      }
    }
  }

  lemma TakenFromQueue(p: Pool, q: Pool, out: seq<Block>, n: nat, m: nat)
    requires Partitioned(q) && Available(q) > 0 && n > 0 && q.free == []
    requires FromFront(p, q, out, n - 1, m)
    ensures FromFront(p, TakeOne(q).0, out + [TakeOne(q).1], n, m + 1)
  {
    var b := q.cached[0];
    assert b == p.cached[m];
    assert (out + [b])[n - (m + 1)..] == out[n - 1 - m..] + [b];
    assert p.cached[..m + 1] == p.cached[..m] + [b];
    assert (out + [b])[..n - (m + 1)] == out[..n - 1 - m];
    assert p.cached[m..][1..] == p.cached[m + 1..];
  }

  lemma TakenFromList(p: Pool, q: Pool, out: seq<Block>, n: nat)
    requires Partitioned(q) && Available(q) > 0 && n > 0 && q.free != []
    requires FromFront(p, q, out, n - 1, 0)
    ensures FromFront(p, TakeOne(q).0, out + [TakeOne(q).1], n, 0)
  {
    var b := q.free[|q.free| - 1];
    assert b in q.free;
    assert out[..n - 1] == out && (out + [b])[..n] == out + [b];
    assert AllIn(q.free[..|q.free| - 1], q.free);
  }

  lemma {:induction false} DropsJoin(p: Pool, blocks: seq<Block>, keep: bool) returns (joined: seq<Block>)
    requires InRange(p, blocks)
    ensures DropAll(p, blocks, keep).cached == p.cached + joined
  {
    joined := [];
    if blocks != [] {
      var n := |blocks| - 1;
      assert blocks[n] in blocks && forall b | b in blocks[..n] :: b in blocks;
      var q := DropAll(p, blocks[..n], keep);
      joined := DropsJoin(p, blocks[..n], keep);
      var left := SatSub(q.refcount[blocks[n]], 1);
      if left == 0 && keep {
        assert p.cached + joined + [blocks[n]] == p.cached + (joined + [blocks[n]]);
        joined := joined + [blocks[n]];
      }
    }
  }

  lemma {:induction false} AddsLeave(p: Pool, blocks: seq<Block>)
    requires InRange(p, blocks)
    ensures AddAll(p, blocks).cached == p.cached
  {
    if blocks != [] {
      var n := |blocks| - 1;
      assert blocks[n] in blocks && forall b | b in blocks[..n] :: b in blocks;
      AddsLeave(p, blocks[..n]);
    }
  }

  lemma CachedDistinct(p: Pool)
    requires Partitioned(p)
    ensures Distinct(p.cached)
  {
    forall i, j | 0 <= i < j < |p.cached| ensures p.cached[i] != p.cached[j] {
      var all := p.free + p.cached;
      assert all[|p.free| + i] == p.cached[i] && all[|p.free| + j] == p.cached[j];
    }
  }

  lemma OpKeepsAge(w: World, op: Op, t: World, ages: Ages, k: nat)
    requires Sound(w) && Allowed(w, op) && t == After(w, op) && ByAge(w.pool.cached, ages, k)
    ensures ByAge(t.pool.cached, Noted(ages, w.pool, t.pool, k), k + 1)
  {
    var s := w.pool;
    match op
    case Alloc(n) =>
      var m := 0;
      if Available(s) >= n {
        m := TakesFront(s, n);
      }
      FrontLeaves(s, t.pool, ages, k, m);
    case Incref(blocks) =>
      AllHeldInRange(w, blocks);
      AddsLeave(s, blocks);
      FrontLeaves(s, t.pool, ages, k, 0);
    case Release(blocks, keep) =>
      BackInRange(w, blocks);
      var joined := DropsJoin(s, blocks, keep);
      EveryOpKeepsSound(w, op);
      CachedDistinct(t.pool);
      SomeJoin(s, t.pool, ages, k, joined);
    case Reacquire(b) =>
      if Live(s, b) && b in s.cached {
        OneLeaves(s, t.pool, ages, k, IndexIn(s.cached, b));
      } else {
        FrontLeaves(s, t.pool, ages, k, 0);
      }
    case Evict(n) => FrontLeaves(s, t.pool, ages, k, MinNat(n, |s.cached|));
  }

  /** The ages along a run whose first operation has number `k`. */
  ghost function AgesAlong(w: World, ops: seq<Op>, ages: Ages, k: nat): Ages
    requires Sound(w) && AllowedRun(w, ops)
    decreases |ops|
  {
    if ops == [] then ages
    else
      EveryOpKeepsSound(w, ops[0]);
      var t := After(w, ops[0]);
      AgesAlong(t, ops[1..], Noted(ages, w.pool, t.pool, k), k + 1)
  }

  lemma {:induction false} RunsKeepAge(w: World, ops: seq<Op>, ages: Ages, k: nat)
    requires Sound(w) && AllowedRun(w, ops) && ByAge(w.pool.cached, ages, k)
    ensures ByAge(Run(w, ops).pool.cached, AgesAlong(w, ops, ages, k), k + |ops|)
    decreases |ops|
  {
    if ops != [] {
      var t := After(w, ops[0]);
      EveryOpKeepsSound(w, ops[0]);
      OpKeepsAge(w, ops[0], t, ages, k);
      RunsKeepAge(t, ops[1..], Noted(ages, w.pool, t.pool, k), k + 1);
    }
  }

  /** Of `b`, given up, and `c`, kept: `b` has waited at least as long. */
  ghost predicate NoYounger(ages: Ages, b: Block, c: Block) {
    b in ages && c in ages && ages[b] <= ages[c]
  }

  lemma FrontIsOldest(cached: seq<Block>, ages: Ages, k: nat, m: nat)
    requires ByAge(cached, ages, k) && m <= |cached|
    ensures forall b, c | b in cached[..m] && c in cached[m..] :: NoYounger(ages, b, c)
  {
    forall b, c | b in cached[..m] && c in cached[m..] ensures NoYounger(ages, b, c) {
      var i :| 0 <= i < m && cached[i] == b;
      var j :| 0 <= j < |cached[m..]| && cached[m..][j] == c;
      assert cached[m + j] == c;
    }
  }

  /** Over every run from an empty cache: an allocation touches cached blocks only once the free list is
      empty; and what it takes, like what an eviction takes, has waited at least as long as anything it
      leaves. */
  lemma OldestGoesFirst(w: World, ops: seq<Op>, n: nat)
    requires Sound(w) && AllowedRun(w, ops) && w.pool.cached == []
    ensures var p, ages := Run(w, ops).pool, AgesAlong(w, ops, map[], 0);
      && (forall b, c | b in p.cached[..MinNat(n, |p.cached|)] && c in Evicted(p, n).cached ::
            NoYounger(ages, b, c))
      && (Available(p) >= n && Partitioned(p) ==>
            var (q, out) := TakeN(p, n);
            forall b | b in out && b in p.cached ::
              q.free == [] && forall c | c in q.cached :: NoYounger(ages, b, c))
  {
    var p, ages := Run(w, ops).pool, AgesAlong(w, ops, map[], 0);
    RunsKeepAge(w, ops, map[], 0);
    RunsStaySound(w, ops);
    FrontIsOldest(p.cached, ages, |ops|, MinNat(n, |p.cached|));
    if Available(p) >= n {
      TakesOldest(p, n, ages, |ops|);
    }
  }

  lemma TakesOldest(p: Pool, n: nat, ages: Ages, k: nat)
    requires Partitioned(p) && Available(p) >= n && ByAge(p.cached, ages, k)
    ensures var (q, out) := TakeN(p, n);
      forall b | b in out && b in p.cached ::
        q.free == [] && forall c | c in q.cached :: NoYounger(ages, b, c)
  {
    var (q, out) := TakeN(p, n);
    var m := TakesFront(p, n);
    FrontIsOldest(p.cached, ages, k, m);
    forall b | b in out && b in p.cached ensures b in p.cached[..m] && q.free == [] {
      NotBoth(p, b);
      assert out == out[..n - m] + out[n - m..];
    }
  }

  lemma NotBoth(p: Pool, b: Block)
    requires Partitioned(p) && b in p.cached
    ensures b !in p.free
  {
    var all := p.free + p.cached;
    forall i, j | 0 <= i < |p.free| && 0 <= j < |p.cached| ensures p.free[i] != p.cached[j] {
      assert all[i] == p.free[i] && all[|p.free| + j] == p.cached[j];
    }
  }

  /** The supply after an eviction: what was evicted, the last first, then what was free, then the rest. */
  lemma EvictedComeFirst(p: Pool, n: nat)
    ensures var k := MinNat(n, |p.cached|);
      Supply(Evicted(p, n)) == Reversed(p.cached[..k]) + Reversed(p.free) + p.cached[k..]
  {
    ReversedAppend(p.free, p.cached[..MinNat(n, |p.cached|)]);
  }

  lemma {:induction false} ReversedAppend<T>(a: seq<T>, b: seq<T>)
    ensures Reversed(a + b) == Reversed(b) + Reversed(a)
  {
    if b == [] {
      assert a + b == a;
    } else {
      assert (a + b)[..|a + b| - 1] == a + b[..|b| - 1];
      ReversedAppend(a, b[..|b| - 1]);
    }
  }

  /** Admission says yes exactly when the blocks can be handed out and the share set aside is still there
      afterwards. */
  lemma AdmissionKeepsReserve(pool: BlockPool, n: nat, share: real)
    requires Partitioned(pool.State()) && pool.watermark >= 0.0
    requires share == pool.refcount.Length as real * pool.watermark
    ensures pool.CanAdmit(n) <==>
      Available(pool.State()) >= n && Available(TakeN(pool.State(), n).0) as real >= share
  {
    ProductNonNegative(pool.refcount.Length as real, pool.watermark);
    LeavesShare(Available(pool.State()), n, share);
  }

  lemma ProductNonNegative(x: real, y: real)
    requires x >= 0.0 && y >= 0.0
    ensures x * y >= 0.0
  {
  }

  lemma LeavesShare(free: nat, n: nat, share: real)
    requires share >= 0.0
    ensures free >= n + Ceiling(share) <==> free >= n && (free - n) as real >= share
  {
  }
}
