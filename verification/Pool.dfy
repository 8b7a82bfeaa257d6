/** The reference-counted block pool: its state and what each operation does to it. */
module PoolState {
  import opened Common

  type Block = nat

  datatype Pool = Pool(refcount: seq<nat>, free: seq<Block>, cached: seq<Block>)

  /** Free, cached and referenced blocks partition the pool, without duplicates. */
  ghost predicate Partitioned(p: Pool) {
    && Distinct(p.free + p.cached)
    && forall b: Block :: b in p.free || b in p.cached <==> b < |p.refcount| && p.refcount[b] == 0
  }

  function Reversed<T>(s: seq<T>): seq<T> {
    if s == [] then [] else [s[|s| - 1]] + Reversed(s[..|s| - 1])
  }

  /** The blocks that can be handed out, in the order in which they will be. */
  function Supply(p: Pool): seq<Block> { Reversed(p.free) + p.cached }

  function Available(p: Pool): nat { |p.free| + |p.cached| }

  /** Hands out the next block. */
  function TakeOne(p: Pool): (Pool, Block)
    requires Partitioned(p) && Available(p) > 0
  {
    if p.free != [] then
      var b := p.free[|p.free| - 1];
      assert b in p.free;
      (Pool(p.refcount[b := 1], p.free[..|p.free| - 1], p.cached), b)
    else
      var b := p.cached[0];
      assert b in p.cached;
      (Pool(p.refcount[b := 1], p.free, p.cached[1..]), b)
  }

  /** Handing out a block takes it off the front of the supply and keeps the partition. */
  lemma TakeKeeps(p: Pool)
    requires Partitioned(p) && Available(p) > 0
    ensures var (q, b) := TakeOne(p);
      && Partitioned(q) && Supply(p) == [b] + Supply(q) && Available(q) == Available(p) - 1
      && b < |p.refcount| && p.refcount[b] == 0 && q.refcount == p.refcount[b := 1]
  {
    var (q, b) := TakeOne(p);
    if p.free != [] {
      assert b in p.free;
      assert q.free + q.cached == RemoveAt(p.free + p.cached, |p.free| - 1);
      DistinctRemove(p.free + p.cached, |p.free| - 1);
      assert Supply(p) == [b] + Supply(q);
    } else {
      assert b in p.cached;
      assert q.free + q.cached == RemoveAt(p.free + p.cached, 0);
      DistinctRemove(p.free + p.cached, 0);
      assert Supply(p) == [b] + Supply(q);
    }
    forall x: Block ensures x in q.free || x in q.cached <==> x < |q.refcount| && q.refcount[x] == 0 {
      assert x in q.free || x in q.cached <==> x in q.free + q.cached;
      assert x in p.free || x in p.cached <==> x in p.free + p.cached;
    }
  }

  lemma DistinctRemove(s: seq<Block>, i: nat)
    requires Distinct(s) && i < |s|
    ensures Distinct(RemoveAt(s, i))
    ensures forall x :: x in RemoveAt(s, i) <==> x in s && x != s[i]
  {
    var r := RemoveAt(s, i);
    assert forall k | 0 <= k < |r| :: r[k] == if k < i then s[k] else s[k + 1];
    forall x ensures x in r <==> x in s && x != s[i] {
      if x in s && x != s[i] {
        var k :| 0 <= k < |s| && s[k] == x;
        assert r[if k < i then k else k - 1] == x;
      }
    }
  }

  /** Hands out `n` blocks. */
  function TakeN(p: Pool, n: nat): (Pool, seq<Block>)
    requires Partitioned(p) && Available(p) >= n
    ensures var (q, out) := TakeN(p, n);
      && Partitioned(q) && Available(q) == Available(p) - n && |q.refcount| == |p.refcount|
  {
    if n == 0 then (p, [])
    else
      var (q, out) := TakeN(p, n - 1);
      TakeKeeps(q);
      var (r, b) := TakeOne(q);
      (r, out + [b])
  }

  /** The blocks handed out are the first of the supply, distinct, unreferenced before and each with
      one reference after; no other count changes. */
  lemma {:induction false} TakeNGives(p: Pool, n: nat)
    requires Partitioned(p) && Available(p) >= n
    ensures var (q, out) := TakeN(p, n);
      && |out| == n && Supply(p) == out + Supply(q)
      && Distinct(out) && (forall b | b in out :: b < |p.refcount| && p.refcount[b] == 0)
      && (forall b: Block | b < |p.refcount| :: q.refcount[b] == if b in out then 1 else p.refcount[b])
  {
    if n > 0 {
      TakeNGives(p, n - 1);
      var (q, out) := TakeN(p, n - 1);
      TakeKeeps(q);
      var (r, b) := TakeOne(q);
      Regroup(out, b, Supply(r));
      assert b !in out;
    }
  }

  lemma Regroup(out: seq<Block>, b: Block, rest: seq<Block>)
    ensures out + ([b] + rest) == out + [b] + rest
    ensures Distinct(out) && b !in out ==> Distinct(out + [b])
  {
  }

  predicate InRange(p: Pool, blocks: seq<Block>) { forall b | b in blocks :: b < |p.refcount| }

  /** Drops one reference; a block left without any joins the free list or the cached queue. */
  function DropOne(p: Pool, b: Block, keep: bool): Pool
    requires b < |p.refcount|
  {
    var left := SatSub(p.refcount[b], 1);
    var q := p.(refcount := p.refcount[b := left]);
    if left > 0 then q
    else if keep then q.(cached := q.cached + [b])
    else q.(free := q.free + [b])
  }

  function DropAll(p: Pool, blocks: seq<Block>, keep: bool): (q: Pool)
    requires InRange(p, blocks)
    ensures |q.refcount| == |p.refcount|
  {
    if blocks == [] then p
    else
      var n := |blocks| - 1;
      assert blocks[n] in blocks && forall b | b in blocks[..n] :: b in blocks;
      DropOne(DropAll(p, blocks[..n], keep), blocks[n], keep)
  }

  function AddOne(p: Pool, b: Block): Pool
    requires b < |p.refcount|
  {
    p.(refcount := p.refcount[b := p.refcount[b] + 1])
  }

  function AddAll(p: Pool, blocks: seq<Block>): (q: Pool)
    requires InRange(p, blocks)
    ensures |q.refcount| == |p.refcount|
  {
    if blocks == [] then p
    else
      var n := |blocks| - 1;
      assert blocks[n] in blocks && forall b | b in blocks[..n] :: b in blocks;
      AddOne(AddAll(p, blocks[..n]), blocks[n])
  }

  predicate Live(p: Pool, b: Block)
    requires b < |p.refcount|
  {
    b in p.cached || p.refcount[b] > 0
  }

  function IndexIn(s: seq<Block>, b: Block): (i: nat)
    requires b in s
    ensures i < |s| && s[i] == b
  {
    if s[0] == b then 0 else 1 + IndexIn(s[1..], b)
  }

  /** Takes one more reference on a live block, out of the cached queue if it waits there. */
  function Reacquired(p: Pool, b: Block): Pool
    requires b < |p.refcount| && Live(p, b)
  {
    var q := if b in p.cached then p.(cached := RemoveAt(p.cached, IndexIn(p.cached, b))) else p;
    AddOne(q, b)
  }

  function Evicted(p: Pool, n: nat): Pool {
    var k := MinNat(n, |p.cached|);
    p.(cached := p.cached[k..], free := p.free + p.cached[..k])
  }
}

/** The pool object. */
module BlockPools {
  import opened Common
  import opened PoolState

  class BlockPool {
    var refcount: array<nat>
    var free: seq<Block>
    var cached: seq<Block>
    var watermark: real

    function State(): Pool
      reads this, refcount
    {
      Pool(refcount[..], free, cached)
    }

    constructor (blocks: nat, watermark: real)
      ensures fresh(refcount) && Partitioned(State())
      ensures State().refcount == seq(blocks, i => 0) && |free| == blocks && cached == []
      ensures 0.0 <= this.watermark <= 1.0
    {
      refcount := new nat[blocks](i => 0);
      free := seq(blocks, i requires 0 <= i < blocks => blocks - 1 - i);
      cached := [];
      this.watermark := MaxReal(0.0, MinReal(watermark, 1.0));
      new;
      assert refcount[..] == seq(blocks, i => 0);
      forall b: Block ensures b in free || b in cached <==> b < blocks && refcount[..][b] == 0 {
        if b < blocks {
          assert free[blocks - 1 - b] == b;
        }
      }
      assert free + cached == free;
    }

    /** Admission leaves the reserve untouched. */
    predicate CanAdmit(blocks: nat)
      reads this, refcount
    {
      Available(State()) >= blocks + Ceiling(refcount.Length as real * watermark)
    }

    /** Hands out `n` blocks, or changes nothing. */
    method Alloc(n: nat) returns (out: Option<seq<Block>>)
      requires Partitioned(State())
      modifies this`free, this`cached, refcount
      ensures out.Some? <==> old(Available(State())) >= n
      ensures out.None? ==> State() == old(State())
      ensures out.Some? ==> (State(), out.value) == old(TakeN(State(), n))
    {
      if |free| + |cached| < n {
        return None;
      }
      ghost var p := State();
      var taken: seq<Block> := [];
      for i := 0 to n
        invariant (State(), taken) == TakeN(p, i)
      {
        TakeKeeps(State());
        var b: Block;
        if free != [] {
          b := free[|free| - 1];
          free := free[..|free| - 1];
        } else {
          b := cached[0];
          cached := cached[1..];
        }
        refcount[b] := 1;
        taken := taken + [b];
      }
      out := Some(taken);
    }

    method Incref(blocks: seq<Block>)
      requires InRange(State(), blocks)
      modifies refcount
      ensures State() == AddAll(old(State()), blocks)
    {
      ghost var p := State();
      for i := 0 to |blocks|
        invariant InRange(p, blocks[..i])
        invariant State() == AddAll(p, blocks[..i])
      {
        assert blocks[..i + 1] == blocks[..i] + [blocks[i]] && blocks[i] in blocks;
        assert blocks[..i + 1][..i] == blocks[..i];
        refcount[blocks[i]] := refcount[blocks[i]] + 1;
      }
      assert blocks[..|blocks|] == blocks;
    }

    method Release(blocks: seq<Block>)
      requires InRange(State(), blocks)
      modifies this`free, refcount
      ensures State() == DropAll(old(State()), blocks, false)
    {
      ghost var p := State();
      for i := 0 to |blocks|
        invariant InRange(p, blocks[..i])
        invariant State() == DropAll(p, blocks[..i], false)
      {
        assert blocks[..i + 1] == blocks[..i] + [blocks[i]] && blocks[i] in blocks;
        assert blocks[..i + 1][..i] == blocks[..i];
        var b := blocks[i];
        if refcount[b] > 0 {
          refcount[b] := refcount[b] - 1;
        }
        if refcount[b] == 0 {
          free := free + [b];
        }
      }
      assert blocks[..|blocks|] == blocks;
    }

    method ReleaseToCache(blocks: seq<Block>)
      requires InRange(State(), blocks)
      modifies this`cached, refcount
      ensures State() == DropAll(old(State()), blocks, true)
    {
      ghost var p := State();
      for i := 0 to |blocks|
        invariant InRange(p, blocks[..i])
        invariant State() == DropAll(p, blocks[..i], true)
      {
        assert blocks[..i + 1] == blocks[..i] + [blocks[i]] && blocks[i] in blocks;
        assert blocks[..i + 1][..i] == blocks[..i];
        var b := blocks[i];
        if refcount[b] > 0 {
          refcount[b] := refcount[b] - 1;
        }
        if refcount[b] == 0 {
          cached := cached + [b];
        }
      }
      assert blocks[..|blocks|] == blocks;
    }

    method Reacquire(block: Block) returns (ok: bool)
      requires block < refcount.Length
      modifies this`cached, refcount
      ensures ok == Live(old(State()), block)
      ensures State() == if ok then Reacquired(old(State()), block) else old(State())
    {
      if block in cached {
        cached := RemoveAt(cached, IndexIn(cached, block));
        refcount[block] := refcount[block] + 1;
        ok := true;
      } else if refcount[block] > 0 {
        refcount[block] := refcount[block] + 1;
        ok := true;
      } else {
        ok := false;
      }
    }

    method EvictCached(n: nat) returns (out: seq<Block>)
      modifies this`free, this`cached
      ensures State() == Evicted(old(State()), n)
      ensures out == old(cached)[..MinNat(n, |old(cached)|)]
    {
      out := [];
      var i := 0;
      while i < n && cached != []
        invariant i == |out| <= MinNat(n, |old(cached)|) && out == old(cached)[..i]
        invariant cached == old(cached)[i..] && free == old(free) + out
        decreases |cached|
      {
        var b := cached[0];
        cached := cached[1..];
        free := free + [b];
        out := out + [b];
        i := i + 1;
      }
    }
  }
}
