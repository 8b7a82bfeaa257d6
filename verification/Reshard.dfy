/** Mapping key/value heads from one tensor-parallel layout to another. */
module Reshard {

  datatype Layout = Layout(heads: nat, srcTp: nat, dstTp: nat)

  datatype Edge = Edge(head: nat, src: nat, dst: nat)

  datatype Plan = Edges(edges: seq<Edge>) | Rejected(reason: string)

  /** How many ranks of the destination hold each head. */
  function Replication(l: Layout): nat {
    if l.heads == 0 then 1 else if l.dstTp / l.heads >= 1 then l.dstTp / l.heads else 1
  }

  function SourceRank(l: Layout, head: nat): nat
    requires l.heads > 0 && l.srcTp > 0
  {
    if l.srcTp <= l.heads then
      QuotientPositive(l.heads, l.srcTp);
      head / (l.heads / l.srcTp)
    else head * (l.srcTp / l.heads)
  }

  lemma QuotientPositive(a: nat, b: nat)
    requires 0 < b <= a
    ensures a / b > 0
  {
  }

  /** The first of the ranks that share `head`. */
  function FirstRank(l: Layout, head: nat): nat
    requires l.heads > 0
  {
    head * (l.dstTp / l.heads)
  }

  /** The edges that carry `head`, to the `r` first ranks that want it. */
  function EdgesTo(l: Layout, head: nat, r: nat): seq<Edge>
    requires l.heads > 0 && l.srcTp > 0 && l.dstTp > 0
  {
    if r == 0 then []
    else EdgesTo(l, head, r - 1) + [Edge(head, SourceRank(l, head), FirstRank(l, head) + r - 1)]
  }

  /** The edges that carry `head`. */
  function EdgesOf(l: Layout, head: nat): seq<Edge>
    requires l.heads > 0 && l.srcTp > 0 && l.dstTp > 0
  {
    if l.dstTp <= l.heads then
      QuotientPositive(l.heads, l.dstTp);
      [Edge(head, SourceRank(l, head), head / (l.heads / l.dstTp))]
    else EdgesTo(l, head, l.dstTp / l.heads)
  }

  function EdgesBelow(l: Layout, n: nat): seq<Edge>
    requires l.heads > 0 && l.srcTp > 0 && l.dstTp > 0
  {
    if n == 0 then [] else EdgesBelow(l, n - 1) + EdgesOf(l, n - 1)
  }

  function PlanOf(l: Layout): Plan {
    if l.heads == 0 || l.srcTp == 0 || l.dstTp == 0 then
      Rejected("reshard needs non-zero heads and TP degrees")
    else if l.srcTp > l.heads && l.srcTp % l.heads != 0 then
      Rejected("src TP does not divide evenly into the kv heads")
    else if l.dstTp > l.heads && l.dstTp % l.heads != 0 then
      Rejected("dst TP does not divide evenly into the kv heads")
    else Edges(EdgesBelow(l, l.heads))
  }

  method MakePlan(l: Layout) returns (p: Plan)
    ensures p == PlanOf(l)
  {
    if l.heads == 0 || l.srcTp == 0 || l.dstTp == 0 {
      return Rejected("reshard needs non-zero heads and TP degrees");
    }
    if l.srcTp > l.heads && l.srcTp % l.heads != 0 {
      return Rejected("src TP does not divide evenly into the kv heads");
    }
    if l.dstTp > l.heads && l.dstTp % l.heads != 0 {
      return Rejected("dst TP does not divide evenly into the kv heads");
    }
    var edges: seq<Edge> := [];
    for head := 0 to l.heads
      invariant edges == EdgesBelow(l, head)
    {
      var src := SourceRank(l, head);
      if l.dstTp <= l.heads {
        QuotientPositive(l.heads, l.dstTp);
        edges := edges + [Edge(head, src, head / (l.heads / l.dstTp))];
      } else {
        var rep := l.dstTp / l.heads;
        ghost var before := edges;
        for r := 0 to rep
          invariant edges == before + EdgesTo(l, head, r)
        {
          edges := edges + [Edge(head, src, head * rep + r)];
        }
      }
    }
    p := Edges(edges);
  }

  // ---------------------------------------------------------------- layouts

  /** Rank `rank` of `tp` owns `head`: a run of heads each, or one head shared by a run of ranks. */
  predicate Owns(heads: nat, tp: nat, rank: nat, head: nat)
    requires heads > 0 && tp > 0
  {
    && rank < tp && head < heads
    && if tp <= heads then rank * (heads / tp) <= head < (rank + 1) * (heads / tp)
       else head * (tp / heads) <= rank < (head + 1) * (tp / heads)
  }

  /** One of the two numbers divides the other. */
  predicate Even(heads: nat, tp: nat) {
    heads > 0 && tp > 0 && (heads % tp == 0 || tp % heads == 0)
  }

  lemma DivisorsAreSmaller(a: nat, b: nat)
    requires 0 < a < b
    ensures a % b == a
  {
  }

  /** `x / q` is the block of size `q` that `x` falls in. */
  lemma BlockOf(x: nat, q: nat, block: nat)
    requires q > 0
    ensures block * q <= x < (block + 1) * q <==> block == x / q
  {
    var d := x / q;
    assert x == d * q + x % q;
    if block < d {
      assert (block + 1) * q <= d * q;
    } else if block > d {
      assert (d + 1) * q <= block * q;
    }
  }

  lemma BlocksFill(x: nat, q: nat, n: nat)
    requires q > 0
    ensures x < n * q <==> x / q < n
  {
    var d := x / q;
    BlockOf(x, q, d);
    assert d < n ==> (d + 1) * q <= n * q;
    assert d >= n ==> n * q <= d * q;
  }

  lemma Whole(a: nat, b: nat)
    requires b > 0 && a % b == 0
    ensures a == b * (a / b)
  {
  }

  /** The ranks that share `head` lie among the ranks of all heads. */
  lemma Spread(head: nat, heads: nat, q: nat, r: nat)
    requires head < heads && r < q
    ensures head * q <= head * q + r < (head + 1) * q <= heads * q
  {
    assert (head + 1) * q == head * q + q;
    assert (head + 1) * q <= heads * q;
  }

  lemma {:induction false} EdgesToAre(l: Layout, head: nat, r: nat)
    requires l.heads > 0 && l.srcTp > 0 && l.dstTp > 0
    ensures |EdgesTo(l, head, r)| == r
    ensures forall i | 0 <= i < r ::
      EdgesTo(l, head, r)[i] == Edge(head, SourceRank(l, head), FirstRank(l, head) + i)
  {
    if r > 0 {
      EdgesToAre(l, head, r - 1);
    }
  }

  lemma OwnerIs(heads: nat, tp: nat, rank: nat, head: nat)
    requires 0 < tp <= heads && head < heads && Even(heads, tp)
    ensures heads / tp > 0
    ensures Owns(heads, tp, rank, head) <==> rank == head / (heads / tp)
  {
    if tp < heads {
      DivisorsAreSmaller(tp, heads);
    }
    Whole(heads, tp);
    QuotientPositive(heads, tp);
    BlockOf(head, heads / tp, rank);
    BlocksFill(head, heads / tp, tp);
  }

  lemma SharedBy(heads: nat, tp: nat, rank: nat, head: nat)
    requires 0 < heads < tp && head < heads && Even(heads, tp)
    ensures tp / heads > 0
    ensures Owns(heads, tp, rank, head) <==> head * (tp / heads) <= rank < head * (tp / heads) + tp / heads
  {
    DivisorsAreSmaller(heads, tp);
    Whole(tp, heads);
    QuotientPositive(tp, heads);
    Spread(head, heads, tp / heads, 0);
  }

  lemma SourceOwns(l: Layout, head: nat)
    requires Even(l.heads, l.srcTp) && head < l.heads
    ensures Owns(l.heads, l.srcTp, SourceRank(l, head), head)
  {
    if l.srcTp <= l.heads {
      OwnerIs(l.heads, l.srcTp, SourceRank(l, head), head);
    } else {
      SharedBy(l.heads, l.srcTp, SourceRank(l, head), head);
    }
  }

  /** The edges `es` go once each to exactly the ranks that own `head`. */
  ghost predicate Reaches(l: Layout, head: nat, es: seq<Edge>)
    requires l.heads > 0 && l.dstTp > 0
  {
    && (forall i, j | 0 <= i < j < |es| :: es[i].dst != es[j].dst)
    && (forall rank: nat ::
          Owns(l.heads, l.dstTp, rank, head) <==> exists i :: 0 <= i < |es| && es[i].dst == rank)
  }

  lemma OneOwner(l: Layout, head: nat)
    requires l.srcTp > 0 && Even(l.heads, l.dstTp) && head < l.heads && l.dstTp <= l.heads
    ensures Reaches(l, head, EdgesOf(l, head))
  {
    var es := EdgesOf(l, head);
    forall rank: nat
      ensures Owns(l.heads, l.dstTp, rank, head) <==> exists i :: 0 <= i < |es| && es[i].dst == rank
    {
      OwnerIs(l.heads, l.dstTp, rank, head);
      assert es[0].dst == head / (l.heads / l.dstTp);
    }
  }

  lemma ManyOwners(l: Layout, head: nat)
    requires l.srcTp > 0 && Even(l.heads, l.dstTp) && head < l.heads && l.dstTp > l.heads
    ensures Reaches(l, head, EdgesOf(l, head))
  {
    var es, q := EdgesOf(l, head), l.dstTp / l.heads;
    EdgesToAre(l, head, q);
    forall rank: nat
      ensures Owns(l.heads, l.dstTp, rank, head) <==> exists i :: 0 <= i < |es| && es[i].dst == rank
    {
      SharedBy(l.heads, l.dstTp, rank, head);
      if Owns(l.heads, l.dstTp, rank, head) {
        assert es[rank - head * q].dst == rank;
      }
    }
  }

  lemma EdgesOfHead(l: Layout, head: nat)
    requires l.heads > 0 && l.srcTp > 0 && l.dstTp > 0
    ensures var es := EdgesOf(l, head);
      && |es| == Replication(l)
      && forall i | 0 <= i < |es| :: es[i].head == head && es[i].src == SourceRank(l, head)
  {
    if l.dstTp <= l.heads {
      SmallQuotient(l.dstTp, l.heads);
    } else {
      QuotientPositive(l.dstTp, l.heads);
      EdgesToAre(l, head, l.dstTp / l.heads);
    }
  }

  lemma SmallQuotient(a: nat, b: nat)
    requires 0 < a <= b
    ensures a / b <= 1
  {
  }

  // ----------------------------------------------------------- the whole plan

  /** The edges of the heads below `n`, taken together. */
  ghost predicate Serves(l: Layout, es: seq<Edge>, n: nat)
    requires l.heads > 0 && l.srcTp > 0 && l.dstTp > 0
  {
    && (forall e | e in es ::
          e.head < n && Owns(l.heads, l.srcTp, e.src, e.head) && Owns(l.heads, l.dstTp, e.dst, e.head))
    && (forall i, j | 0 <= i < j < |es| :: (es[i].head, es[i].dst) != (es[j].head, es[j].dst))
    && (forall head: nat, rank: nat | head < n && Owns(l.heads, l.dstTp, rank, head) ::
          exists i :: 0 <= i < |es| && es[i].head == head && es[i].dst == rank)
  }

  lemma HeadReached(l: Layout, head: nat)
    requires l.srcTp > 0 && Even(l.heads, l.dstTp) && head < l.heads
    ensures Reaches(l, head, EdgesOf(l, head))
  {
    if l.dstTp <= l.heads {
      OneOwner(l, head);
    } else {
      ManyOwners(l, head);
    }
  }

  /** The edges bring `head` from a rank that owns it to exactly the ranks that do. */
  ghost predicate Carries(l: Layout, head: nat, es: seq<Edge>)
    requires l.heads > 0 && l.srcTp > 0 && l.dstTp > 0
  {
    && (forall i | 0 <= i < |es| :: es[i].head == head && Owns(l.heads, l.srcTp, es[i].src, head))
    && Reaches(l, head, es)
  }

  lemma HeadCarried(l: Layout, head: nat)
    requires Even(l.heads, l.srcTp) && Even(l.heads, l.dstTp) && head < l.heads
    ensures Carries(l, head, EdgesOf(l, head))
  {
    SourceOwns(l, head);
    EdgesOfHead(l, head);
    HeadReached(l, head);
  }

  lemma {:induction false} EdgesBelowServe(l: Layout, n: nat)
    requires Even(l.heads, l.srcTp) && Even(l.heads, l.dstTp) && n <= l.heads
    ensures Serves(l, EdgesBelow(l, n), n)
  {
    if n > 0 {
      EdgesBelowServe(l, n - 1);
      HeadCarried(l, n - 1);
      AppendServes(l, EdgesBelow(l, n - 1), EdgesOf(l, n - 1), n - 1, EdgesBelow(l, n));
    }
  }

  lemma {:induction false} EdgesBelowCount(l: Layout, n: nat)
    requires l.heads > 0 && l.srcTp > 0 && l.dstTp > 0
    ensures |EdgesBelow(l, n)| == n * Replication(l)
  {
    if n > 0 {
      EdgesBelowCount(l, n - 1);
      EdgesOfHead(l, n - 1);
      OneMore(n, Replication(l));
    }
  }

  lemma OneMore(n: nat, k: nat)
    requires n > 0
    ensures n * k == (n - 1) * k + k
  {
  }

  lemma AppendServes(l: Layout, front: seq<Edge>, last: seq<Edge>, head: nat, es: seq<Edge>)
    requires l.heads > 0 && l.srcTp > 0 && l.dstTp > 0 && Serves(l, front, head)
    requires Carries(l, head, last) && es == front + last
    ensures Serves(l, es, head + 1)
  {
    forall h: nat, rank: nat | h < head + 1 && Owns(l.heads, l.dstTp, rank, h)
      ensures exists i :: 0 <= i < |es| && es[i].head == h && es[i].dst == rank
    {
      if h < head {
        var i :| 0 <= i < |front| && front[i].head == h && front[i].dst == rank;
        assert es[i].head == h;
      } else {
        var i :| 0 <= i < |last| && last[i].dst == rank;
        assert es[|front| + i].dst == rank && es[|front| + i].head == h;
      }
    }
    forall i, j | 0 <= i < j < |es| ensures (es[i].head, es[i].dst) != (es[j].head, es[j].dst) {
      if i < |front| {
        assert es[i] in front;
      }
    }
  }

  /** When TP degrees and head count divide, every edge runs from a rank that owns its head to one
      that wants it, every wanted head arrives, none arrives twice, and there are as many edges as
      heads times replication. */
  lemma PlanServes(l: Layout)
    requires Even(l.heads, l.srcTp) && Even(l.heads, l.dstTp)
    ensures PlanOf(l).Edges? && Serves(l, PlanOf(l).edges, l.heads)
    ensures |PlanOf(l).edges| == l.heads * Replication(l)
  {
    if l.srcTp > l.heads {
      DivisorsAreSmaller(l.heads, l.srcTp);
    }
    if l.dstTp > l.heads {
      DivisorsAreSmaller(l.heads, l.dstTp);
    }
    EdgesBelowServe(l, l.heads);
    EdgesBelowCount(l, l.heads);
  }

  ghost predicate RanksExist(l: Layout, p: Plan) {
    p.Edges? && forall e | e in p.edges :: e.src < l.srcTp && e.dst < l.dstTp
  }

  /** The plan names only existing ranks exactly when both degrees divide: a degree below the head
      count that does not divide it is accepted but overruns. */
  lemma RanksExistIffEven(l: Layout)
    ensures RanksExist(l, PlanOf(l)) <==> Even(l.heads, l.srcTp) && Even(l.heads, l.dstTp)
  {
    if Even(l.heads, l.srcTp) && Even(l.heads, l.dstTp) {
      PlanServes(l);
    } else if PlanOf(l).Edges? {
      var e := LastEdge(l);
      if !Even(l.heads, l.srcTp) {
        LastHeadOverruns(l.heads, l.srcTp);
      } else {
        LastHeadOverruns(l.heads, l.dstTp);
      }
    }
  }

  /** For example: of four heads over three ranks the last goes to rank 3, which does not exist. */
  lemma UnevenPlanOverruns()
    ensures var l := Layout(4, 1, 3);
      && PlanOf(l) == Edges([Edge(0, 0, 0), Edge(1, 0, 1), Edge(2, 0, 2), Edge(3, 0, 3)])
      && !RanksExist(l, PlanOf(l))
  {
    var l := Layout(4, 1, 3);
    assert EdgesBelow(l, 2) == [Edge(0, 0, 0), Edge(1, 0, 1)];
    assert EdgesBelow(l, 4) == EdgesBelow(l, 2) + [Edge(2, 0, 2)] + [Edge(3, 0, 3)];
    assert Edge(3, 0, 3) in PlanOf(l).edges;
  }

  /** Some edge of the plan carries the last head. */
  lemma LastEdge(l: Layout) returns (e: Edge)
    requires PlanOf(l).Edges?
    ensures e in PlanOf(l).edges && e.src == SourceRank(l, l.heads - 1)
    ensures l.dstTp <= l.heads && l.heads / l.dstTp > 0 ==> e.dst == (l.heads - 1) / (l.heads / l.dstTp)
  {
    var head := l.heads - 1;
    var es := EdgesOf(l, head);
    if l.dstTp > l.heads {
      QuotientPositive(l.dstTp, l.heads);
      EdgesToAre(l, head, l.dstTp / l.heads);
    }
    assert PlanOf(l).edges == EdgesBelow(l, head) + es;
    e := es[0];
  }

  lemma LastHeadOverruns(heads: nat, tp: nat)
    requires 0 < tp && 0 < heads && !Even(heads, tp) && (tp <= heads || tp % heads == 0)
    ensures tp <= heads && heads / tp > 0 && (heads - 1) / (heads / tp) >= tp
  {
    var q := heads / tp;
    QuotientPositive(heads, tp);
    Divided(heads, tp);
    BlocksFill(heads - 1, q, tp);
  }

  lemma Divided(a: nat, b: nat)
    requires b > 0
    ensures a == b * (a / b) + a % b
  {
  }
}
