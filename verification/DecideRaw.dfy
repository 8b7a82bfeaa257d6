/** The admission decision, read off the arrays that the engine passes and the indices it gets back. */
module DecideRaw {
  import opened Common
  import opened Sorting
  import opened Decide

  /** What request `i` takes of the token budget: its one token, or all of its prompt not computed yet. */
  function Cost(d: Input, i: nat): nat
    requires d.Valid() && i < |d.ids|
  {
    if !d.isContext[i] then 1
    else if d.promptLens[i] > d.doneTokens[i] then d.promptLens[i] - d.doneTokens[i]
    else 0
  }

  predicate InRange(d: Input, q: seq<nat>) { forall a | 0 <= a < |q| :: q[a] < |d.ids| }

  function Charged(d: Input, q: seq<nat>): nat
    requires d.Valid() && InRange(d, q)
  {
    if q == [] then 0
    else
      var n := |q| - 1;
      Charged(d, q[..n]) + Cost(d, q[n])
  }

  /** All requests of one phase that no other micro-batch runs, once each. */
  ghost predicate IsQueue(d: Input, q: seq<nat>, context: bool)
    requires d.Valid()
  {
    && Distinct(q)
    && forall i: nat :: i in q <==> i < |d.ids| && d.ids[i] !in d.inflight && d.isContext[i] == context
  }

  /** Earliest first, ties by id. */
  ghost predicate ByArrival(d: Input, q: seq<nat>)
    requires d.Valid() && InRange(d, q)
  {
    forall a, b | 0 <= a < b < |q| ::
      d.arrival[q[a]] < d.arrival[q[b]]
      || (d.arrival[q[a]] == d.arrival[q[b]] && d.ids[q[a]] <= d.ids[q[b]])
  }

  function ToleranceAt(d: Input, i: nat): Tolerance
    requires d.Valid() && d.order.Slack? && i < |d.ids|
  {
    TolerableItl(d.now, d.arrival[i], d.generated[i], d.maxNew[i], d.budget)
  }

  /** Least tolerant first, ties by id. */
  ghost predicate ByTolerance(d: Input, q: seq<nat>)
    requires d.Valid() && d.order.Slack? && InRange(d, q)
  {
    forall a, b | 0 <= a < b < |q| ::
      && ToleranceAt(d, q[a]).AtMost(ToleranceAt(d, q[b]))
      && (ToleranceAt(d, q[b]).AtMost(ToleranceAt(d, q[a])) ==> d.ids[q[a]] <= d.ids[q[b]])
  }

  /** Those of `q` that are in `fit`, in the order of `q`. */
  function Kept(q: seq<nat>, fit: seq<nat>): seq<nat> {
    if q == [] then []
    else
      var n := |q| - 1;
      Kept(q[..n], fit) + (if q[n] in fit then [q[n]] else [])
  }

  lemma {:induction false} KeptAre(q: seq<nat>, fit: seq<nat>)
    ensures forall i :: i in Kept(q, fit) <==> i in q && i in fit
    ensures |Kept(q, fit)| <= |q|
  {
    if q != [] {
      KeptAre(q[..|q| - 1], fit);
      assert q == q[..|q| - 1] + [q[|q| - 1]];
    }
  }

  lemma KeptNext(q: seq<nat>, i: nat, fit: seq<nat>)
    ensures Kept(q + [i], fit) == Kept(q, fit) + (if i in fit then [i] else [])
  {
    assert (q + [i])[..|q|] == q;
  }

  lemma {:induction false} KeptAll(q: seq<nat>, fit: seq<nat>)
    requires forall i | i in q :: i in fit
    ensures Kept(q, fit) == q
  {
    if q != [] {
      assert q == q[..|q| - 1] + [q[|q| - 1]];
      KeptAll(q[..|q| - 1], fit);
    }
  }

  // ------------------------------------------------------------- the queues

  ghost predicate FromInput(d: Input, cs: seq<Candidate>)
    requires d.Valid()
  {
    forall c | c in cs :: c.index < |d.ids| && c.req == RequestAt(d, c.index)
  }

  lemma QueueIs(d: Input, context: bool, le: (Candidate, Candidate) -> bool) returns (cs: seq<Candidate>)
    requires d.Valid() && TotalPreorder(le)
    ensures cs == Sort(Candidates(d, context, |d.ids|), le)
    ensures FromInput(d, cs) && Sorted(cs, le) && IsQueue(d, Indices(cs), context)
  {
    var all := Candidates(d, context, |d.ids|);
    cs := Sort(all, le);
    CandidatesAre(d, context, |d.ids|);
    SortSorts(all, le);
    forall c ensures c in cs <==> c in all {
      InMultiset(cs, c);
      InMultiset(all, c);
    }
    IndicesDistinct(all);
    SameIndices(cs, all);
    forall i: nat
      ensures i in Indices(cs) <==> i < |d.ids| && d.ids[i] !in d.inflight && d.isContext[i] == context
    {
      if i < |d.ids| && d.ids[i] !in d.inflight && d.isContext[i] == context {
        assert Candidate(i, RequestAt(d, i)) in all;
      }
    }
  }

  lemma IndexAt(cs: seq<Candidate>, a: nat)
    requires a < |cs|
    ensures |Indices(cs)| == |cs| && Indices(cs)[a] == cs[a].index && cs[a] in cs
  {
  }

  lemma ArrivalsSorted(d: Input, cs: seq<Candidate>)
    requires d.Valid() && FromInput(d, cs) && Sorted(cs, Earlier) && InRange(d, Indices(cs))
    ensures ByArrival(d, Indices(cs))
  {
    var q := Indices(cs);
    forall a, b | 0 <= a < b < |q|
      ensures d.arrival[q[a]] < d.arrival[q[b]]
        || (d.arrival[q[a]] == d.arrival[q[b]] && d.ids[q[a]] <= d.ids[q[b]])
    {
      IndexAt(cs, a);
      IndexAt(cs, b);
      assert Earlier(cs[a], cs[b]);
    }
  }

  lemma TolerancesSorted(d: Input, cs: seq<Candidate>)
    requires d.Valid() && d.order.Slack? && FromInput(d, cs) && Sorted(cs, Tighter)
    requires InRange(d, Indices(cs))
    ensures ByTolerance(d, Indices(cs))
  {
    var q := Indices(cs);
    forall a, b | 0 <= a < b < |q|
      ensures ToleranceAt(d, q[a]).AtMost(ToleranceAt(d, q[b]))
      ensures ToleranceAt(d, q[b]).AtMost(ToleranceAt(d, q[a])) ==> d.ids[q[a]] <= d.ids[q[b]]
    {
      IndexAt(cs, a);
      IndexAt(cs, b);
      assert Tighter(cs[a], cs[b]);
    }
  }

  // -------------------------------------------------------- who is admitted

  /** A context request may start behind `ahead`: no running request stalls, it has begun or the blocks are
      above the watermark, and both budgets have room. */
  ghost predicate MayStart(d: Input, stalled: bool, ahead: seq<nat>, i: nat)
    requires d.Valid() && InRange(d, ahead) && i < |d.ids|
  {
    && !stalled && (d.doneTokens[i] > 0 || d.freeBlocks >= d.watermark)
    && |ahead| < d.maxBatch && Charged(d, ahead) + Cost(d, i) <= d.maxTokens
  }

  lemma ChargedNext(d: Input, q: seq<nat>, i: nat)
    requires d.Valid() && InRange(d, q) && i < |d.ids|
    ensures InRange(d, q + [i]) && Charged(d, q + [i]) == Charged(d, q) + Cost(d, i)
  {
    var r := q + [i];
    assert r[..|q|] == q && r[|q|] == i;
  }

  lemma IndicesNext(cs: seq<Candidate>, c: Candidate)
    ensures Indices(cs + [c]) == Indices(cs) + [c.index]
  {
  }

  /** The tokens charged so far are those of the requests admitted so far. */
  ghost predicate Accounts(d: Input, v: Verdict)
    requires d.Valid()
  {
    InRange(d, Indices(v.fit)) && v.tokens == Charged(d, Indices(v.fit))
  }

  /** One context request joins exactly when it may start behind those already admitted. */
  lemma AdmitStarts(d: Input, stalled: bool, v: Verdict, c: Candidate)
    requires d.Valid() && Accounts(d, v) && c.index < |d.ids| && c.req == RequestAt(d, c.index)
    requires d.isContext[c.index]
    ensures var w := AdmitContext(d, stalled, v, c);
      && Accounts(d, w)
      && (if MayStart(d, stalled, Indices(v.fit), c.index)
          then w.fit == v.fit + [c] && w.paused == v.paused
          else w.fit == v.fit && w.paused == v.paused + [c])
  {
    assert |Indices(v.fit)| == |v.fit|;
    IndicesNext(v.fit, c);
    ChargedNext(d, Indices(v.fit), c.index);
  }

  lemma {:induction false} GenerationAccounts(d: Input, cs: seq<Candidate>)
    requires d.Valid() && FromInput(d, cs) && forall c | c in cs :: !c.req.context
    ensures InRange(d, Indices(cs)) && Charged(d, Indices(cs)) == |cs|
  {
    if cs != [] {
      var n := |cs| - 1;
      assert cs == cs[..n] + [cs[n]];
      GenerationAccounts(d, cs[..n]);
      IndicesNext(cs[..n], cs[n]);
      ChargedNext(d, Indices(cs[..n]), cs[n].index);
    }
  }

  // ------------------------------------------------------------- the two passes

  /** What the context requests `q` make of a decision that starts with `first`: each is admitted exactly
      when it may start behind those admitted before it, and both lists keep the order of `q`. */
  ghost predicate Packed(d: Input, stalled: bool, first: seq<nat>, q: seq<nat>, fit: seq<nat>)
    requires d.Valid() && InRange(d, first) && InRange(d, q)
  {
    && fit == first + Kept(q, fit)
    && forall k: nat | k < |q| :: StartsAt(d, stalled, first, q, fit, k)
  }

  ghost predicate StartsAt(d: Input, stalled: bool, first: seq<nat>, q: seq<nat>, fit: seq<nat>, k: nat)
    requires d.Valid() && InRange(d, first) && InRange(d, q) && k < |q|
  {
    KeptInRange(d, first, q[..k], fit);
    q[k] in fit <==> MayStart(d, stalled, first + Kept(q[..k], fit), q[k])
  }

  lemma {:induction false} KeptInRange(d: Input, first: seq<nat>, q: seq<nat>, fit: seq<nat>)
    requires InRange(d, first) && InRange(d, q)
    ensures InRange(d, first + Kept(q, fit))
  {
    if q != [] {
      KeptInRange(d, first, q[..|q| - 1], fit);
      assert first + Kept(q, fit)
        == first + Kept(q[..|q| - 1], fit) + (if q[|q| - 1] in fit then [q[|q| - 1]] else []);
    }
  }

  lemma {:induction false} KeptSame(q: seq<nat>, fit: seq<nat>, more: seq<nat>)
    requires forall i | i in q :: i in fit <==> i in more
    ensures Kept(q, fit) == Kept(q, more)
  {
    if q != [] {
      assert q == q[..|q| - 1] + [q[|q| - 1]];
      KeptSame(q[..|q| - 1], fit, more);
    }
  }

  /** One more context request. */
  lemma PackNext(
      d: Input, stalled: bool, first: seq<nat>, q: seq<nat>, fit: seq<nat>, i: nat, more: seq<nat>)
    requires d.Valid() && InRange(d, first) && InRange(d, q) && i < |d.ids| && InRange(d, fit)
    requires Packed(d, stalled, first, q, fit) && i !in q && i !in first
    requires more == if MayStart(d, stalled, fit, i) then fit + [i] else fit
    ensures InRange(d, q + [i]) && Packed(d, stalled, first, q + [i], more)
  {
    var r := q + [i];
    KeptAre(q, fit);
    assert i !in fit;
    assert forall x | x in q :: x in fit <==> x in more;
    KeptSame(q, fit, more);
    KeptNext(q, i, more);
    assert more == first + Kept(r, more);
    forall k: nat | k < |r| ensures StartsAt(d, stalled, first, r, more, k) {
      if k < |q| {
        assert StartsAt(d, stalled, first, q, fit, k);
        assert r[..k] == q[..k] && r[k] == q[k] && q[k] in q;
        KeptSame(q[..k], fit, more);
      } else {
        assert r[..k] == q;
      }
    }
  }

  /** Those of `q` that are not in `fit`, in the order of `q`. */
  function Others(q: seq<nat>, fit: seq<nat>): seq<nat> {
    if q == [] then []
    else
      var n := |q| - 1;
      Others(q[..n], fit) + (if q[n] in fit then [] else [q[n]])
  }

  lemma OthersNext(q: seq<nat>, i: nat, fit: seq<nat>)
    ensures Others(q + [i], fit) == Others(q, fit) + (if i in fit then [] else [i])
  {
    assert (q + [i])[..|q|] == q;
  }

  lemma {:induction false} OthersSame(q: seq<nat>, fit: seq<nat>, more: seq<nat>)
    requires forall i | i in q :: i in fit <==> i in more
    ensures Others(q, fit) == Others(q, more)
  {
    if q != [] {
      assert q == q[..|q| - 1] + [q[|q| - 1]];
      OthersSame(q[..|q| - 1], fit, more);
    }
  }

  lemma {:induction false} OthersAre(q: seq<nat>, fit: seq<nat>)
    ensures forall i :: i in Others(q, fit) <==> i in q && i !in fit
  {
    if q != [] {
      OthersAre(q[..|q| - 1], fit);
      assert q == q[..|q| - 1] + [q[|q| - 1]];
    }
  }

  /** The context pass over `cs` after `v`. */
  ghost predicate PassIs(d: Input, v: Verdict, cs: seq<Candidate>, w: Verdict)
    requires d.Valid() && Accounts(d, v) && InRange(d, Indices(cs))
  {
    && Accounts(d, w)
    && Packed(d, v.paused != [], Indices(v.fit), Indices(cs), Indices(w.fit))
    && Indices(w.paused) == Indices(v.paused) + Others(Indices(cs), Indices(w.fit))
  }

  lemma PassNext(d: Input, v: Verdict, cs: seq<Candidate>, w: Verdict, c: Candidate, x: Verdict)
    requires d.Valid() && Accounts(d, v) && InRange(d, Indices(cs)) && PassIs(d, v, cs, w)
    requires c.index < |d.ids| && c.req == RequestAt(d, c.index) && d.isContext[c.index]
    requires c.index !in Indices(cs) && c.index !in Indices(v.fit)
    requires x == AdmitContext(d, v.paused != [], w, c)
    ensures InRange(d, Indices(cs + [c])) && PassIs(d, v, cs + [c], x)
  {
    var stalled, first, q := v.paused != [], Indices(v.fit), Indices(cs);
    AdmitStarts(d, stalled, w, c);
    IndicesNext(cs, c);
    IndicesNext(w.fit, c);
    IndicesNext(w.paused, c);
    PackNext(d, stalled, first, q, Indices(w.fit), c.index, Indices(x.fit));
    KeptAre(q, Indices(w.fit));
    assert c.index !in Indices(w.fit);
    OthersSame(q, Indices(w.fit), Indices(x.fit));
    OthersNext(q, c.index, Indices(x.fit));
  }

  lemma FrontIndices(d: Input, cs: seq<Candidate>, n: nat)
    requires n == |cs| - 1 && Distinct(Indices(cs)) && InRange(d, Indices(cs))
    ensures Distinct(Indices(cs[..n])) && InRange(d, Indices(cs[..n]))
    ensures cs[n].index !in Indices(cs[..n]) && cs[n].index < |d.ids|
  {
    var q := Indices(cs);
    assert q[n] == cs[n].index;
    assert forall k | 0 <= k < n :: Indices(cs[..n])[k] == q[k];
  }

  lemma {:induction false} ContextPacks(d: Input, v: Verdict, cs: seq<Candidate>)
    requires d.Valid() && Accounts(d, v) && FromInput(d, cs) && InRange(d, Indices(cs))
    requires forall c | c in cs :: d.isContext[c.index] && c.index !in Indices(v.fit)
    requires Distinct(Indices(cs))
    ensures PassIs(d, v, cs, ContextPass(d, v, cs))
  {
    var n := |cs| - 1;
    if cs != [] {
      assert cs == cs[..n] + [cs[n]];
      FrontIndices(d, cs, n);
      ContextPacks(d, v, cs[..n]);
      PassNext(d, v, cs[..n], ContextPass(d, v, cs[..n]), cs[n], ContextPass(d, v, cs));
    }
  }

  // ------------------------------------------------------------- main theorems

  /** How many generation requests are admitted: as many as the cap, both budgets and the queue allow. */
  function Running(d: Input, n: nat): nat {
    MinNat(n, MinNat(d.cap, MinNat(d.maxBatch, d.maxTokens)))
  }

  /** The queues of both phases, in the order in which they are served. */
  ghost predicate AreQueues(d: Input, generation: seq<nat>, context: seq<nat>)
    requires d.Valid()
  {
    && IsQueue(d, generation, false) && IsQueue(d, context, true)
    && InRange(d, generation) && InRange(d, context)
    && ByArrival(d, context)
    && (if d.order.Slack? then ByTolerance(d, generation) else ByArrival(d, generation))
  }

  lemma QueuesAre(d: Input) returns (generation: seq<nat>, context: seq<nat>)
    requires d.Valid()
    ensures generation == Indices(GenerationQueue(d)) && context == Indices(ContextQueue(d))
    ensures FromInput(d, GenerationQueue(d)) && FromInput(d, ContextQueue(d))
    ensures AreQueues(d, generation, context)
  {
    OrdersArePreorders();
    var gs := QueueIs(d, false, if d.order.Slack? then Tighter else Earlier);
    var cs := QueueIs(d, true, Earlier);
    generation, context := Indices(gs), Indices(cs);
    QueueInRange(d, generation, false);
    QueueInRange(d, context, true);
    ArrivalsSorted(d, cs);
    if d.order.Slack? {
      TolerancesSorted(d, gs);
    } else {
      ArrivalsSorted(d, gs);
    }
  }

  lemma QueueInRange(d: Input, q: seq<nat>, context: bool)
    requires d.Valid() && IsQueue(d, q, context)
    ensures InRange(d, q)
  {
    forall a | 0 <= a < |q| ensures q[a] < |d.ids| {
      assert q[a] in q;
    }
  }

  lemma GenerationIs(d: Input, gs: seq<Candidate>, k: nat)
    requires d.Valid() && FromInput(d, gs) && IsQueue(d, Indices(gs), false)
    requires k == Running(d, |gs|)
    ensures var v := GenerationPass(d, gs);
      && Accounts(d, v) && Indices(v.fit) == Indices(gs)[..k] && Indices(v.paused) == Indices(gs)[k..]
      && (v.paused != [] <==> k < |gs|)
  {
    GenerationTakesFirst(d, gs);
    assert |Indices(gs)| == |gs|;
    NotContext(d, gs, k);
    GenerationAccounts(d, gs[..k]);
    IndicesSplit(gs, k);
  }

  lemma NotContext(d: Input, gs: seq<Candidate>, k: nat)
    requires d.Valid() && FromInput(d, gs) && IsQueue(d, Indices(gs), false) && k <= |gs|
    ensures FromInput(d, gs[..k]) && forall c | c in gs[..k] :: !c.req.context
  {
    forall c | c in gs[..k] ensures c in gs && !c.req.context {
      var a :| 0 <= a < k && gs[a] == c;
      IndexAt(gs, a);
      assert Indices(gs)[a] in Indices(gs);
    }
  }

  lemma IndicesSplit(cs: seq<Candidate>, k: nat)
    requires k <= |cs|
    ensures Indices(cs[..k]) == Indices(cs)[..k] && Indices(cs[k..]) == Indices(cs)[k..]
  {
  }

  /** The whole decision on raw indices: the first generation requests up to every limit; then, in order of
      arrival, every context request that may start behind those admitted before it; all others paused. */
  lemma DecisionIsExact(d: Input) returns (generation: seq<nat>, context: seq<nat>, k: nat)
    requires d.Valid()
    ensures AreQueues(d, generation, context) && k == Running(d, |generation|)
    ensures var fit, paused := Indices(Decision(d).fit), Indices(Decision(d).paused);
      && Packed(d, k < |generation|, generation[..k], context, fit)
      && paused == generation[k..] + Others(context, fit)
      && InRange(d, fit) && Charged(d, fit) == Decision(d).tokens
  {
    generation, context := QueuesAre(d);
    var gs, cs := GenerationQueue(d), ContextQueue(d);
    k := Running(d, |generation|);
    GenerationIs(d, gs, k);
    forall c | c in cs ensures d.isContext[c.index] && c.index !in generation[..k] {
      var a :| 0 <= a < |cs| && cs[a] == c;
      IndexAt(cs, a);
      assert c.index in context;
      assert forall i | i in generation[..k] :: i in generation;
    }
    ContextPacks(d, GenerationPass(d, gs), cs);
  }

  lemma {:induction false} PrefixCharged(d: Input, q: seq<nat>, r: seq<nat>)
    requires d.Valid() && InRange(d, r) && q <= r
    ensures InRange(d, q) && Charged(d, q) <= Charged(d, r)
  {
    if |q| < |r| {
      PrefixCharged(d, q, r[..|r| - 1]);
    } else {
      assert q == r;
    }
  }

  lemma {:induction false} KeptPrefix(q: seq<nat>, fit: seq<nat>, k: nat)
    requires k <= |q|
    ensures Kept(q[..k], fit) <= Kept(q, fit)
  {
    if k < |q| {
      var n := |q| - 1;
      KeptPrefix(q[..n], fit, k);
      assert q[..n][..k] == q[..k];
    } else {
      assert q[..k] == q;
    }
  }

  /** What is admitted fits both budgets, and of the paused context requests none that was free to start
      still fits beside it. */
  lemma NoneLeftFits(d: Input, i: nat)
    requires d.Valid()
    ensures var fit, paused := Indices(Decision(d).fit), Indices(Decision(d).paused);
      && InRange(d, fit) && |fit| <= d.maxBatch && Charged(d, fit) <= d.maxTokens
      && (i in paused && i < |d.ids| && d.isContext[i]
            && (forall j | j in paused && j < |d.ids| :: d.isContext[j])
            && (d.doneTokens[i] > 0 || d.freeBlocks >= d.watermark) ==>
          |fit| == d.maxBatch || Charged(d, fit) + Cost(d, i) > d.maxTokens)
  {
    var generation, context, k := DecisionIsExact(d);
    var fit, paused := Indices(Decision(d).fit), Indices(Decision(d).paused);
    BudgetsHold(d);
    if i in paused && i < |d.ids| && d.isContext[i]
      && (forall j | j in paused && j < |d.ids| :: d.isContext[j])
      && (d.doneTokens[i] > 0 || d.freeBlocks >= d.watermark)
    {
      NoStall(d, generation, context, k, fit, paused);
      PausedLacksRoom(d, generation[..k], context, fit, i);
    }
  }

  /** With no generation request paused, nothing stalls. */
  lemma NoStall(
      d: Input, generation: seq<nat>, context: seq<nat>, k: nat, fit: seq<nat>, paused: seq<nat>)
    requires d.Valid() && AreQueues(d, generation, context) && k <= |generation|
    requires paused == generation[k..] + Others(context, fit)
    requires forall j | j in paused && j < |d.ids| :: d.isContext[j]
    ensures k == |generation| && forall i | i in paused :: i in context && i !in fit
  {
    OthersAre(context, fit);
    if k < |generation| {
      FirstOfRest(generation, k, Others(context, fit));
    }
  }

  lemma FirstOfRest(q: seq<nat>, k: nat, rest: seq<nat>)
    requires k < |q|
    ensures q[k] in q && q[k] in q[k..] + rest
  {
    assert (q[k..] + rest)[0] == q[k];
  }

  lemma PausedLacksRoom(d: Input, first: seq<nat>, q: seq<nat>, fit: seq<nat>, i: nat)
    requires d.Valid() && InRange(d, first) && InRange(d, q) && InRange(d, fit)
    requires Packed(d, false, first, q, fit) && i in q && i !in fit
    requires i < |d.ids| && (d.doneTokens[i] > 0 || d.freeBlocks >= d.watermark)
    ensures |fit| >= d.maxBatch || Charged(d, fit) + Cost(d, i) > d.maxTokens
  {
    var k :| 0 <= k < |q| && q[k] == i;
    assert StartsAt(d, false, first, q, fit, k);
    KeptInRange(d, first, q[..k], fit);
    KeptPrefix(q, fit, k);
    PrefixCharged(d, first + Kept(q[..k], fit), fit);
  }

  lemma BudgetsHold(d: Input)
    requires d.Valid()
    ensures var fit := Indices(Decision(d).fit);
      && InRange(d, fit) && |fit| <= d.maxBatch && Charged(d, fit) <= d.maxTokens
  {
    DecisionIsMaximal(d);
    var generation, context, k := DecisionIsExact(d);
    assert |Indices(Decision(d).fit)| == |Decision(d).fit|;
  }
}
