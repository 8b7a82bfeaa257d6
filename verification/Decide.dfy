/** The once-per-step admission decision that every tensor-parallel rank takes on its own. */
module Decide {
  import opened Common
  import opened Sorting

  datatype DecodeOrder = Arrival | Slack

  /** How slow each remaining token may be without the request's mean leaving `budget`. */
  function TolerableItl(now: real, arrival: real, generated: nat, maxNew: nat, budget: real): Tolerance {
    var total, done := SatSub(maxNew, 1), SatSub(generated, 1);
    if total <= done then Unlimited
    else Ms((budget * total as real - MaxReal(now - arrival, 0.0)) / (total - done) as real)
  }

  /** The engine's snapshot, as parallel arrays. */
  datatype Input = Input(
    ids: seq<int>, isContext: seq<bool>, promptLens: seq<nat>, doneTokens: seq<nat>,
    arrival: seq<real>, inflight: set<int>, maxBatch: nat, maxTokens: nat,
    generated: seq<nat>, maxNew: seq<nat>, now: real, budget: real, order: DecodeOrder,
    freeBlocks: nat, watermark: nat, cap: nat)
  {
    /** What the length validation leaves: the slack arrays matter only under slack order. */
    ghost predicate Valid() {
      && |isContext| == |promptLens| == |doneTokens| == |arrival| == |ids|
      && (order.Slack? ==> |generated| == |maxNew| == |ids|)
    }
  }

  /** What the decision knows about one request. */
  datatype Request = Request(
    id: int, context: bool, remaining: nat, started: bool, arrival: real, tolerance: Tolerance)

  datatype Candidate = Candidate(index: nat, req: Request)

  function RequestAt(d: Input, i: nat): Request
    requires d.Valid() && i < |d.ids|
  {
    Request(d.ids[i], d.isContext[i], SatSub(d.promptLens[i], d.doneTokens[i]), d.doneTokens[i] != 0,
            d.arrival[i],
            if d.order.Slack? then TolerableItl(d.now, d.arrival[i], d.generated[i], d.maxNew[i], d.budget)
            else Unlimited)
  }

  /** The first `n` requests that are of the wanted phase and not in flight elsewhere. */
  function Candidates(d: Input, context: bool, n: nat): seq<Candidate>
    requires d.Valid() && n <= |d.ids|
  {
    if n == 0 then []
    else
      var i := n - 1;
      Candidates(d, context, i)
      + (if d.ids[i] !in d.inflight && d.isContext[i] == context then [Candidate(i, RequestAt(d, i))] else [])
  }

  predicate EarlierReq(a: Request, b: Request) {
    a.arrival < b.arrival || (a.arrival == b.arrival && a.id <= b.id)
  }

  predicate TighterReq(a: Request, b: Request) {
    a.tolerance.AtMost(b.tolerance) && (b.tolerance.AtMost(a.tolerance) ==> a.id <= b.id)
  }

  predicate Earlier(a: Candidate, b: Candidate) { EarlierReq(a.req, b.req) }

  predicate Tighter(a: Candidate, b: Candidate) { TighterReq(a.req, b.req) }

  /** The admitted and paused so far, and the tokens charged. */
  datatype Verdict = Verdict(fit: seq<Candidate>, paused: seq<Candidate>, tokens: nat)

  function AdmitGeneration(d: Input, v: Verdict, c: Candidate): Verdict {
    if |v.fit| < d.cap && |v.fit| < d.maxBatch && v.tokens + 1 <= d.maxTokens
    then Verdict(v.fit + [c], v.paused, v.tokens + 1)
    else v.(paused := v.paused + [c])
  }

  function AdmitContext(d: Input, stalled: bool, v: Verdict, c: Candidate): Verdict {
    if stalled || (!c.req.started && d.freeBlocks < d.watermark) then v.(paused := v.paused + [c])
    else if |v.fit| < d.maxBatch && v.tokens + c.req.remaining <= d.maxTokens
    then Verdict(v.fit + [c], v.paused, v.tokens + c.req.remaining)
    else v.(paused := v.paused + [c])
  }

  function GenerationPass(d: Input, cs: seq<Candidate>): Verdict {
    if cs == [] then Verdict([], [], 0)
    else AdmitGeneration(d, GenerationPass(d, cs[..|cs| - 1]), cs[|cs| - 1])
  }

  function ContextPass(d: Input, v: Verdict, cs: seq<Candidate>): Verdict {
    if cs == [] then v
    else AdmitContext(d, v.paused != [], ContextPass(d, v, cs[..|cs| - 1]), cs[|cs| - 1])
  }

  function GenerationQueue(d: Input): seq<Candidate>
    requires d.Valid()
  {
    Sort(Candidates(d, false, |d.ids|), if d.order.Slack? then Tighter else Earlier)
  }

  function ContextQueue(d: Input): seq<Candidate>
    requires d.Valid()
  {
    Sort(Candidates(d, true, |d.ids|), Earlier)
  }

  function Decision(d: Input): Verdict
    requires d.Valid()
  {
    ContextPass(d, GenerationPass(d, GenerationQueue(d)), ContextQueue(d))
  }

  function Indices(cs: seq<Candidate>): seq<nat> {
    seq(|cs|, i requires 0 <= i < |cs| => cs[i].index)
  }

  method DecideIndices(d: Input) returns (fitting: seq<nat>, paused: seq<nat>)
    requires d.Valid()
    ensures fitting == Indices(Decision(d).fit)
    ensures paused == Indices(Decision(d).paused)
  {
    var context: seq<Candidate>, generation: seq<Candidate> := [], [];
    for i := 0 to |d.ids|
      invariant context == Candidates(d, true, i)
      invariant generation == Candidates(d, false, i)
    {
      if d.ids[i] !in d.inflight {
        if d.isContext[i] {
          context := context + [Candidate(i, RequestAt(d, i))];
        } else {
          generation := generation + [Candidate(i, RequestAt(d, i))];
        }
      }
    }
    context := Sort(context, Earlier);
    match d.order {
      case Arrival => generation := Sort(generation, Earlier);
      case Slack => generation := Sort(generation, Tighter);
    }
    var v := Verdict([], [], 0);
    for i := 0 to |generation|
      invariant v == GenerationPass(d, generation[..i])
    {
      assert generation[..i + 1][..i] == generation[..i];
      v := AdmitGeneration(d, v, generation[i]);
    }
    assert generation[..|generation|] == generation;
    var stalled := v.paused != [];
    ghost var start := v;
    for i := 0 to |context|
      invariant v == ContextPass(d, start, context[..i])
    {
      assert context[..i + 1][..i] == context[..i];
      v := AdmitContext(d, stalled, v, context[i]);
    }
    assert context[..|context|] == context;
    fitting, paused := Indices(v.fit), Indices(v.paused);
  }

  // ------------------------------------------------------------- partition

  lemma OrdersArePreorders()
    ensures TotalPreorder(Earlier) && TotalPreorder(Tighter)
    ensures TotalPreorder(EarlierReq) && TotalPreorder(TighterReq)
  {
  }

  lemma {:induction false} CandidatesAre(d: Input, context: bool, n: nat)
    requires d.Valid() && n <= |d.ids|
    ensures forall c :: c in Candidates(d, context, n) <==>
      c.index < n && c.req == RequestAt(d, c.index) && c.req.id !in d.inflight && c.req.context == context
    ensures forall i, j | 0 <= i < j < |Candidates(d, context, n)| ::
      Candidates(d, context, n)[i].index != Candidates(d, context, n)[j].index
  {
    if n > 0 {
      CandidatesAre(d, context, n - 1);
      var front := Candidates(d, context, n - 1);
      assert forall i | 0 <= i < |front| :: front[i] in front;
    }
  }

  lemma {:induction false} GenerationPassSplits(d: Input, cs: seq<Candidate>)
    ensures var v := GenerationPass(d, cs); multiset(v.fit) + multiset(v.paused) == multiset(cs)
  {
    if cs != [] {
      GenerationPassSplits(d, cs[..|cs| - 1]);
      FrontLastMultiset(cs);
    }
  }

  lemma AdmitSplits(d: Input, stalled: bool, v: Verdict, c: Candidate)
    ensures var w := AdmitContext(d, stalled, v, c);
      multiset(w.fit) + multiset(w.paused) == multiset(v.fit) + multiset(v.paused) + multiset{c}
  {
  }

  lemma {:induction false} ContextPassSplits(d: Input, v: Verdict, cs: seq<Candidate>)
    ensures var w := ContextPass(d, v, cs);
      multiset(w.fit) + multiset(w.paused) == multiset(v.fit) + multiset(v.paused) + multiset(cs)
  {
    if cs != [] {
      var n := |cs| - 1;
      ContextPassSplits(d, v, cs[..n]);
      AdmitSplits(d, v.paused != [], ContextPass(d, v, cs[..n]), cs[n]);
      FrontLastMultiset(cs);
    }
  }

  lemma DecisionSplits(d: Input)
    requires d.Valid()
    ensures var v := Decision(d);
      multiset(v.fit + v.paused)
      == multiset(Candidates(d, false, |d.ids|)) + multiset(Candidates(d, true, |d.ids|))
  {
    OrdersArePreorders();
    SortSorts(Candidates(d, false, |d.ids|), if d.order.Slack? then Tighter else Earlier);
    SortSorts(Candidates(d, true, |d.ids|), Earlier);
    GenerationPassSplits(d, GenerationQueue(d));
    ContextPassSplits(d, GenerationPass(d, GenerationQueue(d)), ContextQueue(d));
  }

  /** Every request not in flight elsewhere is decided exactly once, and no other request is. */
  lemma EachDecidedOnce(d: Input)
    requires d.Valid()
    ensures var v := Decision(d);
      && Distinct(Indices(v.fit + v.paused))
      && forall i :: i in Indices(v.fit + v.paused) <==> 0 <= i < |d.ids| && d.ids[i] !in d.inflight
  {
    var v := Decision(d);
    var all := Candidates(d, false, |d.ids|) + Candidates(d, true, |d.ids|);
    DecisionSplits(d);
    assert multiset(all) == multiset(v.fit + v.paused);
    AllCandidates(d);
    SameIndices(v.fit + v.paused, all);
  }

  lemma AllCandidates(d: Input)
    requires d.Valid()
    ensures var all := Candidates(d, false, |d.ids|) + Candidates(d, true, |d.ids|);
      && Distinct(Indices(all))
      && forall i :: (exists c :: c in all && c.index == i) <==> 0 <= i < |d.ids| && d.ids[i] !in d.inflight
  {
    var generation, context := Candidates(d, false, |d.ids|), Candidates(d, true, |d.ids|);
    CandidatesAre(d, false, |d.ids|);
    CandidatesAre(d, true, |d.ids|);
    var all := generation + context;
    forall i, j | 0 <= i < j < |all| ensures all[i].index != all[j].index {
      if i < |generation| <= j {
        assert generation[i] in generation && context[j - |generation|] in context;
      }
    }
    IndicesDistinct(all);
    forall i ensures (exists c :: c in all && c.index == i) <==> 0 <= i < |d.ids| && d.ids[i] !in d.inflight {
      if 0 <= i < |d.ids| && d.ids[i] !in d.inflight {
        assert Candidate(i, RequestAt(d, i)) in all;
      }
    }
  }

  lemma IndicesDistinct(all: seq<Candidate>)
    requires forall i, j | 0 <= i < j < |all| :: all[i].index != all[j].index
    ensures Distinct(Indices(all))
  {
  }

  /** Reordering candidates reorders their indices. */
  lemma SameIndices(s: seq<Candidate>, t: seq<Candidate>)
    requires multiset(s) == multiset(t) && Distinct(Indices(t))
    ensures Distinct(Indices(s)) && forall i :: i in Indices(s) <==> exists c :: c in t && c.index == i
  {
    forall c ensures c in s <==> c in t {
      InMultiset(s, c);
      InMultiset(t, c);
    }
    DistinctIndices(t);
    forall i, j | 0 <= i < j < |s| ensures s[i].index != s[j].index {
      Repeats(s, i, j);
      assert s[i] in t && s[j] in t;
      InMultiset(t, s[i]);
      var p :| 0 <= p < |t| && t[p] == s[i];
      var q :| 0 <= q < |t| && t[q] == s[j];
      assert Indices(t)[p] == s[i].index && Indices(t)[q] == s[j].index;
    }
    forall i ensures i in Indices(s) <==> exists c :: c in t && c.index == i {
      if c :| c in t && c.index == i {
        var p :| 0 <= p < |s| && s[p] == c;
        assert Indices(s)[p] == i;
      }
    }
  }

  lemma Repeats(s: seq<Candidate>, i: nat, j: nat)
    requires i < j < |s|
    ensures s[i] == s[j] ==> multiset(s)[s[i]] >= 2
  {
    assert s == s[..i] + [s[i]] + s[i + 1..j] + [s[j]] + s[j + 1..];
  }

  lemma {:induction false} DistinctIndices(t: seq<Candidate>)
    requires Distinct(Indices(t))
    ensures forall c | c in t :: multiset(t)[c] == 1
  {
    if t != [] {
      HeadTailMultiset(t);
      var u := t[1..];
      assert forall k | 0 <= k < |u| :: Indices(u)[k] == Indices(t)[k + 1];
      DistinctIndices(u);
      forall k | 0 <= k < |u| ensures u[k] != t[0] {
        assert Indices(t)[k + 1] == u[k].index && Indices(t)[0] == t[0].index;
      }
      forall c | c in t ensures multiset(t)[c] == 1 {
        InMultiset(u, c);
      }
    }
  }

  // ---------------------------------------------------------------- budgets

  function GenerationLimit(d: Input): nat { MinNat(d.cap, MinNat(d.maxBatch, d.maxTokens)) }

  lemma SplitOneMore(cs: seq<Candidate>, limit: nat)
    requires cs != []
    ensures var n := |cs| - 1;
      var j, k := MinNat(limit, n), MinNat(limit, n + 1);
      if n < limit then cs[..n][..j] + [cs[n]] == cs[..k] && cs[..n][j..] == cs[k..]
      else cs[..n][..j] == cs[..k] && cs[..n][j..] + [cs[n]] == cs[k..]
  {
  }

  /** The generation requests admitted are exactly the first in the queue, as many as the cap, both
      budgets and the queue allow. */
  lemma {:induction false} GenerationTakesFirst(d: Input, cs: seq<Candidate>)
    ensures var k := MinNat(GenerationLimit(d), |cs|);
      GenerationPass(d, cs) == Verdict(cs[..k], cs[k..], k)
  {
    if cs != [] {
      GenerationTakesFirst(d, cs[..|cs| - 1]);
      SplitOneMore(cs, GenerationLimit(d));
    }
  }

  function Work(cs: seq<Candidate>): nat {
    if cs == [] then 0
    else
      var c := cs[|cs| - 1];
      Work(cs[..|cs| - 1]) + (if c.req.context then c.req.remaining else 1)
  }

  lemma WorkAppend(cs: seq<Candidate>, c: Candidate)
    ensures Work(cs + [c]) == Work(cs) + (if c.req.context then c.req.remaining else 1)
  {
    assert (cs + [c])[..|cs|] == cs;
  }

  ghost predicate Within(d: Input, v: Verdict) {
    |v.fit| <= d.maxBatch && v.tokens == Work(v.fit) <= d.maxTokens
  }

  /** A context request may join `v` at all: nothing running is stalled and the watermark lets it. */
  ghost predicate MayJoin(d: Input, stalled: bool, c: Candidate) {
    !stalled && (c.req.started || d.freeBlocks >= d.watermark)
  }

  ghost predicate HasRoom(d: Input, v: Verdict, c: Candidate) {
    |v.fit| < d.maxBatch && Work(v.fit) + c.req.remaining <= d.maxTokens
  }

  lemma {:induction false} ContextPassPacks(d: Input, v: Verdict, cs: seq<Candidate>)
    requires Within(d, v) && forall c | c in cs :: c.req.context
    ensures var w := ContextPass(d, v, cs);
      && Within(d, w)
      && v.fit <= w.fit && v.paused <= w.paused
      && (forall c | c in w.fit[|v.fit|..] :: MayJoin(d, v.paused != [], c))
      && (forall c | c in w.paused[|v.paused|..] :: !(MayJoin(d, v.paused != [], c) && HasRoom(d, w, c)))
  {
    if cs != [] {
      var n := |cs| - 1;
      assert cs == cs[..n] + [cs[n]];
      ContextPassPacks(d, v, cs[..n]);
      PackOne(d, v, ContextPass(d, v, cs[..n]), cs[n]);
    }
  }

  lemma PackOne(d: Input, v: Verdict, w: Verdict, c: Candidate)
    requires Within(d, w) && v.fit <= w.fit && v.paused <= w.paused && c.req.context
    requires forall x | x in w.fit[|v.fit|..] :: MayJoin(d, v.paused != [], x)
    requires forall x | x in w.paused[|v.paused|..] :: !(MayJoin(d, v.paused != [], x) && HasRoom(d, w, x))
    ensures var u := AdmitContext(d, v.paused != [], w, c);
      && Within(d, u) && v.fit <= u.fit && v.paused <= u.paused
      && (forall x | x in u.fit[|v.fit|..] :: MayJoin(d, v.paused != [], x))
      && (forall x | x in u.paused[|v.paused|..] :: !(MayJoin(d, v.paused != [], x) && HasRoom(d, u, x)))
  {
    WorkAppend(w.fit, c);
    assert (w.fit + [c])[|v.fit|..] == w.fit[|v.fit|..] + [c];
    assert (w.paused + [c])[|v.paused|..] == w.paused[|v.paused|..] + [c];
  }

  lemma {:induction false} GenerationWork(cs: seq<Candidate>)
    requires forall c | c in cs :: !c.req.context
    ensures Work(cs) == |cs|
  {
    if cs != [] {
      assert cs == cs[..|cs| - 1] + [cs[|cs| - 1]];
      GenerationWork(cs[..|cs| - 1]);
    }
  }

  /** The whole decision: the first generation requests in the queue up to every limit, then context
      requests packed so that none left out, yet free to join, would still fit the final batch. */
  lemma DecisionIsMaximal(d: Input)
    requires d.Valid()
    ensures
      var q := GenerationQueue(d);
      var k := MinNat(GenerationLimit(d), |q|);
      var v := Decision(d);
      && q[..k] <= v.fit && q[k..] <= v.paused
      && Within(d, v)
      && (forall c | c in v.fit[k..] :: c.req.context && MayJoin(d, k < |q|, c))
      && (forall c | c in v.paused[|q| - k..] ::
            c.req.context && !(MayJoin(d, k < |q|, c) && HasRoom(d, v, c)))
  {
    var q := GenerationQueue(d);
    var k := MinNat(GenerationLimit(d), |q|);
    GenerationTakesFirst(d, q);
    QueueContents(d, false);
    QueueContents(d, true);
    GenerationWork(q[..k]);
    var cs := ContextQueue(d);
    ContextPassPacks(d, GenerationPass(d, q), cs);
    ContextPassAdds(d, GenerationPass(d, q), cs);
  }

  lemma QueueContents(d: Input, context: bool)
    requires d.Valid()
    ensures forall c | c in (if context then ContextQueue(d) else GenerationQueue(d)) ::
      c.req.context == context
  {
    OrdersArePreorders();
    var cs := Candidates(d, context, |d.ids|);
    CandidatesAre(d, context, |d.ids|);
    var le := if !context && d.order.Slack? then Tighter else Earlier;
    SortSorts(cs, le);
    forall c | c in Sort(cs, le) ensures c in cs {
      InMultiset(Sort(cs, le), c);
      InMultiset(cs, c);
    }
  }

  lemma {:induction false} ContextPassAdds(d: Input, v: Verdict, cs: seq<Candidate>)
    ensures var w := ContextPass(d, v, cs);
      && v.fit <= w.fit && v.paused <= w.paused
      && (forall c | c in w.fit[|v.fit|..] || c in w.paused[|v.paused|..] :: c in cs)
  {
    if cs != [] {
      assert cs == cs[..|cs| - 1] + [cs[|cs| - 1]];
      ContextPassAdds(d, v, cs[..|cs| - 1]);
    }
  }

  /** Under slack order every generation request admitted tolerates no more than any one paused. */
  lemma LeastTolerantFirst(d: Input)
    requires d.Valid() && d.order.Slack?
    ensures var v := GenerationPass(d, GenerationQueue(d));
      forall a, b | a in v.fit && b in v.paused :: a.req.tolerance.AtMost(b.req.tolerance)
  {
    OrdersArePreorders();
    var q := GenerationQueue(d);
    SortSorts(Candidates(d, false, |d.ids|), Tighter);
    GenerationTakesFirst(d, q);
    var k := MinNat(GenerationLimit(d), |q|);
    forall a, b | a in q[..k] && b in q[k..] ensures Tighter(a, b) {
      var i :| 0 <= i < k && q[i] == a;
      var j :| k <= j < |q| && q[j] == b;
    }
  }

  // ------------------------------------------------------ rank independence

  function Reqs(cs: seq<Candidate>): seq<Request> {
    seq(|cs|, i requires 0 <= i < |cs| => cs[i].req)
  }

  function Requests(d: Input): seq<Request>
    requires d.Valid()
  {
    seq(|d.ids|, i requires 0 <= i < |d.ids| => RequestAt(d, i))
  }

  /** Two ranks see the same requests and limits, perhaps in a different order. */
  ghost predicate SameSnapshot(d: Input, e: Input)
    requires d.Valid() && e.Valid()
  {
    && multiset(Requests(d)) == multiset(Requests(e))
    && d.inflight == e.inflight && d.maxBatch == e.maxBatch && d.maxTokens == e.maxTokens
    && d.order == e.order && d.freeBlocks == e.freeBlocks && d.watermark == e.watermark && d.cap == e.cap
  }

  function Wanted(rs: seq<Request>, context: bool, inflight: set<int>): seq<Request> {
    if rs == [] then []
    else
      var r := rs[|rs| - 1];
      Wanted(rs[..|rs| - 1], context, inflight)
      + (if r.id !in inflight && r.context == context then [r] else [])
  }

  ghost function WantedPart(m: multiset<Request>, context: bool, inflight: set<int>, r: Request): nat {
    if r.id !in inflight && r.context == context then m[r] else 0
  }

  lemma {:induction false} WantedCount(rs: seq<Request>, context: bool, inflight: set<int>, r: Request)
    ensures multiset(Wanted(rs, context, inflight))[r] == WantedPart(multiset(rs), context, inflight, r)
  {
    if rs != [] {
      WantedCount(rs[..|rs| - 1], context, inflight, r);
      FrontLastMultiset(rs);
    }
  }

  lemma SameWanted(rs: seq<Request>, qs: seq<Request>, context: bool, inflight: set<int>)
    requires multiset(rs) == multiset(qs)
    ensures multiset(Wanted(rs, context, inflight)) == multiset(Wanted(qs, context, inflight))
  {
    var a, b := multiset(Wanted(rs, context, inflight)), multiset(Wanted(qs, context, inflight));
    forall r ensures a[r] == b[r] {
      WantedCount(rs, context, inflight, r);
      WantedCount(qs, context, inflight, r);
    }
  }

  lemma {:induction false} CandidateReqs(d: Input, context: bool, n: nat)
    requires d.Valid() && n <= |d.ids|
    ensures Reqs(Candidates(d, context, n)) == Wanted(Requests(d)[..n], context, d.inflight)
  {
    if n > 0 {
      CandidateReqs(d, context, n - 1);
      assert Requests(d)[..n][..n - 1] == Requests(d)[..n - 1];
      var front := Candidates(d, context, n - 1);
      assert Reqs(front + [Candidate(n - 1, RequestAt(d, n - 1))]) == Reqs(front) + [RequestAt(d, n - 1)];
    }
  }

  lemma SameCandidates(d: Input, e: Input, context: bool)
    requires d.Valid() && e.Valid() && SameSnapshot(d, e)
    ensures multiset(Reqs(Candidates(d, context, |d.ids|))) == multiset(Reqs(Candidates(e, context, |e.ids|)))
  {
    CandidateReqs(d, context, |d.ids|);
    CandidateReqs(e, context, |e.ids|);
    assert Requests(d)[..|d.ids|] == Requests(d) && Requests(e)[..|e.ids|] == Requests(e);
    SameWanted(Requests(d), Requests(e), context, d.inflight);
  }

  /** The order in which candidates are sorted, on requests. */
  ghost predicate Follows(le: (Candidate, Candidate) -> bool, rle: (Request, Request) -> bool) {
    forall a, b :: le(a, b) <==> rle(a.req, b.req)
  }

  lemma {:induction false} ReqsMultiset(s: seq<Candidate>, t: seq<Candidate>)
    requires multiset(s) == multiset(t)
    ensures multiset(Reqs(s)) == multiset(Reqs(t))
  {
    assert |s| == |multiset(s)| == |multiset(t)| == |t|;
    if s != [] {
      InMultiset(s, s[0]);
      InMultiset(t, s[0]);
      var i :| 0 <= i < |t| && t[i] == s[0];
      RemoveAtMultiset(t, i);
      HeadTailMultiset(s);
      ReqsMultiset(s[1..], RemoveAt(t, i));
      assert Reqs(s) == [s[0].req] + Reqs(s[1..]);
      ReqsRemoveAt(t, i);
    }
  }

  lemma ReqsRemoveAt(t: seq<Candidate>, i: nat)
    requires i < |t|
    ensures multiset(Reqs(t)) == multiset{t[i].req} + multiset(Reqs(RemoveAt(t, i)))
  {
    assert Reqs(RemoveAt(t, i)) == RemoveAt(Reqs(t), i);
    assert Reqs(t) == Reqs(t)[..i] + [t[i].req] + Reqs(t)[i + 1..];
  }

  ghost predicate DistinctReqIds(rs: seq<Request>) {
    forall a, b | a in rs && b in rs && a.id == b.id :: a == b
  }

  lemma SortedReqs(cs: seq<Candidate>, es: seq<Candidate>,
                   le: (Candidate, Candidate) -> bool, rle: (Request, Request) -> bool)
    requires TotalPreorder(le) && Follows(le, rle)
    requires rle == EarlierReq || rle == TighterReq
    requires multiset(Reqs(cs)) == multiset(Reqs(es)) && DistinctReqIds(Reqs(cs))
    ensures Reqs(Sort(cs, le)) == Reqs(Sort(es, le))
  {
    SortedByReq(cs, le, rle);
    SortedByReq(es, le, rle);
    var a, b := Reqs(Sort(cs, le)), Reqs(Sort(es, le));
    forall x | x in a ensures x in Reqs(cs) {
      InMultiset(a, x);
      InMultiset(Reqs(cs), x);
    }
    SortedUnique(a, b, rle);
  }

  lemma SortedByReq(cs: seq<Candidate>, le: (Candidate, Candidate) -> bool, rle: (Request, Request) -> bool)
    requires TotalPreorder(le) && Follows(le, rle)
    ensures Sorted(Reqs(Sort(cs, le)), rle) && multiset(Reqs(Sort(cs, le))) == multiset(Reqs(cs))
  {
    SortSorts(cs, le);
    ReqsMultiset(Sort(cs, le), cs);
  }

  ghost predicate SameVerdict(v: Verdict, w: Verdict) {
    Reqs(v.fit) == Reqs(w.fit) && Reqs(v.paused) == Reqs(w.paused) && v.tokens == w.tokens
  }

  lemma ReqsAppend(s: seq<Candidate>, c: Candidate)
    ensures Reqs(s + [c]) == Reqs(s) + [c.req]
  {
  }

  lemma {:induction false} SameGenerationPass(d: Input, e: Input, s: seq<Candidate>, t: seq<Candidate>)
    requires d.Valid() && e.Valid() && SameSnapshot(d, e) && Reqs(s) == Reqs(t)
    ensures SameVerdict(GenerationPass(d, s), GenerationPass(e, t))
  {
    assert |s| == |Reqs(s)| == |t|;
    if s != [] {
      var n := |s| - 1;
      assert Reqs(s[..n]) == Reqs(s)[..n] == Reqs(t[..n]);
      SameGenerationPass(d, e, s[..n], t[..n]);
      assert Reqs(s)[n] == s[n].req && Reqs(t)[n] == t[n].req;
      var v, w := GenerationPass(d, s[..n]), GenerationPass(e, t[..n]);
      assert |Reqs(v.fit)| == |v.fit| && |Reqs(w.fit)| == |w.fit|;
      ReqsAppend(v.fit, s[n]);
      ReqsAppend(w.fit, t[n]);
      ReqsAppend(v.paused, s[n]);
      ReqsAppend(w.paused, t[n]);
    }
  }

  lemma {:induction false} SameContextPass(
      d: Input, e: Input, v0: Verdict, w0: Verdict, s: seq<Candidate>, t: seq<Candidate>)
    requires d.Valid() && e.Valid() && SameSnapshot(d, e) && Reqs(s) == Reqs(t) && SameVerdict(v0, w0)
    ensures SameVerdict(ContextPass(d, v0, s), ContextPass(e, w0, t))
  {
    assert |s| == |Reqs(s)| == |t|;
    if s != [] {
      var n := |s| - 1;
      assert Reqs(s[..n]) == Reqs(s)[..n] == Reqs(t[..n]);
      SameContextPass(d, e, v0, w0, s[..n], t[..n]);
      assert Reqs(s)[n] == s[n].req && Reqs(t)[n] == t[n].req;
      var v, w := ContextPass(d, v0, s[..n]), ContextPass(e, w0, t[..n]);
      assert |Reqs(v.fit)| == |v.fit| && |Reqs(w.fit)| == |w.fit|;
      assert |Reqs(v0.paused)| == |v0.paused| && |Reqs(w0.paused)| == |w0.paused|;
      ReqsAppend(v.fit, s[n]);
      ReqsAppend(w.fit, t[n]);
      ReqsAppend(v.paused, s[n]);
      ReqsAppend(w.paused, t[n]);
    }
  }

  lemma WantedFrom(d: Input, context: bool)
    requires d.Valid() && DistinctReqIds(Requests(d))
    ensures DistinctReqIds(Reqs(Candidates(d, context, |d.ids|)))
  {
    CandidatesAre(d, context, |d.ids|);
    var cs := Candidates(d, context, |d.ids|);
    forall r | r in Reqs(cs) ensures r in Requests(d) {
      var i :| 0 <= i < |cs| && Reqs(cs)[i] == r;
      assert cs[i] in cs;
      assert Requests(d)[cs[i].index] == r;
    }
  }

  /** With distinct ids the decision does not depend on the order in which a rank lists the requests:
      every rank admits and pauses the same requests, in the same order. */
  lemma RanksAgree(d: Input, e: Input)
    requires d.Valid() && e.Valid() && SameSnapshot(d, e) && DistinctReqIds(Requests(d))
    ensures SameVerdict(Decision(d), Decision(e))
  {
    OrdersArePreorders();
    var le, rle := if d.order.Slack? then Tighter else Earlier,
                   if d.order.Slack? then TighterReq else EarlierReq;
    SameCandidates(d, e, false);
    WantedFrom(d, false);
    SortedReqs(Candidates(d, false, |d.ids|), Candidates(e, false, |e.ids|), le, rle);
    SameCandidates(d, e, true);
    WantedFrom(d, true);
    SortedReqs(Candidates(d, true, |d.ids|), Candidates(e, true, |e.ids|), Earlier, EarlierReq);
    SameGenerationPass(d, e, GenerationQueue(d), GenerationQueue(e));
    SameContextPass(d, e, GenerationPass(d, GenerationQueue(d)), GenerationPass(e, GenerationQueue(e)),
                    ContextQueue(d), ContextQueue(e));
  }
}
