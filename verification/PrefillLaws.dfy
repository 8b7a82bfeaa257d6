/** What planning and completing guarantee, for one batch and over whole runs. */
module PrefillLaws {
  import opened Common
  import opened Policy
  import opened PrefillState

  // ------------------------------------------------------------ the queue

  lemma {:induction false} WithoutContents(ids: seq<nat>, id: nat)
    ensures forall x :: x in Without(ids, id) <==> x in ids && x != id
    ensures Distinct(ids) ==> Distinct(Without(ids, id))
  {
    if ids != [] {
      WithoutContents(ids[1..], id);
      assert ids == [ids[0]] + ids[1..];
      var r := Without(ids[1..], id);
      assert Distinct(ids) ==> Distinct(ids[1..]) && ids[0] !in r;
      assert Distinct(r) && ids[0] !in r ==> Distinct([ids[0]] + r);
    }
  }

  lemma EnqueueValid(s: Scheduler, p: Pending)
    requires Valid(s)
    ensures Valid(Enqueue(s, p))
  {
  }

  lemma RemoveValid(s: Scheduler, id: nat)
    requires Valid(s)
    ensures Valid(Remove(s, id))
  {
    WithoutContents(s.order, id);
  }

  lemma {:induction false} RemoveAllValid(s: Scheduler, ids: seq<nat>)
    requires Valid(s)
    ensures Valid(RemoveAll(s, ids)) && RemoveAll(s, ids).tuning == s.tuning
    ensures RemoveAll(s, ids).queue == s.queue - (set id | id in ids)
    decreases |ids|
  {
    if ids != [] {
      RemoveValid(s, ids[0]);
      RemoveAllValid(Remove(s, ids[0]), ids[1..]);
      assert (set id | id in ids) == {ids[0]} + (set id | id in ids[1..]);
    }
  }

  lemma {:induction false} JobsOfIds(s: Scheduler, ids: seq<nat>)
    requires Valid(s) && forall id | id in ids :: id in s.queue
    ensures Ids(JobsOf(s, ids)) == ids
  {
    if ids != [] {
      JobsOfIds(s, ids[1..]);
      IdsCons(JobsOf(s, ids));
    }
  }

  lemma IdsCons(jobs: seq<Job>)
    requires jobs != []
    ensures Ids(jobs) == [jobs[0].id] + Ids(jobs[1..])
  {
  }

  /** The ordering lists every queued request exactly once, in one of its two parts. */
  lemma OrderingCoversQueue(s: Scheduler, now: real)
    requires Valid(s)
    ensures var o := OrderingOf(s, now);
      && Distinct(o.onTime + o.demoted)
      && forall id :: id in s.queue <==> id in o.onTime || id in o.demoted
  {
    var o := OrderingOf(s, now);
    OrderingIsPermutation(JobsOf(s, s.order), now, s.tuning.policy);
    JobsOfIds(s, s.order);
    PermutationDistinct(s.order, o.onTime + o.demoted);
    forall id ensures id in s.queue <==> id in o.onTime || id in o.demoted {
      InMultiset(o.onTime + o.demoted, id);
      InMultiset(s.order, id);
    }
  }

  // ------------------------------------------------------------- one batch

  function Tokens(cs: seq<Chunk>): nat {
    if cs == [] then 0 else Tokens(cs[..|cs| - 1]) + cs[|cs| - 1].tokens
  }

  ghost predicate DistinctIds(cs: seq<Chunk>) {
    forall i, j | 0 <= i < j < |cs| :: cs[i].id != cs[j].id
  }

  /** A chunk starts where its request stands, and completes it exactly when it takes all that is left. */
  ghost predicate ChunkFits(queue: map<nat, Pending>, c: Chunk) {
    && c.id in queue
    && c.start == queue[c.id].done
    && 1 <= c.tokens <= queue[c.id].Remaining()
    && (c.completes <==> c.tokens == queue[c.id].Remaining())
  }

  /** The chunks fit the budgets and the queue. */
  ghost predicate DraftFits(s: Scheduler, d: Draft) {
    && |d.chunks| <= s.tuning.maxSeqs
    && d.total == Tokens(d.chunks) <= s.tuning.chunkTokens
    && DistinctIds(d.chunks)
    && (forall c | c in d.chunks :: ChunkFits(s.queue, c))
  }

  /** Two or more chunks finish by the binding deadline, which no member from `primary` undercuts. */
  ghost predicate DraftTimely(s: Scheduler, now: real, d: Draft, primary: seq<nat>) {
    && (|d.chunks| >= 2 ==> d.binding.Allows(Finish(s, now, d.total)))
    && (forall c | c in d.chunks && c.id in primary ::
          c.id in s.queue && d.binding.At? && d.binding.ms <= s.queue[c.id].deadline)
  }

  ghost predicate Untouched(d: Draft, ids: seq<nat>) {
    forall c | c in d.chunks :: c.id !in ids
  }

  lemma TokensAppend(cs: seq<Chunk>, c: Chunk)
    ensures Tokens(cs + [c]) == Tokens(cs) + c.tokens
  {
    assert (cs + [c])[..|cs|] == cs;
  }

  lemma OfferFits(s: Scheduler, now: real, second: bool, id: nat, d: Draft)
    requires DraftFits(s, d) && !Full(s, d) && forall c | c in d.chunks :: c.id != id
    requires Offer(s, now, second, id, d).Some?
    ensures DraftFits(s, Offer(s, now, second, id, d).value)
  {
    var o := Offer(s, now, second, id, d).value;
    if id in s.queue && o.chunks != d.chunks {
      AppendFits(s, d, o.chunks[|d.chunks|]);
    }
  }

  lemma AppendFits(s: Scheduler, d: Draft, c: Chunk)
    requires DraftFits(s, d) && |d.chunks| < s.tuning.maxSeqs && ChunkFits(s.queue, c)
    requires d.total + c.tokens <= s.tuning.chunkTokens && forall x | x in d.chunks :: x.id != c.id
    ensures DraftFits(s, Draft(d.chunks + [c], d.total + c.tokens, d.limited, d.binding))
  {
    TokensAppend(d.chunks, c);
  }

  lemma OfferTimely(
      s: Scheduler, now: real, second: bool, id: nat, d: Draft, primary: seq<nat>)
    requires DraftTimely(s, now, d, primary) && (second ==> id !in primary)
    requires Offer(s, now, second, id, d).Some?
    ensures DraftTimely(s, now, Offer(s, now, second, id, d).value, primary)
  {
  }

  lemma OfferMembers(s: Scheduler, now: real, second: bool, id: nat, d: Draft)
    requires Offer(s, now, second, id, d).Some?
    ensures forall c | c in Offer(s, now, second, id, d).value.chunks :: c in d.chunks || c.id == id
  {
  }

  lemma DistinctTail(ids: seq<nat>)
    requires ids != [] && Distinct(ids)
    ensures Distinct(ids[1..]) && ids[0] !in ids[1..] && forall x | x in ids[1..] :: x in ids
  {
  }

  lemma {:induction false} FillKeeps(
      s: Scheduler, now: real, second: bool, ids: seq<nat>, d: Draft, primary: seq<nat>)
    requires DraftFits(s, d) && DraftTimely(s, now, d, primary)
    requires Distinct(ids) && Untouched(d, ids)
    requires second ==> forall id | id in ids :: id !in primary
    ensures var f := Fill(s, now, second, ids, d);
      && DraftFits(s, f) && DraftTimely(s, now, f, primary)
      && forall c | c in f.chunks :: c in d.chunks || c.id in ids
    decreases |ids|
  {
    if ids != [] && !Full(s, d) {
      var next := Offer(s, now, second, ids[0], d);
      if next.Some? {
        DistinctTail(ids);
        OfferFits(s, now, second, ids[0], d);
        OfferTimely(s, now, second, ids[0], d, primary);
        OfferMembers(s, now, second, ids[0], d);
        FillKeeps(s, now, second, ids[1..], next.value, primary);
      }
    }
  }

  /** A planned batch stays within both budgets, names distinct queued requests at their current
      position, and, when it holds two or more, ends by the deadline of every member that has not
      been given up. */
  lemma PlanIsFeasible(s: Scheduler, now: real)
    requires Valid(s)
    ensures var b := PlanBatch(s, now);
      && |b.chunks| <= s.tuning.maxSeqs
      && b.total == Tokens(b.chunks) <= s.tuning.chunkTokens
      && DistinctIds(b.chunks)
      && (forall c | c in b.chunks :: ChunkFits(s.queue, c))
      && (|b.chunks| >= 2 ==>
            forall c | c in b.chunks && c.id !in AfterPlan(s, now).demoted ::
              now + b.estService <= s.queue[c.id].deadline)
  {
    if s.queue != map[] {
      var o := OrderingOf(s, now);
      OrderingCoversQueue(s, now);
      SplitDistinct(o.onTime, o.demoted);
      FillKeeps(s, now, false, o.onTime, EMPTY_DRAFT, o.onTime);
      FillKeeps(s, now, true, Secondary(s, now), FirstPass(s, now), o.onTime);
    }
  }

  lemma SplitDistinct(a: seq<nat>, b: seq<nat>)
    requires Distinct(a + b)
    ensures Distinct(a) && Distinct(b) && forall x | x in b :: x !in a
  {
    var t := a + b;
    assert forall i | 0 <= i < |a| :: t[i] == a[i];
    assert forall i | 0 <= i < |b| :: t[|a| + i] == b[i];
  }

  lemma AfterPlanValid(s: Scheduler, now: real)
    requires Valid(s)
    ensures Valid(AfterPlan(s, now))
  {
    OrderingCoversQueue(s, now);
  }

  // -------------------------------------------------------------- progress

  /** The requests `plan` offers to the batch, in order. */
  function Offered(s: Scheduler, now: real): seq<nat> {
    OrderingOf(s, now).onTime + Secondary(s, now)
  }

  lemma {:induction false} FillFromEmpty(
      s: Scheduler, now: real, second: bool, ids: seq<nat>, d: Draft)
    requires d.chunks == [] && d.total == 0 && s.tuning.maxSeqs > 0 && s.tuning.chunkTokens > 0
    ensures var f := Fill(s, now, second, ids, d);
      && (f.chunks == [] ==> f == d)
      && (f.chunks == [] <==> forall id | id in ids && id in s.queue :: s.queue[id].Remaining() == 0)
    decreases |ids|
  {
    if ids != [] {
      assert ids == [ids[0]] + ids[1..];
      if ids[0] !in s.queue || s.queue[ids[0]].Remaining() == 0 {
        FillFromEmpty(s, now, second, ids[1..], d);
      } else {
        var next := Offer(s, now, second, ids[0], d).value;
        FillGrows(s, now, second, ids[1..], next);
      }
    }
  }

  lemma {:induction false} FillGrows(
      s: Scheduler, now: real, second: bool, ids: seq<nat>, d: Draft)
    ensures d.chunks <= Fill(s, now, second, ids, d).chunks
    decreases |ids|
  {
    if ids != [] && !Full(s, d) {
      var next := Offer(s, now, second, ids[0], d);
      if next.Some? {
        FillGrows(s, now, second, ids[1..], next.value);
      }
    }
  }

  /** A plan comes back empty exactly when a budget is zero or no request it is willing to serve has
      tokens left: given-up requests count only when they are demoted rather than dropped. */
  lemma PlanEmptyIff(s: Scheduler, now: real)
    requires Valid(s)
    ensures PlanBatch(s, now).chunks == [] <==>
      || s.tuning.maxSeqs == 0
      || s.tuning.chunkTokens == 0
      || forall id | id in s.queue :: s.queue[id].Remaining() == 0 || id !in Offered(s, now)
  {
    if s.queue == map[] {
    } else if s.tuning.maxSeqs == 0 || s.tuning.chunkTokens == 0 {
    } else {
      OrderingCoversQueue(s, now);
      FillFromEmpty(s, now, false, OrderingOf(s, now).onTime, EMPTY_DRAFT);
      var first := FirstPass(s, now);
      if first.chunks == [] {
        FillFromEmpty(s, now, true, Secondary(s, now), first);
      } else {
        FillGrows(s, now, true, Secondary(s, now), first);
      }
    }
  }

  /** Every queued request is offered unless Moore-Hodgson may drop what it gives up. */
  lemma AllOffered(s: Scheduler, now: real)
    requires Valid(s) && (s.tuning.demoteHopeless || !s.tuning.policy.MooreHodgson?)
    ensures forall id | id in s.queue :: id in Offered(s, now)
  {
    OrderingCoversQueue(s, now);
  }

  // -------------------------------------------------------------- one round

  function Round(s: Scheduler, now: real, elapsed: real): Scheduler {
    AfterComplete(AfterPlan(s, now), PlanBatch(s, now), elapsed)
  }

  lemma {:induction false} AdvancedMisses(q: map<nat, Pending>, cs: seq<Chunk>, id: nat)
    requires id in q && forall c | c in cs :: c.id != id
    ensures id in Advanced(q, cs) && Advanced(q, cs)[id] == q[id]
  {
    if cs != [] {
      assert cs == cs[..|cs| - 1] + [cs[|cs| - 1]];
      AdvancedMisses(q, cs[..|cs| - 1], id);
    }
  }

  lemma {:induction false} AdvancedHits(q: map<nat, Pending>, cs: seq<Chunk>, k: nat)
    requires DistinctIds(cs) && k < |cs| && ChunkFits(q, cs[k])
    ensures cs[k].id in Advanced(q, cs)
    ensures Advanced(q, cs)[cs[k].id] == q[cs[k].id].(done := cs[k].start + cs[k].tokens)
  {
    var front := cs[..|cs| - 1];
    if k == |front| {
      AdvancedMisses(q, front, cs[k].id);
    } else {
      AdvancedHits(q, front, k);
    }
  }

  lemma {:induction false} AdvancedKeys(q: map<nat, Pending>, cs: seq<Chunk>)
    ensures Advanced(q, cs).Keys == q.Keys
  {
    if cs != [] {
      AdvancedKeys(q, cs[..|cs| - 1]);
    }
  }

  lemma AdvancedAt(q: map<nat, Pending>, cs: seq<Chunk>)
    requires DistinctIds(cs) && forall c | c in cs :: ChunkFits(q, c)
    ensures Advanced(q, cs).Keys == q.Keys
    ensures forall c | c in cs ::
      c.id in Advanced(q, cs) && Advanced(q, cs)[c.id] == q[c.id].(done := c.start + c.tokens)
    ensures forall id | id in q && (forall c | c in cs :: c.id != id) :: Advanced(q, cs)[id] == q[id]
  {
    AdvancedKeys(q, cs);
    forall c | c in cs
      ensures c.id in Advanced(q, cs) && Advanced(q, cs)[c.id] == q[c.id].(done := c.start + c.tokens)
    {
      var k :| 0 <= k < |cs| && cs[k] == c;
      AdvancedHits(q, cs, k);
    }
    forall id | id in q && (forall c | c in cs :: c.id != id) ensures Advanced(q, cs)[id] == q[id] {
      AdvancedMisses(q, cs, id);
    }
  }

  lemma {:induction false} FinishedAre(q: map<nat, Pending>, cs: seq<Chunk>)
    requires DistinctIds(cs) && forall c | c in cs :: ChunkFits(q, c)
    ensures forall id :: id in Finished(q, cs) <==> exists c :: c in cs && c.id == id && c.completes
  {
    if cs != [] {
      var front, last := cs[..|cs| - 1], cs[|cs| - 1];
      assert cs == front + [last];
      AdvancedHits(q, cs, |front|);
      FinishedAre(q, front);
    }
  }

  /** `t` is `s` with every member of the batch moved forward by its chunk, and exactly the members
      whose chunk completes them removed. */
  ghost predicate Moved(s: Scheduler, b: Batch, t: Scheduler) {
    && Valid(t)
    && (forall id :: id in t.queue <==>
          id in s.queue && !exists c :: c in b.chunks && c.id == id && c.completes)
    && (forall c | c in b.chunks && c.id in t.queue && c.id in s.queue ::
          t.queue[c.id] == s.queue[c.id].(done := c.start + c.tokens))
    && (forall id | id in t.queue && id in s.queue && (forall c | c in b.chunks :: c.id != id) ::
          t.queue[id] == s.queue[id])
    && t.tuning == s.tuning.(tokensPerMs := t.tuning.tokensPerMs)
  }

  ghost predicate BatchFits(queue: map<nat, Pending>, cs: seq<Chunk>) {
    DistinctIds(cs) && forall c | c in cs :: ChunkFits(queue, c)
  }

  /** Completing a batch that fits the queue moves it, and reports exactly the requests it removes. */
  lemma CompleteMoves(s: Scheduler, b: Batch, elapsed: real)
    requires Valid(s) && BatchFits(s.queue, b.chunks)
    ensures Moved(s, b, AfterComplete(s, b, elapsed))
    ensures forall id :: id in Finished(s.queue, b.chunks) <==>
      id in s.queue && id !in AfterComplete(s, b, elapsed).queue
  {
    AdvancedAt(s.queue, b.chunks);
    FinishedAre(s.queue, b.chunks);
    var mid := s.(tuning := s.tuning.(tokensPerMs := NewRate(s.tuning, b.total, elapsed)),
                  queue := Advanced(s.queue, b.chunks));
    AdvancedValid(s, mid);
    RemoveAllValid(mid, Finished(s.queue, b.chunks));
  }

  /** No request is reported finished twice. */
  lemma {:induction false} FinishedOnce(q: map<nat, Pending>, cs: seq<Chunk>)
    requires BatchFits(q, cs)
    ensures Distinct(Finished(q, cs))
  {
    if cs != [] {
      var front, last := cs[..|cs| - 1], cs[|cs| - 1];
      assert cs == front + [last];
      FinishedOnce(q, front);
      FinishedAre(q, front);
      assert last.id !in Finished(q, front);
      assert Finished(q, cs) == Finished(q, front) || Finished(q, cs) == Finished(q, front) + [last.id];
    }
  }

  /** The requests whose chunks the plan flagged as their last, in order. */
  function Flagged(cs: seq<Chunk>): seq<nat> {
    if cs == [] then []
    else Flagged(cs[..|cs| - 1]) + (if cs[|cs| - 1].completes then [cs[|cs| - 1].id] else [])
  }

  /** Completion reports exactly the requests whose chunks were flagged as their last, in batch order. */
  lemma {:induction false} FlagsForetell(q: map<nat, Pending>, cs: seq<Chunk>)
    requires BatchFits(q, cs)
    ensures Finished(q, cs) == Flagged(cs)
  {
    if cs != [] {
      var n := |cs| - 1;
      assert cs == cs[..n] + [cs[n]];
      FlagsForetell(q, cs[..n]);
      AdvancedHits(q, cs, n);
      assert ChunkFits(q, cs[n]);
    }
  }

  /** One round moves the planned batch. */
  lemma RoundMovesBatch(s: Scheduler, now: real, elapsed: real)
    requires Valid(s)
    ensures var b, t := PlanBatch(s, now), Round(s, now, elapsed);
      && BatchFits(s.queue, b.chunks)
      && Moved(s, b, t)
      && (forall id :: id in Finished(s.queue, b.chunks) <==> id in s.queue && id !in t.queue)
  {
    PlanIsFeasible(s, now);
    AfterPlanValid(s, now);
    CompleteMoves(AfterPlan(s, now), PlanBatch(s, now), elapsed);
  }

  lemma AdvancedValid(p: Scheduler, mid: Scheduler)
    requires Valid(p) && mid.order == p.order && mid.demoted == p.demoted
    requires mid.queue.Keys == p.queue.Keys
    requires forall id | id in mid.queue :: mid.queue[id].id == p.queue[id].id
    ensures Valid(mid)
  {
  }

  // ---------------------------------------------------------------- the rate

  /** Completing a batch moves the estimated rate from where it was towards what the batch showed, by the
      share that `rateAlpha` gives, kept between nothing and all of the way. */
  lemma RateFollows(s: Scheduler, b: Batch, elapsed: real)
    requires Valid(s) && BatchFits(s.queue, b.chunks)
    ensures var was, t := s.tuning.tokensPerMs, AfterComplete(s, b, elapsed).tuning;
      && t == s.tuning.(tokensPerMs := t.tokensPerMs)
      && (elapsed <= 0.0 || b.total == 0 ==> t.tokensPerMs == was)
      && (elapsed > 0.0 && b.total > 0 ==>
            var seen := b.total as real / elapsed;
            && (s.tuning.rateAlpha <= 0.0 ==> t.tokensPerMs == was)
            && (s.tuning.rateAlpha >= 1.0 ==> t.tokensPerMs == seen)
            && (0.0 <= s.tuning.rateAlpha <= 1.0 ==>
                  t.tokensPerMs - was == s.tuning.rateAlpha * (seen - was)))
    ensures s.tuning.tokensPerMs >= MIN_POSITIVE ==> Rate(s) == s.tuning.tokensPerMs
  {
    CompleteMoves(s, b, elapsed);
    var mid := s.(tuning := s.tuning.(tokensPerMs := NewRate(s.tuning, b.total, elapsed)),
                  queue := Advanced(s.queue, b.chunks));
    AdvancedAt(s.queue, b.chunks);
    AdvancedValid(s, mid);
    RemoveAllValid(mid, Finished(s.queue, b.chunks));
    if elapsed > 0.0 && b.total > 0 {
      Towards(s.tuning.tokensPerMs, b.total as real / elapsed, Clamp01(s.tuning.rateAlpha));
    }
  }

  lemma Towards(was: real, seen: real, a: real)
    ensures (1.0 - a) * was + a * seen - was == a * (seen - was)
  {
  }
}
