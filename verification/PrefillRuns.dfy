/** Whole runs of the prefill scheduler: token accounting, chunk tiling, draining. */
module PrefillRuns {
  import opened Common
  import Policy
  import Sorting
  import opened PrefillState
  import opened PrefillLaws

  // ------------------------------------------------------ token accounting

  /** Tokens still owed to the listed requests. */
  function Owed(ids: seq<nat>, q: map<nat, Pending>): nat {
    if ids == [] then 0
    else (if ids[0] in q then q[ids[0]].Remaining() else 0) + Owed(ids[1..], q)
  }

  function QueuedTokens(s: Scheduler): nat { Owed(s.order, s.queue) }

  lemma {:induction false} OwedElsewhere(ids: seq<nat>, q: map<nat, Pending>, r: map<nat, Pending>)
    requires forall id | id in ids :: (id in q <==> id in r) && (id in q ==> q[id] == r[id])
    ensures Owed(ids, q) == Owed(ids, r)
  {
    if ids != [] {
      OwedElsewhere(ids[1..], q, r);
    }
  }

  lemma {:induction false} OwedUpdate(ids: seq<nat>, q: map<nat, Pending>, id: nat, p: Pending)
    requires Distinct(ids) && id in ids && id in q
    ensures Owed(ids, q[id := p]) == Owed(ids, q) - q[id].Remaining() + p.Remaining()
  {
    DistinctTail(ids);
    if ids[0] == id {
      OwedElsewhere(ids[1..], q, q[id := p]);
    } else {
      OwedUpdate(ids[1..], q, id, p);
    }
  }

  lemma {:induction false} OwedWithout(ids: seq<nat>, q: map<nat, Pending>, id: nat)
    requires id in q ==> q[id].Remaining() == 0
    ensures Owed(Without(ids, id), q - {id}) == Owed(ids, q)
  {
    if ids != [] {
      OwedWithout(ids[1..], q, id);
      assert ([ids[0]] + Without(ids[1..], id))[1..] == Without(ids[1..], id);
      assert [] + Without(ids[1..], id) == Without(ids[1..], id);
    }
  }

  lemma {:induction false} OwedRemoveAll(s: Scheduler, ids: seq<nat>)
    requires forall id | id in ids && id in s.queue :: s.queue[id].Remaining() == 0
    ensures QueuedTokens(RemoveAll(s, ids)) == QueuedTokens(s)
    decreases |ids|
  {
    if ids != [] {
      OwedWithout(s.order, s.queue, ids[0]);
      OwedRemoveAll(Remove(s, ids[0]), ids[1..]);
    }
  }

  lemma {:induction false} OwedAdvanced(ids: seq<nat>, q: map<nat, Pending>, cs: seq<Chunk>)
    requires Distinct(ids) && DistinctIds(cs)
    requires forall c | c in cs :: ChunkFits(q, c) && c.id in ids
    ensures Owed(ids, Advanced(q, cs)) == Owed(ids, q) - Tokens(cs)
  {
    if cs != [] {
      var front, last := cs[..|cs| - 1], cs[|cs| - 1];
      OwedAdvanced(ids, q, front);
      AdvancedMisses(q, front, last.id);
      OwedUpdate(ids, Advanced(q, front), last.id, Advance(q[last.id], last.tokens));
    }
  }

  /** A round lowers the queued tokens by exactly the size of its batch. */
  lemma RoundServesItsTokens(s: Scheduler, now: real, elapsed: real)
    requires Valid(s)
    ensures QueuedTokens(Round(s, now, elapsed)) == QueuedTokens(s) - PlanBatch(s, now).total
  {
    PlanIsFeasible(s, now);
    AfterPlanValid(s, now);
    CompletionServes(AfterPlan(s, now), PlanBatch(s, now), elapsed);
  }

  lemma CompletionServes(s: Scheduler, b: Batch, elapsed: real)
    requires Valid(s) && BatchFits(s.queue, b.chunks) && b.total == Tokens(b.chunks)
    ensures QueuedTokens(AfterComplete(s, b, elapsed)) == QueuedTokens(s) - b.total
  {
    OwedAdvanced(s.order, s.queue, b.chunks);
    AdvancedAt(s.queue, b.chunks);
    FinishedAre(s.queue, b.chunks);
    var p := s.(tuning := s.tuning.(tokensPerMs := NewRate(s.tuning, b.total, elapsed)),
                queue := Advanced(s.queue, b.chunks));
    OwedRemoveAll(p, Finished(s.queue, b.chunks));
  }

  // --------------------------------------------------------------- draining

  function Rounds(s: Scheduler, times: seq<(real, real)>): Scheduler {
    if times == [] then s
    else
      var t := Rounds(s, times[..|times| - 1]);
      Round(t, times[|times| - 1].0, times[|times| - 1].1)
  }

  ghost predicate Serves(t: Tuning) {
    t.maxSeqs > 0 && t.chunkTokens > 0 && (t.demoteHopeless || !t.policy.MooreHodgson?)
  }

  ghost function Idle(s: Scheduler): set<nat> {
    set id | id in s.queue && s.queue[id].Remaining() == 0
  }

  lemma MovedKeepsIdle(s: Scheduler, b: Batch, t: Scheduler)
    requires Valid(s) && BatchFits(s.queue, b.chunks) && Moved(s, b, t)
    ensures Idle(t) == Idle(s)
  {
    forall id ensures id in Idle(t) <==> id in Idle(s) {
      if c :| c in b.chunks && c.id == id {
        assert ChunkFits(s.queue, c);
      }
    }
  }

  lemma BatchHasTokens(s: Scheduler, now: real)
    requires Valid(s) && Serves(s.tuning) && QueuedTokens(s) > 0
    ensures PlanBatch(s, now).total > 0
  {
    var id := Owing(s.order, s.queue);
    PlanEmptyIff(s, now);
    AllOffered(s, now);
    PlanIsFeasible(s, now);
    SomeTokens(s.queue, PlanBatch(s, now).chunks);
  }

  lemma RoundProgress(s: Scheduler, now: real, elapsed: real)
    requires Valid(s) && Serves(s.tuning)
    ensures var t := Round(s, now, elapsed);
      && Valid(t) && Serves(t.tuning) && Idle(t) == Idle(s)
      && (QueuedTokens(s) > 0 ==> QueuedTokens(t) < QueuedTokens(s))
  {
    RoundMovesBatch(s, now, elapsed);
    MovedKeepsIdle(s, PlanBatch(s, now), Round(s, now, elapsed));
    RoundServesItsTokens(s, now, elapsed);
    if QueuedTokens(s) > 0 {
      BatchHasTokens(s, now);
    }
  }

  lemma SomeTokens(q: map<nat, Pending>, cs: seq<Chunk>)
    requires cs != [] && forall c | c in cs :: ChunkFits(q, c)
    ensures Tokens(cs) > 0
  {
    assert cs[|cs| - 1] in cs;
  }

  lemma {:induction false} Owing(ids: seq<nat>, q: map<nat, Pending>) returns (id: nat)
    requires Owed(ids, q) > 0
    ensures id in ids && id in q && q[id].Remaining() > 0
  {
    if ids[0] in q && q[ids[0]].Remaining() > 0 {
      id := ids[0];
    } else {
      id := Owing(ids[1..], q);
    }
  }

  lemma {:induction false} OwedZero(ids: seq<nat>, q: map<nat, Pending>)
    requires Owed(ids, q) == 0
    ensures forall id | id in ids && id in q :: q[id].Remaining() == 0
  {
    if ids != [] {
      OwedZero(ids[1..], q);
      assert ids == [ids[0]] + ids[1..];
    }
  }

  /** With no new arrivals, as many rounds as there are queued tokens serve every request that has
      any: what is left in the queue is exactly the requests that had nothing to compute. */
  lemma QueueDrains(s: Scheduler, times: seq<(real, real)>)
    requires Valid(s) && Serves(s.tuning) && |times| >= QueuedTokens(s)
    ensures var t := Rounds(s, times);
      QueuedTokens(t) == 0 && t.queue.Keys == Idle(s)
  {
    RoundsProgress(s, times);
    var t := Rounds(s, times);
    OwedZero(t.order, t.queue);
    assert Idle(t) == t.queue.Keys;
  }

  lemma {:induction false} RoundsProgress(s: Scheduler, times: seq<(real, real)>)
    requires Valid(s) && Serves(s.tuning)
    ensures var t := Rounds(s, times);
      && Valid(t) && Serves(t.tuning) && Idle(t) == Idle(s)
      && (QueuedTokens(t) == 0 || QueuedTokens(t) + |times| <= QueuedTokens(s))
  {
    if times != [] {
      var front := times[..|times| - 1];
      RoundsProgress(s, front);
      var t := Rounds(s, front);
      var last := times[|times| - 1];
      RoundProgress(t, last.0, last.1);
      RoundServesItsTokens(t, last.0, last.1);
    }
  }

  // ----------------------------------------------------------------- tiling

  /** What has been issued for one request: the chunks since it was submitted with `start` tokens
      done, and whether `complete` has reported it finished. */
  datatype Trace = Trace(start: nat, compute: nat, chunks: seq<Chunk>, finished: bool)

  datatype World = World(s: Scheduler, ledger: map<nat, Trace>)

  datatype Op =
    | Submit(p: Pending)
    | Cancel(id: nat)
    | Serve(now: real, elapsed: real)

  function Of(cs: seq<Chunk>, id: nat): seq<Chunk> {
    if cs == [] then []
    else
      var c := cs[|cs| - 1];
      Of(cs[..|cs| - 1], id) + (if c.id == id then [c] else [])
  }

  function StepWorld(w: World, op: Op): World {
    match op
    case Submit(p) => World(Enqueue(w.s, p), w.ledger[p.id := Trace(p.done, p.compute, [], false)])
    case Cancel(id) => World(Remove(w.s, id), if id in w.s.queue then w.ledger - {id} else w.ledger)
    case Serve(now, elapsed) =>
      var b := PlanBatch(w.s, now);
      var fin := Finished(w.s.queue, b.chunks);
      World(Round(w.s, now, elapsed),
            map id | id in w.ledger :: Extend(w.ledger[id], b.chunks, id, id in fin))
  }

  function Run(t: Tuning, ops: seq<Op>): World {
    if ops == [] then World(Scheduler(t, map[], [], {}), map[])
    else StepWorld(Run(t, ops[..|ops| - 1]), ops[|ops| - 1])
  }

  /** The chunks are non-empty, contiguous and cover `[from, to)`. */
  ghost predicate Tiles(cs: seq<Chunk>, from: nat, to: nat) {
    if cs == [] then from == to
    else
      var c := cs[|cs| - 1];
      c.tokens > 0 && c.start + c.tokens == to && Tiles(cs[..|cs| - 1], from, c.start)
  }

  ghost predicate NoneCompletes(cs: seq<Chunk>) {
    forall c | c in cs :: !c.completes
  }

  /** A finished request was tiled from where it started to its end, and only its last chunk
      completes it. */
  ghost predicate ServedInFull(t: Trace) {
    && t.finished && t.chunks != []
    && Tiles(t.chunks, t.start, t.compute)
    && t.chunks[|t.chunks| - 1].completes
    && NoneCompletes(t.chunks[..|t.chunks| - 1])
  }

  /** A queued request has been tiled up to where it stands. */
  ghost predicate ServedSoFar(t: Trace, p: Pending) {
    && !t.finished && t.compute == p.compute
    && Tiles(t.chunks, t.start, p.done)
    && NoneCompletes(t.chunks)
  }

  ghost predicate Accounted(w: World) {
    && Valid(w.s)
    && (forall id | id in w.s.queue :: id in w.ledger && ServedSoFar(w.ledger[id], w.s.queue[id]))
    && (forall id | id in w.ledger && id !in w.s.queue :: ServedInFull(w.ledger[id]))
  }

  lemma {:induction false} OfMisses(cs: seq<Chunk>, id: nat)
    requires forall c | c in cs :: c.id != id
    ensures Of(cs, id) == []
  {
    if cs != [] {
      assert cs == cs[..|cs| - 1] + [cs[|cs| - 1]];
      OfMisses(cs[..|cs| - 1], id);
    }
  }

  lemma {:induction false} OfHits(cs: seq<Chunk>, k: nat)
    requires DistinctIds(cs) && k < |cs|
    ensures Of(cs, cs[k].id) == [cs[k]]
  {
    var front := cs[..|cs| - 1];
    if k == |front| {
      OfMisses(front, cs[k].id);
    } else {
      OfHits(front, k);
    }
  }

  lemma AppendTile(t: Trace, p: Pending, c: Chunk, q: map<nat, Pending>)
    requires ServedSoFar(t, p) && ChunkFits(q, c) && q[c.id] == p
    ensures c.completes ==> ServedInFull(t.(chunks := t.chunks + [c], finished := true))
    ensures !c.completes ==>
      ServedSoFar(t.(chunks := t.chunks + [c]), p.(done := c.start + c.tokens))
  {
    assert (t.chunks + [c])[..|t.chunks|] == t.chunks;
  }

  /** Extends the trace of `id` by its share of a batch. */
  function Extend(t: Trace, cs: seq<Chunk>, id: nat, done: bool): Trace {
    t.(chunks := t.chunks + Of(cs, id), finished := t.finished || done)
  }

  lemma ExtendKeeps(t: Trace, s: Scheduler, b: Batch, u: Scheduler, id: nat)
    requires id in s.queue && ServedSoFar(t, s.queue[id])
    requires BatchFits(s.queue, b.chunks) && Moved(s, b, u)
    ensures id in u.queue ==> ServedSoFar(Extend(t, b.chunks, id, false), u.queue[id])
    ensures id !in u.queue ==> ServedInFull(Extend(t, b.chunks, id, true))
  {
    if k :| 0 <= k < |b.chunks| && b.chunks[k].id == id {
      var c := b.chunks[k];
      OneChunkEach(b.chunks, k);
      OfHits(b.chunks, k);
      AppendTile(t, s.queue[id], c, s.queue);
    } else {
      OfMisses(b.chunks, id);
      assert t.chunks + [] == t.chunks;
    }
  }

  lemma RestKeeps(t: Trace, cs: seq<Chunk>, id: nat, q: map<nat, Pending>)
    requires ServedInFull(t) && id !in q && BatchFits(q, cs)
    ensures ServedInFull(Extend(t, cs, id, false))
  {
    OfMisses(cs, id);
    assert t.chunks + [] == t.chunks;
  }

  lemma OneChunkEach(cs: seq<Chunk>, k: nat)
    requires DistinctIds(cs) && k < |cs|
    ensures cs[k] in cs && forall c | c in cs && c.id == cs[k].id :: c == cs[k]
  {
  }

  lemma ServeKeepsAccounted(w: World, b: Batch, u: Scheduler, fin: seq<nat>)
    requires Accounted(w) && BatchFits(w.s.queue, b.chunks) && Moved(w.s, b, u)
    requires forall id :: id in fin <==> id in w.s.queue && id !in u.queue
    ensures Accounted(World(u, map id | id in w.ledger :: Extend(w.ledger[id], b.chunks, id, id in fin)))
  {
    forall id | id in w.ledger
      ensures id in u.queue ==> ServedSoFar(Extend(w.ledger[id], b.chunks, id, id in fin), u.queue[id])
      ensures id !in u.queue ==> ServedInFull(Extend(w.ledger[id], b.chunks, id, id in fin))
    {
      if id in w.s.queue {
        ExtendKeeps(w.ledger[id], w.s, b, u, id);
      } else {
        RestKeeps(w.ledger[id], b.chunks, id, w.s.queue);
      }
    }
  }

  lemma StepKeepsAccounted(w: World, op: Op)
    requires Accounted(w)
    ensures Accounted(StepWorld(w, op))
  {
    match op
    case Submit(p) => EnqueueValid(w.s, p);
    case Cancel(id) => RemoveValid(w.s, id);
    case Serve(now, elapsed) =>
      var b := PlanBatch(w.s, now);
      RoundMovesBatch(w.s, now, elapsed);
      ServeKeepsAccounted(w, b, Round(w.s, now, elapsed), Finished(w.s.queue, b.chunks));
  }

  /** Over any run of submissions, cancellations and rounds, every request has been cut into
      contiguous chunks from its start to where it stands, and a finished one to its very end. */
  lemma {:induction false} ChunksTile(t: Tuning, ops: seq<Op>)
    ensures Accounted(Run(t, ops))
  {
    if ops != [] {
      ChunksTile(t, ops[..|ops| - 1]);
      StepKeepsAccounted(Run(t, ops[..|ops| - 1]), ops[|ops| - 1]);
    }
  }

  // ------------------------------------------------------- dropped requests

  /** Whatever Moore-Hodgson gives up is not served by the plan unless given-up work is demoted. */
  lemma GivenUpIsNotServed(s: Scheduler, now: real)
    requires Valid(s) && !s.tuning.demoteHopeless
    ensures forall c | c in PlanBatch(s, now).chunks :: c.id !in OrderingOf(s, now).demoted
  {
    if s.queue != map[] {
      var o := OrderingOf(s, now);
      OrderingCoversQueue(s, now);
      SplitDistinct(o.onTime, o.demoted);
      FillKeeps(s, now, false, o.onTime, EMPTY_DRAFT, o.onTime);
      FillKeeps(s, now, true, [], FirstPass(s, now), o.onTime);
    }
  }

  /** A single late request, for example, is then never served, however often the queue is planned. */
  lemma LateRequestIsStarved(s: Scheduler, p: Pending, now: real)
    requires s.queue == map[p.id := p] && s.order == [p.id]
    requires s.tuning.policy.MooreHodgson? && !s.tuning.demoteHopeless
    requires p.deadline < now
    ensures PlanBatch(s, now).chunks == []
  {
    var job := Policy.Job(p.id, p.arrival, p.deadline, p.Remaining() as real / Rate(s));
    assert job.service >= 0.0;
    assert s.order[1..] == [];
    assert JobsOf(s, s.order) == [job] + JobsOf(s, []);
    assert JobsOf(s, s.order) == [job];
    LateJobIsDemoted(job, now);
  }

  lemma LateJobIsDemoted(job: Policy.Job, now: real)
    requires job.service >= 0.0 && job.deadline < now
    ensures Policy.MooreHodgsonSchedule([job], now).accepted == []
  {
    var w := Policy.Schedule([], []);
    assert [job][1..] == [] && [job][..0] == [];
    assert Sorting.Sort([job], Policy.ByDeadline) == [job];
    assert Policy.Walk([job], now) == Policy.Take(w, job, now);
    assert w.accepted + [job] == [job];
    Policy.TotalOne(job);
    assert RemoveAt([job], 0) == [];
  }
}
