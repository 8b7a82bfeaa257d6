/** Prefill queueing and deadline-feasible batch assembly: the state, and what each operation does
    to it. */
module PrefillState {
  import opened Common
  import opened Policy

  /** A queued request, `done` of its `compute` tokens already computed. */
  datatype Pending = Pending(id: nat, arrival: real, deadline: real, compute: nat, done: nat) {
    function Remaining(): nat { SatSub(compute, done) }
  }

  /** One request's slice of a batch. */
  datatype Chunk = Chunk(id: nat, start: nat, tokens: nat, completes: bool)

  datatype Batch = Batch(chunks: seq<Chunk>, total: nat, estService: real, deadlineLimited: bool)

  const EMPTY_BATCH := Batch([], 0, 0.0, false)

  datatype Tuning = Tuning(
    chunkTokens: nat, maxSeqs: nat, policy: PrefillPolicy, demoteHopeless: bool,
    tokensPerMs: real, rateAlpha: real)

  datatype Scheduler = Scheduler(
    tuning: Tuning, queue: map<nat, Pending>, order: seq<nat>, demoted: set<nat>)

  /** Two to the power of minus `n`. */
  function HalfPower(n: nat): (r: real)
    ensures r > 0.0
  {
    if n == 0 then 1.0 else HalfPower(n - 1) / 2.0
  }

  /** The smallest positive normal double. */
  const MIN_POSITIVE: real := HalfPower(1022)

  function Rate(s: Scheduler): (r: real)
    ensures r > 0.0
  {
    MaxReal(s.tuning.tokensPerMs, MIN_POSITIVE)
  }

  /** The queue is keyed by id and `order` lists its keys once each. */
  ghost predicate Valid(s: Scheduler) {
    && Distinct(s.order)
    && (forall id :: id in s.order <==> id in s.queue)
    && (forall id | id in s.queue :: s.queue[id].id == id)
    && (forall id | id in s.demoted :: id in s.queue)
  }

  function Enqueue(s: Scheduler, p: Pending): Scheduler {
    s.(queue := s.queue[p.id := p], order := if p.id in s.queue then s.order else s.order + [p.id])
  }

  function Without(ids: seq<nat>, id: nat): seq<nat> {
    if ids == [] then []
    else (if ids[0] == id then [] else [ids[0]]) + Without(ids[1..], id)
  }

  function Remove(s: Scheduler, id: nat): Scheduler {
    s.(queue := s.queue - {id}, order := Without(s.order, id), demoted := s.demoted - {id})
  }

  function RemoveAll(s: Scheduler, ids: seq<nat>): Scheduler
    decreases |ids|
  {
    if ids == [] then s else RemoveAll(Remove(s, ids[0]), ids[1..])
  }

  // ------------------------------------------------------------------- plan

  /** The queue as the ordering policy sees it. */
  function JobsOf(s: Scheduler, ids: seq<nat>): seq<Job> {
    if ids == [] then []
    else if ids[0] !in s.queue then JobsOf(s, ids[1..])
    else
      var p := s.queue[ids[0]];
      [Job(p.id, p.arrival, p.deadline, p.Remaining() as real / Rate(s))] + JobsOf(s, ids[1..])
  }

  function OrderingOf(s: Scheduler, now: real): JobOrdering {
    Ordering(JobsOf(s, s.order), now, s.tuning.policy)
  }

  /** A deadline that may be absent. */
  datatype Deadline = Never | At(ms: real) {
    predicate Allows(t: real) { Never? || t <= ms }
    function Tighten(t: real): Deadline { if Never? || t < ms then At(t) else this }
  }

  /** A batch being assembled, with the earliest deadline among its members that still count. */
  datatype Draft = Draft(chunks: seq<Chunk>, total: nat, limited: bool, binding: Deadline)

  /** When a batch of `total` tokens started at `now` is expected to finish. */
  function Finish(s: Scheduler, now: real, total: nat): real {
    now + total as real / Rate(s)
  }

  /** Offers one request to a draft within budget. The result is the next draft, or `None` when the
      pass stops. `second` marks the pass over given-up work. */
  function Offer(s: Scheduler, now: real, second: bool, id: nat, d: Draft): Option<Draft> {
    if id !in s.queue then Some(d)
    else
      var p := s.queue[id];
      var want := MinNat(p.Remaining(), SatSub(s.tuning.chunkTokens, d.total));
      if want == 0 then Some(d)
      else
        var candidate := if second then d.binding else d.binding.Tighten(p.deadline);
        if d.chunks != [] && !candidate.Allows(Finish(s, now, d.total + want)) then
          if second then None else Some(d.(limited := true))
        else Some(Draft(d.chunks + [Chunk(id, p.done, want, want == p.Remaining())],
                        d.total + want, d.limited, candidate))
  }

  predicate Full(s: Scheduler, d: Draft) {
    |d.chunks| >= s.tuning.maxSeqs || SatSub(s.tuning.chunkTokens, d.total) == 0
  }

  /** Offers the requests `ids` to the draft, in order. */
  function Fill(s: Scheduler, now: real, second: bool, ids: seq<nat>, d: Draft): Draft
    decreases |ids|
  {
    if ids == [] || Full(s, d) then d
    else
      match Offer(s, now, second, ids[0], d)
      case None => d.(limited := true)
      case Some(next) => Fill(s, now, second, ids[1..], next)
  }

  const EMPTY_DRAFT := Draft([], 0, false, Never)

  function FirstPass(s: Scheduler, now: real): Draft {
    Fill(s, now, false, OrderingOf(s, now).onTime, EMPTY_DRAFT)
  }

  function Secondary(s: Scheduler, now: real): seq<nat> {
    if s.tuning.demoteHopeless then OrderingOf(s, now).demoted else []
  }

  function PlanBatch(s: Scheduler, now: real): Batch {
    if s.queue == map[] then EMPTY_BATCH
    else
      var d := Fill(s, now, true, Secondary(s, now), FirstPass(s, now));
      Batch(d.chunks, d.total, d.total as real / Rate(s), d.limited)
  }

  function AfterPlan(s: Scheduler, now: real): Scheduler {
    if s.queue == map[] then s
    else s.(demoted := set id | id in Secondary(s, now))
  }

  // --------------------------------------------------------------- complete

  function Advance(p: Pending, tokens: nat): Pending {
    p.(done := MinNat(p.done + tokens, p.compute))
  }

  /** The queue after the chunks have been computed. */
  function Advanced(queue: map<nat, Pending>, chunks: seq<Chunk>): map<nat, Pending> {
    if chunks == [] then queue
    else
      var q := Advanced(queue, chunks[..|chunks| - 1]);
      var c := chunks[|chunks| - 1];
      if c.id in q then q[c.id := Advance(q[c.id], c.tokens)] else q
  }

  /** The requests that the chunks finish, in chunk order. */
  function Finished(queue: map<nat, Pending>, chunks: seq<Chunk>): seq<nat> {
    if chunks == [] then []
    else
      var f := Finished(queue, chunks[..|chunks| - 1]);
      var q := Advanced(queue, chunks);
      var c := chunks[|chunks| - 1];
      if c.id in q && q[c.id].Remaining() == 0 then f + [c.id] else f
  }

  function Clamp01(a: real): real { MaxReal(0.0, MinReal(a, 1.0)) }

  /** The moving average of the observed rate. */
  function NewRate(t: Tuning, total: nat, elapsed: real): real {
    if elapsed > 0.0 && total > 0 then
      var a := Clamp01(t.rateAlpha);
      (1.0 - a) * t.tokensPerMs + a * (total as real / elapsed)
    else t.tokensPerMs
  }

  function AfterComplete(s: Scheduler, b: Batch, elapsed: real): Scheduler {
    RemoveAll(
      s.(tuning := s.tuning.(tokensPerMs := NewRate(s.tuning, b.total, elapsed)),
         queue := Advanced(s.queue, b.chunks)),
      Finished(s.queue, b.chunks))
  }
}

/** The scheduler object. */
module Prefill {
  import opened Common
  import opened Policy
  import opened PrefillState

  class PrefillScheduler {
    var tuning: Tuning
    var queue: map<nat, Pending>
    var order: seq<nat>
    var demoted: set<nat>

    function State(): Scheduler
      reads this
    {
      Scheduler(tuning, queue, order, demoted)
    }

    constructor (t: Tuning)
      ensures State() == Scheduler(t, map[], [], {})
      ensures Valid(State())
    {
      tuning, queue, order, demoted := t, map[], [], {};
    }

    method Enqueue(p: Pending)
      modifies this
      ensures State() == PrefillState.Enqueue(old(State()), p)
    {
      if p.id !in queue {
        order := order + [p.id];
      }
      queue := queue[p.id := p];
    }

    method Remove(id: nat) returns (p: Option<Pending>)
      modifies this
      ensures State() == PrefillState.Remove(old(State()), id)
      ensures p == if id in old(queue) then Some(old(queue)[id]) else None
    {
      var kept: seq<nat> := [];
      for i := 0 to |order|
        invariant kept + Without(order[i..], id) == Without(order, id)
      {
        assert order[i..][1..] == order[i + 1..];
        if order[i] != id {
          kept := kept + [order[i]];
        }
      }
      assert order[|order|..] == [] && kept == Without(order, id);
      order := kept;
      demoted := demoted - {id};
      p := if id in queue then Some(queue[id]) else None;
      queue := queue - {id};
    }

    method Complete(batch: Batch, elapsed: real) returns (finished: seq<nat>)
      modifies this
      ensures State() == AfterComplete(old(State()), batch, elapsed)
      ensures finished == Finished(old(queue), batch.chunks)
    {
      if elapsed > 0.0 && batch.total > 0 {
        var observed := batch.total as real / elapsed;
        var a := Clamp01(tuning.rateAlpha);
        tuning := tuning.(tokensPerMs := (1.0 - a) * tuning.tokensPerMs + a * observed);
      }
      finished := [];
      var cs := batch.chunks;
      for i := 0 to |cs|
        invariant order == old(order) && demoted == old(demoted)
        invariant tuning == old(tuning).(tokensPerMs := NewRate(old(tuning), batch.total, elapsed))
        invariant queue == Advanced(old(queue), cs[..i])
        invariant finished == Finished(old(queue), cs[..i])
      {
        assert cs[..i + 1][..i] == cs[..i];
        var c := cs[i];
        if c.id in queue {
          queue := queue[c.id := Advance(queue[c.id], c.tokens)];
          if queue[c.id].Remaining() == 0 {
            finished := finished + [c.id];
          }
        }
      }
      assert cs[..|cs|] == cs;
      ghost var s := State();
      for i := 0 to |finished|
        invariant RemoveAll(State(), finished[i..]) == RemoveAll(s, finished)
      {
        assert finished[i..][1..] == finished[i + 1..];
        var _ := Remove(finished[i]);
      }
      assert finished[|finished|..] == [];
    }

    method Jobs() returns (jobs: seq<Job>)
      ensures jobs == JobsOf(State(), order)
    {
      jobs := [];
      for i := 0 to |order|
        invariant jobs + JobsOf(State(), order[i..]) == JobsOf(State(), order)
      {
        assert order[i..][1..] == order[i + 1..];
        if order[i] in queue {
          var p := queue[order[i]];
          jobs := jobs + [Job(p.id, p.arrival, p.deadline, p.Remaining() as real / Rate(State()))];
        }
      }
      assert order[|order|..] == [];
    }

    /** One pass over `ids`, adding every request that leaves the batch deadline feasible. */
    method Pass(now: real, second: bool, ids: seq<nat>, d0: Draft) returns (d: Draft)
      ensures d == Fill(State(), now, second, ids, d0)
    {
      var rate := Rate(State());
      d := d0;
      for i := 0 to |ids|
        invariant Fill(State(), now, second, ids[i..], d) == Fill(State(), now, second, ids, d0)
      {
        assert ids[i..][1..] == ids[i + 1..];
        var budgetLeft := SatSub(tuning.chunkTokens, d.total);
        if |d.chunks| >= tuning.maxSeqs || budgetLeft == 0 {
          return;
        }
        if ids[i] in queue {
          var p := queue[ids[i]];
          var want := MinNat(p.Remaining(), budgetLeft);
          if want != 0 {
            var candidate := if second then d.binding else d.binding.Tighten(p.deadline);
            var total := d.total + want;
            var finish := now + total as real / rate;
            if d.chunks != [] && !candidate.Allows(finish) {
              d := d.(limited := true);
              if second {
                return;
              }
            } else {
              var c := Chunk(ids[i], p.done, want, want == p.Remaining());
              d := Draft(d.chunks + [c], total, d.limited, candidate);
            }
          }
        }
      }
      assert ids[|ids|..] == [];
    }

    method Plan(now: real) returns (batch: Batch)
      modifies this
      ensures batch == PlanBatch(old(State()), now)
      ensures State() == AfterPlan(old(State()), now)
    {
      if queue == map[] {
        return EMPTY_BATCH;
      }
      var rate := Rate(State());
      var jobs := Jobs();
      var ordering := OrderJobs(jobs, now, tuning.policy);
      var secondary := if tuning.demoteHopeless then ordering.demoted else [];
      var d := Pass(now, false, ordering.onTime, EMPTY_DRAFT);
      d := Pass(now, true, secondary, d);
      demoted := set id | id in secondary;
      batch := Batch(d.chunks, d.total, d.total as real / rate, d.limited);
    }
  }
}
