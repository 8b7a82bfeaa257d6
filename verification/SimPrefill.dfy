/** Prefill and transfer steps keep everything in its place. */
module SimPrefill {
  import opened Common
  import opened Cost
  import opened PrefillState
  import PrefillLaws
  import PrefillRuns
  import opened SimState
  import opened SimInvariant

  // ---------------------------------------------------------------- starting

  /** A plan that an idle worker may launch. */
  ghost predicate Launchable(p: PrefillWorker, w: nat, loc: Places, now: real, q: Scheduler, b: Batch) {
    && PrefillWorkerOk(p.(sched := q), w, loc)
    && PrefillWorkerOk(p.(sched := q, busy := true, batch := Some((b, now))), w, loc)
    && (b.chunks == [] ==> q.queue == map[])
    && (b.chunks != [] ==> b.total > 0)
  }

  lemma PlanKeeps(p: PrefillWorker, w: nat, loc: Places, now: real)
    requires PrefillWorkerOk(p, w, loc) && !p.busy
    ensures Launchable(p, w, loc, now, AfterPlan(p.sched, now), PlanBatch(p.sched, now))
  {
    var b := PlanBatch(p.sched, now);
    PrefillLaws.AfterPlanValid(p.sched, now);
    PrefillLaws.PlanIsFeasible(p.sched, now);
    PrefillLaws.PlanEmptyIff(p.sched, now);
    PrefillLaws.AllOffered(p.sched, now);
    if b.chunks != [] {
      PrefillRuns.SomeTokens(p.sched.queue, b.chunks);
    }
  }

  /** The worker is running, or has nothing to run. */
  ghost predicate PrefillServed(p: PrefillWorker) { p.busy || p.sched.queue == map[] }

  ghost predicate OnlyPrefill(s: Sim, t: Sim, w: nat) {
    && t.now == s.now && t.decode == s.decode
    && t.xferBusy == s.xferBusy && t.xferQueue == s.xferQueue
    && |t.prefill| == |s.prefill|
    && forall v: nat | v < |s.prefill| && v != w :: t.prefill[v] == s.prefill[v]
  }

  lemma StartMatched(
      c: Config, s: Sim, loc: Places, who: Clients, w: nat, p: PrefillWorker, evs: set<Event>)
    requires Matched(c, s, loc, who, evs) && w < |s.prefill| && PrefillWorkerOk(p, w, loc)
    ensures Matched(c, WithPrefill(s, w, p), loc, who,
                    if p.busy then evs + {PrefillDone(w)} else evs - {PrefillDone(w)})
  {
    var evs' := if p.busy then evs + {PrefillDone(w)} else evs - {PrefillDone(w)};
    ClientsFrame(c, s.reqs, who, evs, s.reqs, evs');
    PrefillUpdate(c, s.prefill, loc, evs, w, p, loc, evs');
    TransfersFrame(c, s.xferBusy, s.xferQueue, loc, evs, loc, evs');
    DecodeFrame(c, s.decode, loc, evs, loc, evs');
  }

  /** A plan that came back empty leaves the worker resting. */
  lemma RestKeeps(c: Config, s: Sim, loc: Places, who: Clients, w: nat, q: PrefillWorker)
    requires Base(c, s, loc, who, {}) && w < c.prefillWorkers && !s.prefill[w].busy
    requires PrefillWorkerOk(q, w, loc) && !q.busy
    ensures Base(c, WithPrefill(s, w, q), loc, who, {})
  {
    var evs := Events(s.heap) + {};
    assert PrefillDone(w) !in evs;
    NotThere(evs, PrefillDone(w));
    StartMatched(c, s, loc, who, w, q, evs);
  }

  lemma RunKeeps(c: Config, s: Sim, loc: Places, who: Clients, w: nat, q: PrefillWorker, at: real)
    requires Base(c, s, loc, who, {}) && w < c.prefillWorkers && !s.prefill[w].busy
    requires PrefillWorkerOk(q, w, loc) && q.busy && at >= s.now
    ensures var t := Push(WithPrefill(s, w, q), at, PrefillDone(w));
      && Base(c, t, loc, who, {}) && NothingBefore(t.heap, s.heap, at)
      && OnlyPrefill(s, t, w) && PrefillServed(t.prefill[w])
  {
    var evs, e := Events(s.heap) + {}, PrefillDone(w);
    assert e !in evs;
    StartMatched(c, s, loc, who, w, q, evs);
    PlusNone(Events(s.heap));
    PushBase(c, WithPrefill(s, w, q), loc, who, {}, at, e, evs + {e});
  }

  lemma LaunchStep(c: Config, s: Sim, w: nat, q: Scheduler, b: Batch, at: real, p: PrefillWorker)
    requires c.prefillCurve.Valid() && w < |s.prefill| && b.chunks != []
    requires at == s.now + c.prefillCurve.BatchMs(b.total, |b.chunks|)
    requires p == s.prefill[w].(sched := q, busy := true, batch := Some((b, s.now)))
    ensures Launch(c, s, w, q, b) == Push(WithPrefill(s, w, p), at, PrefillDone(w))
  {
  }

  lemma LaunchAt(
      c: Config, s: Sim, loc: Places, who: Clients, w: nat, q: Scheduler, b: Batch, at: real)
    requires c.prefillCurve.Valid() && Base(c, s, loc, who, {})
    requires w < c.prefillWorkers && !s.prefill[w].busy
    requires Launchable(s.prefill[w], w, loc, s.now, q, b) && b.chunks != []
    requires at == s.now + c.prefillCurve.BatchMs(b.total, |b.chunks|) && at >= s.now
    ensures var t := Launch(c, s, w, q, b);
      && Base(c, t, loc, who, {}) && NothingBefore(t.heap, s.heap, at)
      && OnlyPrefill(s, t, w) && PrefillServed(t.prefill[w])
  {
    var p := s.prefill[w].(sched := q, busy := true, batch := Some((b, s.now)));
    RunKeeps(c, s, loc, who, w, p, at);
    LaunchStep(c, s, w, q, b, at, p);
  }

  lemma BatchIsLater(c: Config, now: real, tokens: nat, n: nat, at: real)
    requires ConfigOk(c) && tokens > 0 && at == now + c.prefillCurve.BatchMs(tokens, n)
    ensures at >= now + Delay(c) > now
  {
    DelayIsLeast(c);
  }

  lemma LaunchRests(
      c: Config, s: Sim, loc: Places, who: Clients, w: nat, q: Scheduler, b: Batch, at: real)
    requires c.prefillCurve.Valid() && Base(c, s, loc, who, {})
    requires w < c.prefillWorkers && !s.prefill[w].busy
    requires Launchable(s.prefill[w], w, loc, s.now, q, b) && b.chunks == []
    ensures var t := Launch(c, s, w, q, b);
      && Base(c, t, loc, who, {}) && NothingBefore(t.heap, s.heap, at)
      && OnlyPrefill(s, t, w) && PrefillServed(t.prefill[w])
  {
    RestKeeps(c, s, loc, who, w, s.prefill[w].(sched := q));
  }

  lemma LaunchKeeps(c: Config, s: Sim, loc: Places, who: Clients, w: nat, q: Scheduler, b: Batch)
    requires ConfigOk(c) && Base(c, s, loc, who, {}) && w < c.prefillWorkers && !s.prefill[w].busy
    requires Launchable(s.prefill[w], w, loc, s.now, q, b)
    ensures var t := Launch(c, s, w, q, b);
      && Base(c, t, loc, who, {})
      && OnlyPrefill(s, t, w) && PrefillServed(t.prefill[w])
      && NothingBefore(t.heap, s.heap, s.now + Delay(c))
  {
    if b.chunks == [] {
      LaunchRests(c, s, loc, who, w, q, b, s.now + Delay(c));
    } else {
      var at := s.now + c.prefillCurve.BatchMs(b.total, |b.chunks|);
      BatchIsLater(c, s.now, b.total, |b.chunks|, at);
      LaunchAt(c, s, loc, who, w, q, b, at);
      NothingSooner(Launch(c, s, w, q, b).heap, s.heap, at, s.now + Delay(c));
    }
  }

  lemma StartKeeps(c: Config, s: Sim, loc: Places, who: Clients, w: nat)
    requires ConfigOk(c) && Base(c, s, loc, who, {}) && w < c.prefillWorkers
    ensures var t := StartPrefill(c, s, w);
      && Base(c, t, loc, who, {})
      && OnlyPrefill(s, t, w) && PrefillServed(t.prefill[w])
      && NothingBefore(t.heap, s.heap, s.now + Delay(c))
  {
    var p := s.prefill[w];
    if !p.busy {
      assert PrefillWorkerOk(p, w, loc);
      PlanKeeps(p, w, loc, s.now);
      LaunchKeeps(c, s, loc, who, w, AfterPlan(p.sched, s.now), PlanBatch(p.sched, s.now));
    }
  }

  // -------------------------------------------------------------- completing

  function Taken(loc: Places, ids: seq<nat>): Places {
    map id | id in loc :: if id in ids then InHand else loc[id]
  }

  /** A worker that completes its batch gives up exactly the requests that the batch finishes. */
  lemma CompleteKeeps(p: PrefillWorker, w: nat, loc: Places, b: Batch, elapsed: real, fin: seq<nat>)
    returns (q: PrefillWorker)
    requires PrefillWorkerOk(p, w, loc) && p.busy && b == p.batch.value.0 && fin == FinishedBy(p)
    ensures q == PrefillWorker(AfterComplete(p.sched, b, elapsed), false, None)
    ensures PrefillWorkerOk(q, w, Taken(loc, fin))
    ensures Distinct(fin) && forall id | id in fin :: Located(loc, id, AtPrefill(w))
  {
    var t := AfterComplete(p.sched, b, elapsed);
    q := PrefillWorker(t, false, None);
    PrefillLaws.CompleteMoves(p.sched, b, elapsed);
    PrefillLaws.FinishedOnce(p.sched.queue, b.chunks);
    forall id ensures id in t.queue <==> Located(Taken(loc, fin), id, AtPrefill(w)) {
      assert Located(loc, id, AtPrefill(w)) <==> id in p.sched.queue;
    }
    forall id | id in t.queue ensures t.queue[id].Remaining() > 0 {
      if x :| x in b.chunks && x.id == id {
        assert PrefillLaws.ChunkFits(p.sched.queue, x);
      }
    }
  }

  lemma TakenMoves(loc: Places, ids: seq<nat>, w: nat)
    requires forall id | id in ids :: Located(loc, id, AtPrefill(w))
    ensures var to := Taken(loc, ids);
      && (forall v | v != w :: SamePrefill(to, loc, v)) && SameTransfers(to, loc)
      && (forall v :: SameDecode(to, loc, v))
  {
  }

  lemma TakeMatched(
      c: Config, s: Sim, loc: Places, who: Clients, w: nat, evs: set<Event>, q: PrefillWorker,
      ids: seq<nat>)
    requires Matched(c, s, loc, who, evs) && w < |s.prefill| && !q.busy
    requires forall id | id in ids :: Located(loc, id, AtPrefill(w))
    requires PrefillWorkerOk(q, w, Taken(loc, ids))
    ensures Matched(c, WithPrefill(s, w, q), Taken(loc, ids), who, evs - {PrefillDone(w)})
  {
    var loc', evs' := Taken(loc, ids), evs - {PrefillDone(w)};
    TakenMoves(loc, ids, w);
    ClientsFrame(c, s.reqs, who, evs, s.reqs, evs');
    PrefillUpdate(c, s.prefill, loc, evs, w, q, loc', evs');
    TransfersFrame(c, s.xferBusy, s.xferQueue, loc, evs, loc', evs');
    DecodeFrame(c, s.decode, loc, evs, loc', evs');
  }

  lemma TakenRequests(
      c: Config, reqs: map<nat, Request>, now: real, next: nat, loc: Places, ids: seq<nat>)
    requires RequestsOk(c, reqs, now, next, loc)
    ensures RequestsOk(c, reqs, now, next, Taken(loc, ids))
  {
  }

  lemma TakeIs(s: Sim, w: nat, p: PrefillWorker, b: Batch, started: real, q: PrefillWorker)
    requires w < |s.prefill| && p == s.prefill[w] && p.batch == Some((b, started))
    requires q == PrefillWorker(AfterComplete(p.sched, b, s.now - started), false, None)
    ensures TakeBatch(s, w) == WithPrefill(s, w, q)
  {
  }

  lemma BusyWorker(c: Config, s: Sim, loc: Places, who: Clients, w: nat)
    requires Base(c, s, loc, who, {PrefillDone(w)}) && w < c.prefillWorkers
    ensures w < |s.prefill| && PrefillWorkerOk(s.prefill[w], w, loc) && s.prefill[w].busy
  {
    assert PrefillDone(w) in Events(s.heap) + {PrefillDone(w)};
    assert PrefillWorkerOk(s.prefill[w], w, loc);
  }

  lemma TakeKeeps(c: Config, s: Sim, loc: Places, who: Clients, w: nat, fin: seq<nat>)
    requires Base(c, s, loc, who, {PrefillDone(w)}) && w < c.prefillWorkers
    requires s.prefill[w].batch.Some? && fin == FinishedBy(s.prefill[w])
    ensures var t := TakeBatch(s, w);
      Base(c, t, Taken(loc, fin), who, {}) && OnlyPrefill(s, t, w) && t.heap == s.heap
    ensures Distinct(fin) && (forall id | id in fin :: Located(loc, id, AtPrefill(w)))
  {
    var p := s.prefill[w];
    var (b, started) := p.batch.value;
    BusyWorker(c, s, loc, who, w);
    var q := CompleteKeeps(p, w, loc, b, s.now - started, fin);
    TakeIs(s, w, p, b, started, q);
    TakeMatched(c, s, loc, who, w, Events(s.heap) + {PrefillDone(w)}, q, fin);
    TakenRequests(c, s.reqs, s.now, s.nextId, loc, fin);
    LetGo(s.heap, s.now, s.pushed, PrefillDone(w));
  }
}
