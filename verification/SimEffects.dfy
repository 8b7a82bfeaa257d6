/** What each event sets in motion: what becomes due, and when; who is served next; and where requests go. */
module SimEffects {
  import opened Common
  import opened Cost
  import opened RunningSeqs
  import opened ItlControl
  import opened DecodeState
  import opened PrefillState
  import PrefillLaws
  import opened SimState
  import opened SimInvariant
  import opened SimPrefill
  import opened SimTransfer
  import opened SimDecode
  import opened SimHandlers
  import opened SimRuns
  import opened SimProgress
  import opened SimTimes

  // -------------------------------------------------------------- what is due

  /** A batch of worker `w` that starts at `now` ends when its curve says. */
  ghost predicate BatchDue(c: Config, t: Sim, w: nat, now: real, at: real)
    requires c.prefillCurve.Valid()
  {
    && w < |t.prefill| && t.prefill[w].batch.Some?
    && var (b, started) := t.prefill[w].batch.value;
      started == now && at == now + c.prefillCurve.BatchMs(b.total, |b.chunks|)
  }

  /** Every event that is pending in `t` and was not in `was` is one of these. */
  ghost predicate OnlyBatches(c: Config, was: set<Scheduled>, t: Sim, w: nat, now: real)
    requires c.prefillCurve.Valid()
  {
    forall x | x in t.heap :: x in was || (x.event == PrefillDone(w) && BatchDue(c, t, w, now, x.at))
  }

  ghost predicate OnlyLandings(was: set<Scheduled>, t: Sim, at: real) {
    forall x | x in t.heap :: x in was || (x.event.KvArrived? && x.at == at)
  }

  ghost predicate OnlyReleases(was: set<Scheduled>, s: Sim, t: Sim, at: real) {
    forall x | x in t.heap :: x in was || Releases(s, t, x, at)
  }

  /** The client of a request that just left arrives at `at`. */
  ghost predicate Releases(s: Sim, t: Sim, x: Scheduled, at: real) {
    && x.event.Arrival? && x.at == at
    && exists id :: id in LeftLive(s, t) && s.reqs[id].client == x.event.client
  }

  lemma StartDue(c: Config, s: Sim, w: nat)
    requires w < |s.prefill| && c.prefillCurve.Valid()
    ensures OnlyBatches(c, s.heap, StartPrefill(c, s, w), w, s.now)
  {
  }

  lemma {:induction false} DrainDue(c: Config, s: Sim, at: real)
    ensures OnlyLandings(s.heap, Drain(c, s, at), at)
    decreases |s.xferQueue|
  {
    if s.xferBusy < Buffers(c) && s.xferQueue != [] {
      DrainDue(c, StartTransfer(s, at), at);
    }
  }

  lemma RetireDue(s: Sim, w: nat, q: RunningSeq, at: real)
    requires w < |s.decode| && q.id in s.reqs
    ensures OnlyReleases(s.heap, s, Retire(s, w, q, at), at)
  {
    var t := Retire(s, w, q, at);
    assert q.id in LeftLive(s, t);
  }

  lemma ReleasesTwice(a: Sim, b: Sim, d: Sim, at: real)
    requires OnlyReleases(a.heap, a, b, at) && OnlyReleases(b.heap, b, d, at)
    requires (forall id | id in b.reqs :: id in a.reqs && b.reqs[id] == a.reqs[id])
    requires (forall id | id in d.reqs :: id in b.reqs)
    ensures OnlyReleases(a.heap, a, d, at)
  {
    forall x | x in d.heap ensures x in a.heap || Releases(a, d, x, at) {
      if x !in a.heap {
        if x in b.heap {
          var id :| id in LeftLive(a, b) && a.reqs[id].client == x.event.client;
          assert id in LeftLive(a, d);
        } else {
          var id :| id in LeftLive(b, d) && b.reqs[id].client == x.event.client;
          assert id in LeftLive(a, d);
        }
      }
    }
  }

  lemma {:induction false} RetireAllDue(s: Sim, w: nat, qs: seq<RunningSeq>, at: real)
    requires w < |s.decode| && (forall q | q in qs :: q.id in s.reqs)
    requires forall i, j | 0 <= i < j < |qs| :: qs[i].id != qs[j].id
    ensures OnlyReleases(s.heap, s, RetireAll(s, w, qs, at), at)
    ensures forall id | id in RetireAll(s, w, qs, at).reqs ::
      id in s.reqs && RetireAll(s, w, qs, at).reqs[id] == s.reqs[id]
    decreases |qs|
  {
    if qs != [] {
      var t := Retire(s, w, qs[0], at);
      assert qs[0] in qs;
      RetireDue(s, w, qs[0], at);
      assert t.reqs == s.reqs - {qs[0].id};
      forall q | q in qs[1..] ensures q.id in t.reqs {
        assert q in qs && q.id != qs[0].id;
      }
      RetireAllDue(t, w, qs[1..], at);
      ReleasesTwice(s, t, RetireAll(t, w, qs[1..], at), at);
    }
  }

  /** What an event at `now` may make due: an arrival or the end of a batch, the batch it starts and, in the
      latter case, transfers; a landing, transfers and at once the step of its worker; a step, the next one
      or a retry, and when it ends the arrival of every client whose request it ended. */
  ghost predicate Due(c: Config, s: Sim, now: real, e: Event, t: Sim, x: Scheduled)
    requires c.prefillCurve.Valid()
  {
    match x.event
    case PrefillDone(w) =>
      (e.Arrival? || e == PrefillDone(w)) && BatchDue(c, t, w, now, x.at)
    case KvArrived(_, _) => (e.PrefillDone? || e.KvArrived?) && x.at == now + c.transferMs
    case DecodeStep(w) =>
      || (e.KvArrived? && e.worker == w && x.at == now)
      || (e == DecodeStep(w) && StepsAgain(c, s, now, t, w, x.at))
    case Arrival(k) => e.DecodeStep? && Releases(s, t, x, StepEnd(c, s, now, t, e.worker))
  }

  /** The next step is due when this one ends; a retry, when a step of one sequence would. */
  ghost predicate StepsAgain(c: Config, s: Sim, now: real, t: Sim, w: nat, at: real) {
    && w < |t.decode|
    && var n := |t.decode[w].sched.running| + |LeftLive(s, t)|;
      at == now + c.decodeCurve.StepMs(if n == 0 then 1 else n)
  }

  ghost predicate AllDue(c: Config, s: Sim, was: set<Scheduled>, now: real, e: Event, t: Sim)
    requires c.prefillCurve.Valid()
  {
    forall x | x in t.heap :: x in was || Due(c, s, now, e, t, x)
  }

  lemma ArrivalDue(c: Config, s: Sim, k: nat, r: Route, t: Sim)
    requires r.prefill < |s.prefill| && c.prefillCurve.Valid() && t == OnArrival(c, s, k, r)
    ensures AllDue(c, s, s.heap, s.now, Arrival(k), t)
  {
    var i := Issue(c, s, k, r);
    ArrivalIs(c, s, k, r, i);
    StartDue(c, i, r.prefill);
  }

  lemma PrefillDoneDue(c: Config, s: Sim, w: nat, t: Sim)
    requires w < |s.prefill| && c.prefillCurve.Valid() && t == OnPrefillDone(c, s, w)
    requires s.prefill[w].batch.Some?
    ensures AllDue(c, s, s.heap, s.now, PrefillDone(w), t)
  {
    var b, ids, at := TakeBatch(s, w), FinishedBy(s.prefill[w]), s.now + c.transferMs;
    var h := HandOffAll(b, ids);
    var u := Drain(c, h, at);
    PrefillDoneIs(c, s, w, b, ids, h, at, u);
    HandOffAllOnly(b, ids);
    DrainDue(c, h, at);
    DrainTimes(c, h, at);
    HandOffAllQueues(b, ids);
    StartDue(c, u, w);
  }

  lemma KvArrivedDue(c: Config, s: Sim, id: nat, w: nat, t: Sim)
    requires w < |s.decode| && c.prefillCurve.Valid() && t == OnKvArrived(c, s, id, w)
    ensures AllDue(c, s, s.heap, s.now, KvArrived(id, w), t)
  {
    var l, at := Lift(s), s.now + c.transferMs;
    var d := Drain(c, l, at);
    var u := Queue(d, id, w);
    KvArrivedIs(c, s, id, w, l, at, d, u);
    DrainDue(c, l, at);
    DrainTimes(c, l, at);
  }

  /** What a step of worker `w` at `now` makes due. */
  ghost predicate StepMakesDue(c: Config, s: Sim, now: real, t: Sim, w: nat, was: set<Scheduled>) {
    forall x | x in t.heap ::
      || x in was
      || (x.event == DecodeStep(w) && StepsAgain(c, s, now, t, w, x.at))
      || Releases(s, t, x, StepEnd(c, s, now, t, w))
  }

  /** What leaves the batch leaves the books. */
  lemma StepLeaves(s: Sim, w: nat, done: seq<RunningSeq>, at: real, b: Sim, u: Sim, left: nat, n: nat)
    requires w < |b.decode| && b.reqs == s.reqs && u == RetireAll(b, w, done, at)
    requires (forall q | q in done :: q.id in s.reqs)
    requires left == |b.decode[w].sched.running| && left + |IdsOf(done)| == n
    ensures w < |u.decode| && |u.decode[w].sched.running| + |LeftLive(s, u)| == n
  {
    RetireAllScores(b, w, done, at);
    RetireAllReqs(b, w, done, at);
    LeftAreDone(s.reqs, u.reqs, done);
    assert LeftLive(s, u) == IdsOf(done);
  }

  lemma BatchIs(s: Sim, w: nat, at: real, steer: real, keys: seq<nat>, b: Sim)
    requires w < |s.decode| && b == StepBatch(s, w, at, steer, keys)
    ensures w < |b.decode| && b.reqs == s.reqs && b.heap == s.heap
    ensures b.decode[w].sched == Synthetic(s.decode[w].sched, at, steer, keys).0
  {
  }

  lemma LeftAreDone(was: map<nat, Request>, now: map<nat, Request>, done: seq<RunningSeq>)
    requires now == was - IdsOf(done) && forall q | q in done :: q.id in was
    ensures (set id | id in was && id !in now) == IdsOf(done)
  {
  }

  lemma NextIsDue(c: Config, s: Sim, b: Sim, u: Sim, w: nat, at: real, n: nat, t: Sim)
    requires OnlyReleases(s.heap, b, u, at) && b.reqs == s.reqs
    requires w < |u.decode| && |u.decode[w].sched.running| + |LeftLive(s, u)| == n > 0
    requires at == s.now + c.decodeCurve.StepMs(n) && t == Push(u, at, DecodeStep(w))
    ensures StepMakesDue(c, s, s.now, t, w, s.heap)
  {
    assert LeftLive(s, t) == LeftLive(s, u) == LeftLive(b, u);
    forall x | x in u.heap && x !in s.heap ensures Releases(s, t, x, at) {
      assert Releases(b, u, x, at);
    }
  }

  lemma {:induction false} RetireAllReqs(s: Sim, w: nat, qs: seq<RunningSeq>, at: real)
    requires w < |s.decode|
    ensures RetireAll(s, w, qs, at).reqs == s.reqs - IdsOf(qs)
    decreases |qs|
  {
    if qs == [] {
      assert IdsOf(qs) == {};
    } else {
      var t := Retire(s, w, qs[0], at);
      assert t.reqs == s.reqs - {qs[0].id};
      RetireAllReqs(t, w, qs[1..], at);
      IdsOfFirst(qs);
    }
  }

  lemma RestDue(c: Config, s: Sim, w: nat, t: Sim, at: real)
    requires w < |s.decode| && s.decode[w].sched.running == map[]
    requires at == s.now + c.decodeCurve.StepMs(1) && t == RestOrRetry(s, w, at)
    ensures StepMakesDue(c, s, s.now, t, w, s.heap)
  {
    assert LeftLive(s, t) == {};
  }

  lemma AfterDue(
      c: Config, a: Sim, loc: Places, who: Clients, w: nat, steer: real, keys: seq<nat>, t: Sim)
    requires Base(c, a, loc, who, {DecodeStep(w)}) && w < c.decodeWorkers && w < |a.decode|
    requires Lists(keys, a.decode[w].sched.running) && t == AfterAdmission(c, a, w, steer, keys)
    ensures StepMakesDue(c, a, a.now, t, w, a.heap)
  {
    var at, d := NextStep(c, a, w), a.decode[w];
    NextStepIs(c, a, w, |d.sched.running|);
    if |d.sched.running| == 0 {
      EmptyIs(c, a, w, steer, keys, at);
      RestDue(c, a, w, t, at);
    } else {
      RunningIs(c, a, w, steer, keys, at);
      RunningKnown(c, a, loc, who, {DecodeStep(w)}, w, d);
      var (sched, done) := Synthetic(d.sched, at, steer, keys);
      var b := StepBatch(a, w, at, steer, keys);
      var u := RetireAll(b, w, done, at);
      StepToIs(a, w, d, at, steer, keys, done, b, u);
      BatchIs(a, w, at, steer, keys, b);
      BatchParts(d.sched, at, steer, keys, sched, done);
      StepLeaves(a, w, done, at, b, u, |sched.running|, |d.sched.running|);
      RetireAllDue(b, w, done, at);
      NextIsDue(c, a, b, u, w, at, |d.sched.running|, t);
    }
  }

  lemma DecodeStepDue(
      c: Config, s: Sim, loc: Places, who: Clients, w: nat, steer: real, keys: seq<nat>, t: Sim)
    requires c.prefillCurve.Valid() && Base(c, s, loc, who, {DecodeStep(w)}) && w < |s.decode|
    requires Lists(keys, AdmitAll(c, s, w).decode[w].sched.running)
    requires t == OnDecodeStep(c, s, w, steer, keys)
    ensures AllDue(c, s, s.heap, s.now, DecodeStep(w), t)
  {
    StepKnown(c, s, loc, who, w);
    var a := AdmitAll(c, s, w);
    AdmitAllOnly(c, s, w);
    AdmitAllBooks(c, s, w);
    var mid := AdmitAllKeeps(c, s, loc, who, {DecodeStep(w)}, w);
    AfterDue(c, a, mid, who, w, steer, keys, t);
    DueSame(c, s, a, t, w);
  }

  lemma DueSame(c: Config, s: Sim, a: Sim, t: Sim, w: nat)
    requires c.prefillCurve.Valid() && a.reqs == s.reqs && a.now == s.now && a.heap == s.heap
    requires StepMakesDue(c, a, a.now, t, w, a.heap)
    ensures AllDue(c, s, s.heap, s.now, DecodeStep(w), t)
  {
    assert LeftLive(a, t) == LeftLive(s, t);
    forall x | x in t.heap ensures x in s.heap || Due(c, s, s.now, DecodeStep(w), t, x) {
      if Releases(a, t, x, StepEnd(c, a, a.now, t, w)) {
        assert Releases(s, t, x, StepEnd(c, s, s.now, t, w));
      }
    }
  }

  lemma HandleDue(c: Config, s: Sim, loc: Places, who: Clients, e: Event, x: Choice, t: Sim)
    requires ConfigOk(c) && Base(c, s, loc, who, {e})
    requires ChoiceOk(c, s, e, x) && InRange(s, e, x) && t == Handle(c, s, e, x)
    ensures AllDue(c, s, s.heap, s.now, e, t)
  {
    match e
    case Arrival(k) => ArrivalDue(c, s, k, x.route, t);
    case PrefillDone(w) =>
      BatchKnown(c, s, loc, who, w);
      PrefillDoneDue(c, s, w, t);
    case KvArrived(id, w) => KvArrivedDue(c, s, id, w, t);
    case DecodeStep(w) => DecodeStepDue(c, s, loc, who, w, x.steer, x.keys, t);
  }

  /** Whatever fires, everything that it makes due is due exactly when its cost says. */
  lemma FireMakesDue(c: Config, s: Sim, loc: Places, who: Clients, e: Scheduled, x: Choice, t: Sim)
    requires ConfigOk(c) && Settled(c, s, loc, who) && Fires(c, s, e, x, t)
    ensures AllDue(c, s, s.heap - {e}, e.at, e.event, t)
  {
    var p := Popped(s, e);
    PopKeeps(c, s, loc, who, e);
    HandleDue(c, p, loc, who, e.event, x, t);
    PoppedDue(c, s, e, t);
  }

  lemma PoppedDue(c: Config, s: Sim, e: Scheduled, t: Sim)
    requires c.prefillCurve.Valid() && AllDue(c, Popped(s, e), s.heap - {e}, e.at, e.event, t)
    ensures AllDue(c, s, s.heap - {e}, e.at, e.event, t)
  {
    var p := Popped(s, e);
    assert LeftLive(p, t) == LeftLive(s, t);
    forall x | x in t.heap ensures x in s.heap - {e} || Due(c, s, e.at, e.event, t, x) {
      if x !in s.heap - {e} {
        assert Due(c, p, e.at, e.event, t, x);
        if x.event.Arrival? {
          assert Releases(p, t, x, StepEnd(c, p, e.at, t, e.event.worker));
        }
      }
    }
  }

  // ------------------------------------------------------------ who comes next

  /** How many transfers can start: as many as there are free buffers and queued requests. */
  function Startable(c: Config, s: Sim): nat {
    MinNat(|s.xferQueue|, SatSub(if c.xferConcurrency == 0 then 1 else c.xferConcurrency, s.xferBusy))
  }

  /** The first `k` queued transfers have started, to land at `at`. */
  ghost predicate Started(s: Sim, t: Sim, k: nat, at: real) {
    && k <= |s.xferQueue| && t.xferQueue == s.xferQueue[k..] && t.xferBusy == s.xferBusy + k
    && (forall x | x in s.heap :: x in t.heap)
    && forall i: nat | i < k :: LandsAt(t, s.xferQueue[i].0, s.xferQueue[i].1, at)
  }

  ghost predicate LandsAt(s: Sim, id: nat, w: nat, at: real) {
    exists n :: Scheduled(at, n, KvArrived(id, w)) in s.heap
  }

  lemma LandsStill(s: Sim, t: Sim, id: nat, w: nat, at: real)
    requires LandsAt(s, id, w, at) && forall x | x in s.heap :: x in t.heap
    ensures LandsAt(t, id, w, at)
  {
    var n :| Scheduled(at, n, KvArrived(id, w)) in s.heap;
    assert Scheduled(at, n, KvArrived(id, w)) in t.heap;
  }

  lemma StartedNext(s: Sim, m: Sim, t: Sim, k: nat, at: real)
    requires s.xferQueue != [] && m == StartTransfer(s, at) && Started(m, t, k, at)
    ensures Started(s, t, k + 1, at)
  {
    assert s.xferQueue[1..][k..] == s.xferQueue[k + 1..];
    assert Scheduled(at, s.pushed + 1, KvArrived(s.xferQueue[0].0, s.xferQueue[0].1)) in m.heap;
    LandsStill(m, t, s.xferQueue[0].0, s.xferQueue[0].1, at);
    forall i: nat | i < k + 1 ensures LandsAt(t, s.xferQueue[i].0, s.xferQueue[i].1, at) {
      if i > 0 {
        assert s.xferQueue[i] == m.xferQueue[i - 1];
      }
    }
  }

  /** Transfers start in the order in which they were queued, as many as can. */
  lemma {:induction false} TransfersStartInOrder(c: Config, s: Sim, at: real)
    ensures Started(s, Drain(c, s, at), Startable(c, s), at)
    decreases |s.xferQueue|
  {
    if s.xferBusy < Buffers(c) && s.xferQueue != [] {
      var m := StartTransfer(s, at);
      TransfersStartInOrder(c, m, at);
      StartedNext(s, m, Drain(c, m, at), Startable(c, m), at);
    } else {
      assert s.xferQueue[0..] == s.xferQueue;
    }
  }

  /** The finished requests of a batch queue for transfer in the order of its chunks, behind what waits, each
      bound for the worker that the router named. */
  lemma {:induction false} HandedOverInOrder(s: Sim, ids: seq<nat>)
    requires forall id | id in ids :: id in s.reqs
    ensures var q := HandOffAll(s, ids).xferQueue;
      && |q| == |s.xferQueue| + |ids| && q[..|s.xferQueue|] == s.xferQueue
      && forall i | 0 <= i < |ids| :: q[|s.xferQueue| + i] == (ids[i], s.reqs[ids[i]].decodeWorker)
    decreases |ids|
  {
    if ids != [] {
      var m := HandOff(s, ids[0]);
      assert ids[0] in ids && m.xferQueue == s.xferQueue + [(ids[0], s.reqs[ids[0]].decodeWorker)];
      HandedOverInOrder(m, ids[1..]);
      HandedNext(s.xferQueue, m.xferQueue, HandOffAll(m, ids[1..]).xferQueue);
      forall i | 0 <= i < |ids|
        ensures HandOffAll(m, ids[1..]).xferQueue[|s.xferQueue| + i]
          == (ids[i], s.reqs[ids[i]].decodeWorker)
      {
        if i > 0 {
          assert ids[i] == ids[1..][i - 1] && m.reqs[ids[i]].decodeWorker == s.reqs[ids[i]].decodeWorker;
        }
      }
    }
  }

  lemma HandedNext(a: seq<(nat, nat)>, b: seq<(nat, nat)>, q: seq<(nat, nat)>)
    requires |b| == |a| + 1 <= |q| && b[..|a|] == a && q[..|b|] == b
    ensures q[..|a|] == a && q[|a|] == b[|a|]
  {
    assert forall i | 0 <= i < |b| :: q[i] == q[..|b|][i];
    assert forall i | 0 <= i < |a| :: b[i] == b[..|a|][i];
  }

  /** A sequence as it enters decode at `now`: its first token out at `first`, its clock running from now. */
  ghost predicate EnteredAs(q: RunningSeq, id: nat, r: Request, now: real) {
    && q.id == id && q.requested == r.osl && q.emitted == 1
    && (r.first.Some? ==> q.first == r.first.value) && q.last == now && q.admitted == now
  }

  /** The first `k` of the pending queue have entered the batch, and nothing else changed in it. */
  ghost predicate Entered(s: Sim, t: Sim, w: nat, k: nat) {
    && w < |s.decode| == |t.decode| && k <= |s.decode[w].pending|
    && t.decode[w].pending == s.decode[w].pending[k..]
    && (forall i: nat | i < k :: EnteredAt(s, t, w, i))
    && (forall id :: id in t.decode[w].sched.running <==>
          id in s.decode[w].sched.running || id in s.decode[w].pending[..k])
    && (forall id | id in s.decode[w].sched.running && id !in s.decode[w].pending[..k] ::
          t.decode[w].sched.running[id] == s.decode[w].sched.running[id])
  }

  ghost predicate EnteredAt(s: Sim, t: Sim, w: nat, i: nat)
    requires w < |s.decode| == |t.decode| && i < |s.decode[w].pending|
  {
    var id := s.decode[w].pending[i];
    && id in t.decode[w].sched.running && id in s.reqs
    && EnteredAs(t.decode[w].sched.running[id], id, s.reqs[id], s.now)
  }

  lemma HeadEnters(c: Config, s: Sim, w: nat, d: DecodeWorker, id: nat, m: Sim)
    requires w < |s.decode| && d == s.decode[w] && d.pending != [] && id == d.pending[0] && id in s.reqs
    requires Admission(c, s.reqs[id], d).Admit? && m == AdmitHead(c, s, w)
    ensures |m.decode| == |s.decode| && m.reqs == s.reqs && m.now == s.now
    ensures m.decode[w].pending == d.pending[1..]
    ensures exists q ::
      EnteredAs(q, id, s.reqs[id], s.now) && m.decode[w].sched.running == d.sched.running[id := q]
  {
    var q := Entering(id, s.reqs[id], s.now).(admitted := s.now, last := s.now);
    assert EnteredAs(q, id, s.reqs[id], s.now);
    assert m.decode[w].sched.running == d.sched.running[id := q];
  }

  lemma EnteredNext(
      s: Sim, w: nat, p: seq<nat>, id: nat, q: RunningSeq, m: Sim, t: Sim, k: nat)
    requires w < |s.decode| == |m.decode| && p == s.decode[w].pending && p != [] && id == p[0]
    requires Distinct(p) && id in s.reqs && m.reqs == s.reqs && m.now == s.now
    requires m.decode[w].pending == p[1..] && EnteredAs(q, id, s.reqs[id], s.now)
    requires m.decode[w].sched.running == s.decode[w].sched.running[id := q] && Entered(m, t, w, k)
    ensures Entered(s, t, w, k + 1)
  {
    assert p[1..][k..] == p[k + 1..] && p[..k + 1] == [id] + p[1..][..k];
    assert id !in p[1..][..k];
    forall i: nat | i < k + 1 ensures EnteredAt(s, t, w, i) {
      if i > 0 {
        assert EnteredAt(m, t, w, i - 1) && p[i] == p[1..][i - 1];
      }
    }
  }

  /** Requests enter the batch in the order in which they landed, each with its first token's time. */
  lemma {:induction false} AdmittedInOrder(c: Config, s: Sim, w: nat) returns (k: nat)
    requires w < |s.decode| && Distinct(s.decode[w].pending)
    requires forall id | id in s.decode[w].pending :: id in s.reqs
    ensures Entered(s, AdmitAll(c, s, w), w, k)
    decreases |s.decode[w].pending|
  {
    var d := s.decode[w];
    if d.pending == [] {
      k := 0;
    } else if Admission(c, s.reqs[d.pending[0]], d).Admit? {
      var m, id := AdmitHead(c, s, w), d.pending[0];
      HeadEnters(c, s, w, d, id, m);
      var q :| EnteredAs(q, id, s.reqs[id], s.now) && m.decode[w].sched.running == d.sched.running[id := q];
      k := AdmittedInOrder(c, m, w);
      EnteredNext(s, w, d.pending, id, q, m, AdmitAll(c, m, w), k);
      k := k + 1;
    } else {
      k := 0;
      assert d.pending[0..] == d.pending && d.pending[..0] == [];
    }
  }

  /** The decisions of one pass are counted: one admission for each request that leaves the queue, and one
      refusal if any stay; and only for want of tolerance does a refusal touch the controller. */
  lemma {:induction false} PassIsCounted(c: Config, s: Sim, w: nat)
    requires w < |s.decode| && forall id | id in s.decode[w].pending :: id in s.reqs
    ensures var was, left := s.decode[w], AdmitAll(c, s, w).decode[w];
      && left.sched.admitted + |left.pending| == was.sched.admitted + |was.pending|
      && left.sched.refused == was.sched.refused + (if left.pending == [] then 0 else 1)
      && (left.sched.controller == was.sched.controller
          || (left.pending != [] && left.sched.controller == BackOff(was.sched.controller)))
    decreases |s.decode[w].pending|
  {
    var d := s.decode[w];
    if d.pending != [] {
      assert d.pending[0] in d.pending;
      if Admission(c, s.reqs[d.pending[0]], d).Admit? {
        var m := AdmitHead(c, s, w);
        HeadIsCounted(c, s, w, d, m);
        forall id | id in m.decode[w].pending ensures id in m.reqs {
          assert id in d.pending;
        }
        PassIsCounted(c, m, w);
      }
    }
  }

  lemma HeadIsCounted(c: Config, s: Sim, w: nat, d: DecodeWorker, m: Sim)
    requires w < |s.decode| && d == s.decode[w] && d.pending != [] && d.pending[0] in s.reqs
    requires Admission(c, s.reqs[d.pending[0]], d).Admit? && m == AdmitHead(c, s, w)
    ensures m.reqs == s.reqs && w < |m.decode| && m.decode[w].pending == d.pending[1..]
    ensures m.decode[w].sched.admitted == d.sched.admitted + 1
    ensures m.decode[w].sched.refused == d.sched.refused
    ensures m.decode[w].sched.controller == d.sched.controller
  {
  }

  /** A landed request joins its worker's queue at the end. */
  lemma LandedJoinsLast(c: Config, s: Sim, id: nat, w: nat)
    requires w < |s.decode|
    ensures var t := OnKvArrived(c, s, id, w);
      && |t.decode| == |s.decode| && t.decode[w].pending == s.decode[w].pending + [id]
      && t.decode[w].sched == s.decode[w].sched && t.decode[w].stepping
      && forall v: nat | v < |s.decode| && v != w :: t.decode[v] == s.decode[v]
  {
    var l, at := Lift(s), s.now + c.transferMs;
    var d := Drain(c, l, at);
    KvArrivedIs(c, s, id, w, l, at, d, Queue(d, id, w));
    DrainBooks(c, l, at);
  }

  /** An arrival at `now` records the client's request and queues what the cache does not cover of it, due a
      first token within the budget, at the worker that the router named. */
  lemma ArrivalQueues(c: Config, s: Sim, k: nat, r: Route)
    requires r.prefill < |s.prefill| && c.prefillCurve.Valid()
    ensures var t, id := OnArrival(c, s, k, r), s.nextId;
      && t.nextId == id + 1 && t.issued == s.issued + 1
      && t.reqs == s.reqs[id := Request(k, s.now, c.isl, c.osl, r.decode, None)]
      && |t.prefill| == |s.prefill|
      && t.prefill[r.prefill].sched.queue
         == s.prefill[r.prefill].sched.queue[
           id := Pending(id, s.now, s.now + c.ttft, if r.hit < c.isl then c.isl - r.hit else 0, 0)]
      && forall v: nat | v < |s.prefill| && v != r.prefill :: t.prefill[v] == s.prefill[v]
  {
    var i := Issue(c, s, k, r);
    ArrivalIs(c, s, k, r, i);
    StartTimes(c, i, r.prefill);
  }

  /** Every client is released once, at time zero. */
  lemma {:induction false} ReleasedAtZero(c: Config, n: nat)
    ensures Released(c, n).pushed == n
    ensures forall x :: x in Released(c, n).heap <==>
      exists k: nat :: k < n && x == Scheduled(0.0, k + 1, Arrival(k))
  {
    if n > 0 {
      ReleasedAtZero(c, n - 1);
    }
  }
}
