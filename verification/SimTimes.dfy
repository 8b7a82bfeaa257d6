/** What every request experiences, told by the events alone: when it was issued, when its first token was
    out and when its last; and that the simulator's own stamps say the same. */
module SimTimes {
  import opened Common
  import opened Cost
  import opened RunningSeqs
  import opened DecodeState
  import opened PrefillState
  import PrefillLaws
  import opened SimState
  import opened SimInvariant
  import opened SimPrefill
  import opened SimTransfer
  import opened SimDecode
  import opened SimHandlers
  import opened SimRuns
  import opened SimProgress

  /** The times of one request. */
  datatype Life = Life(arrived: real, first: Option<real>, last: Option<real>)

  type Lives = map<nat, Life>

  ghost function Stamped(h: Lives, ids: set<nat>, at: real): Lives {
    map id | id in h :: if id in ids then h[id].(first := Some(at)) else h[id]
  }

  ghost function Ended(h: Lives, ids: set<nat>, at: real): Lives {
    map id | id in h :: if id in ids then h[id].(last := Some(at)) else h[id]
  }

  /** The requests that left the queue of prefill worker `w`. */
  ghost function LeftQueue(s: Sim, t: Sim, w: nat): set<nat> {
    if w < |s.prefill| && w < |t.prefill|
    then set id | id in s.prefill[w].sched.queue && id !in t.prefill[w].sched.queue
    else {}
  }

  /** The requests that are no longer live. */
  ghost function LeftLive(s: Sim, t: Sim): set<nat> { set id | id in s.reqs && id !in t.reqs }

  /** When a step of worker `w` that starts at `at` ends: all that still run and all that left took part. */
  ghost function StepEnd(c: Config, s: Sim, at: real, t: Sim, w: nat): real {
    if w < |t.decode| then at + c.decodeCurve.StepMs(|t.decode[w].sched.running| + |LeftLive(s, t)|) else at
  }

  /** What an event from `s` to `t` adds to the lives: an arrival issues the next request; the end of a batch
      gives their first token to those that leave its queue; a decode step gives their last to those that are
      live no longer. */
  ghost function NoteEvent(c: Config, h: Lives, s: Sim, at: real, e: Event, t: Sim): Lives {
    match e
    case Arrival(_) => h[s.nextId := Life(at, None, None)]
    case PrefillDone(w) => Stamped(h, LeftQueue(s, t, w), at)
    case KvArrived(_, _) => h
    case DecodeStep(w) => Ended(h, LeftLive(s, t), StepEnd(c, s, at, t, w))
  }

  /** Every stamp in the state is the time of the event that made it. */
  ghost predicate Faithful(s: Sim, h: Lives) {
    && (forall id | id in s.reqs ::
          id in h && h[id] == Life(s.reqs[id].arrival, s.reqs[id].first, None))
    && (forall o | o in s.outcomes ::
          o.id in h && h[o.id] == Life(o.arrival, Some(o.firstToken), Some(o.lastToken)))
    && (forall id | id in h :: id < s.nextId)
    && (forall o | o in s.outcomes :: o.id !in s.reqs)
    && Unstamped(s)
  }

  /** What is still queued for prefill has no first token yet. */
  ghost predicate Unstamped(s: Sim) {
    forall w: nat, id | w < |s.prefill| && id in s.prefill[w].sched.queue && id in s.reqs ::
      s.reqs[id].first == None
  }

  /** No prefill queue gains anything. */
  ghost predicate QueuesWithin(s: Sim, t: Sim) {
    && |t.prefill| == |s.prefill|
    && forall w: nat, id | w < |s.prefill| && id in t.prefill[w].sched.queue ::
      id in s.prefill[w].sched.queue
  }

  /** Only stamps, queues and scores matter. */
  lemma FaithfulSame(s: Sim, t: Sim, h: Lives)
    requires Faithful(s, h) && t.reqs == s.reqs && t.outcomes == s.outcomes && t.nextId == s.nextId
    requires QueuesWithin(s, t)
    ensures Faithful(t, h)
  {
  }

  // -------------------------------------------------------------- retirement

  /** The ids of the sequences that left a batch. */
  function IdsOf(qs: seq<RunningSeq>): set<nat> { set q | q in qs :: q.id }

  lemma EndedNone(h: Lives, at: real)
    ensures Ended(h, {}, at) == h
  {
  }

  lemma EndedTwice(h: Lives, a: set<nat>, b: set<nat>, at: real)
    ensures Ended(Ended(h, a, at), b, at) == Ended(h, a + b, at)
  {
  }

  ghost predicate Retirable(s: Sim, q: RunningSeq) { q.id in s.reqs && s.reqs[q.id].first.Some? }

  lemma RetireTimes(s: Sim, w: nat, q: RunningSeq, at: real, h: Lives)
    requires w < |s.decode| && Faithful(s, h) && Retirable(s, q)
    ensures Faithful(Retire(s, w, q, at), Ended(h, {q.id}, at))
    ensures Retire(s, w, q, at).reqs == s.reqs - {q.id}
  {
  }

  lemma IdsOfFirst(qs: seq<RunningSeq>)
    requires qs != []
    ensures IdsOf(qs) == {qs[0].id} + IdsOf(qs[1..])
  {
    assert qs == [qs[0]] + qs[1..];
  }

  lemma {:induction false} RetireAllTimes(s: Sim, w: nat, qs: seq<RunningSeq>, at: real, h: Lives)
    requires w < |s.decode| && Faithful(s, h) && forall q | q in qs :: Retirable(s, q)
    requires forall i, j | 0 <= i < j < |qs| :: qs[i].id != qs[j].id
    ensures var t := RetireAll(s, w, qs, at);
      Faithful(t, Ended(h, IdsOf(qs), at)) && t.reqs == s.reqs - IdsOf(qs)
    decreases |qs|
  {
    if qs == [] {
      EndedNone(h, at);
      assert IdsOf(qs) == {};
    } else {
      var t := Retire(s, w, qs[0], at);
      assert qs[0] in qs;
      RetireTimes(s, w, qs[0], at, h);
      forall q | q in qs[1..] ensures Retirable(t, q) {
        assert q in qs && q.id != qs[0].id;
      }
      RetireAllTimes(t, w, qs[1..], at, Ended(h, {qs[0].id}, at));
      IdsOfFirst(qs);
      EndedTwice(h, {qs[0].id}, IdsOf(qs[1..]), at);
    }
  }

  // ----------------------------------------------------------------- prefill

  function SetOf(ids: seq<nat>): set<nat> { set id | id in ids }

  /** What `ids` are not queued any more. */
  ghost predicate OffQueues(s: Sim, ids: seq<nat>) {
    forall w: nat, id | w < |s.prefill| && id in s.prefill[w].sched.queue :: id !in ids
  }

  lemma HandOffTimes(s: Sim, id: nat, h: Lives)
    requires Faithful(s, h) && id in s.reqs && OffQueues(s, [id])
    ensures Faithful(HandOff(s, id), Stamped(h, {id}, s.now))
  {
    assert id in [id];
  }

  lemma StampedTwice(h: Lives, a: set<nat>, b: set<nat>, at: real)
    ensures Stamped(Stamped(h, a, at), b, at) == Stamped(h, a + b, at) && Stamped(h, {}, at) == h
  {
  }

  lemma {:induction false} HandOffAllTimes(s: Sim, ids: seq<nat>, h: Lives)
    requires Faithful(s, h) && OffQueues(s, ids) && forall id | id in ids :: id in s.reqs
    ensures Faithful(HandOffAll(s, ids), Stamped(h, SetOf(ids), s.now))
    decreases |ids|
  {
    if ids == [] {
      StampedTwice(h, {}, {}, s.now);
      assert SetOf(ids) == {};
    } else {
      assert ids[0] in ids && forall id | id in ids[1..] :: id in ids;
      HandOffTimes(s, ids[0], h);
      HandOffAllTimes(HandOff(s, ids[0]), ids[1..], Stamped(h, {ids[0]}, s.now));
      StampedTwice(h, {ids[0]}, SetOf(ids[1..]), s.now);
      assert SetOf(ids) == {ids[0]} + SetOf(ids[1..]);
    }
  }

  lemma {:induction false} DrainTimes(c: Config, s: Sim, at: real)
    ensures var t := Drain(c, s, at); t.prefill == s.prefill && t.reqs == s.reqs && t.now == s.now
    decreases |s.xferQueue|
  {
    if s.xferBusy < Buffers(c) && s.xferQueue != [] {
      DrainTimes(c, StartTransfer(s, at), at);
    }
  }

  lemma {:induction false} HandOffAllQueues(s: Sim, ids: seq<nat>)
    ensures HandOffAll(s, ids).prefill == s.prefill && HandOffAll(s, ids).now == s.now
    decreases |ids|
  {
    if ids != [] {
      HandOffAllQueues(HandOff(s, ids[0]), ids[1..]);
    }
  }

  /** Planning leaves every queue as it is. */
  ghost predicate SameQueues(s: Sim, t: Sim) {
    && |t.prefill| == |s.prefill|
    && forall w: nat | w < |s.prefill| :: t.prefill[w].sched.queue == s.prefill[w].sched.queue
  }

  lemma StartTimes(c: Config, s: Sim, w: nat)
    requires w < |s.prefill| && c.prefillCurve.Valid()
    ensures var t := StartPrefill(c, s, w); SameQueues(s, t) && t.reqs == s.reqs
  {
  }

  /** What the end of a batch makes of the queue of its worker. */
  lemma BatchLeaves(s: Sim, w: nat, loc: Places, b: Sim, ids: seq<nat>)
    requires w < |s.prefill| && PrefillWorkerOk(s.prefill[w], w, loc) && s.prefill[w].batch.Some?
    requires b == TakeBatch(s, w) && ids == FinishedBy(s.prefill[w])
    ensures QueuesWithin(s, b) && b.reqs == s.reqs && b.now == s.now && |b.prefill| == |s.prefill|
    ensures forall v: nat | v < |s.prefill| && v != w :: b.prefill[v] == s.prefill[v]
    ensures forall id :: id in ids <==>
      id in s.prefill[w].sched.queue && id !in b.prefill[w].sched.queue
  {
    var p := s.prefill[w];
    var (batch, started) := p.batch.value;
    PrefillLaws.CompleteMoves(p.sched, batch, s.now - started);
  }

  lemma LeftAre(s: Sim, w: nat, b: Sim, t: Sim, ids: seq<nat>)
    requires w < |s.prefill| == |b.prefill| && SameQueues(b, t)
    requires forall id :: id in ids <==>
      id in s.prefill[w].sched.queue && id !in b.prefill[w].sched.queue
    ensures LeftQueue(s, t, w) == SetOf(ids)
  {
  }

  /** The finished are queued nowhere. */
  lemma FinishedOff(
      c: Config, s: Sim, loc: Places, evs: set<Event>, w: nat, b: Sim, ids: seq<nat>)
    requires PrefillOk(c, s.prefill, loc, evs) && w < |s.prefill| == |b.prefill|
    requires forall v: nat | v < |s.prefill| && v != w :: b.prefill[v] == s.prefill[v]
    requires forall id :: id in ids <==>
      id in s.prefill[w].sched.queue && id !in b.prefill[w].sched.queue
    ensures OffQueues(b, ids)
    ensures forall id | id in ids :: Located(loc, id, AtPrefill(w))
  {
    assert PrefillWorkerOk(s.prefill[w], w, loc);
    forall v: nat, id | v < |b.prefill| && id in b.prefill[v].sched.queue ensures id !in ids {
      if v != w {
        assert PrefillWorkerOk(s.prefill[v], v, loc);
        assert Located(loc, id, AtPrefill(v));
      }
    }
  }

  lemma PrefillDoneTimes(
      c: Config, s: Sim, loc: Places, who: Clients, w: nat, h: Lives, was: Sim)
    requires ConfigOk(c) && Base(c, s, loc, who, {PrefillDone(w)}) && Faithful(s, h)
    requires was.prefill == s.prefill
    ensures w < |s.prefill|
    ensures Faithful(OnPrefillDone(c, s, w), Stamped(h, LeftQueue(was, OnPrefillDone(c, s, w), w), s.now))
  {
    BatchKnown(c, s, loc, who, w);
    var b, ids, at := TakeBatch(s, w), FinishedBy(s.prefill[w]), s.now + c.transferMs;
    var t := HandOffAll(b, ids);
    var u := Drain(c, t, at);
    PrefillDoneIs(c, s, w, b, ids, t, at, u);
    var evs := Events(s.heap) + {PrefillDone(w)};
    assert PrefillWorkerOk(s.prefill[w], w, loc);
    BatchLeaves(s, w, loc, b, ids);
    FinishedOff(c, s, loc, evs, w, b, ids);
    FinishedLive(c, s, loc, w, ids);
    FaithfulSame(s, b, h);
    HandOffAllTimes(b, ids, h);
    EndFrames(c, b, w, ids, t, at, u, StartPrefill(c, u, w));
    BatchEndTimes(was, w, b, ids, t, StartPrefill(c, u, w), h, b.now);
  }

  lemma FinishedLive(c: Config, s: Sim, loc: Places, w: nat, ids: seq<nat>)
    requires RequestsOk(c, s.reqs, s.now, s.nextId, loc)
    requires forall id | id in ids :: Located(loc, id, AtPrefill(w))
    ensures forall id | id in ids :: id in s.reqs
  {
    forall id | id in ids ensures id in s.reqs {
      LiveKnown(c, s.reqs, s.now, s.nextId, loc, id, AtPrefill(w));
    }
  }

  /** From the hand-over on, neither stamps nor queues change. */
  lemma EndFrames(c: Config, b: Sim, w: nat, ids: seq<nat>, t: Sim, at: real, u: Sim, v: Sim)
    requires c.prefillCurve.Valid() && w < |b.prefill|
    requires t == HandOffAll(b, ids) && u == Drain(c, t, at) && w < |u.prefill|
    requires v == StartPrefill(c, u, w)
    ensures t.prefill == b.prefill && SameQueues(b, v)
    ensures v.reqs == t.reqs && v.outcomes == t.outcomes && v.nextId == t.nextId
  {
    HandOffAllQueues(b, ids);
    DrainTimes(c, t, at);
    DrainBooks(c, t, at);
    StartTimes(c, u, w);
    StartPrefillBooks(c, u, w);
  }

  lemma BatchEndTimes(was: Sim, w: nat, b: Sim, ids: seq<nat>, t: Sim, v: Sim, h: Lives, at: real)
    requires w < |was.prefill| == |b.prefill| && t.prefill == b.prefill && SameQueues(b, v)
    requires v.reqs == t.reqs && v.outcomes == t.outcomes && v.nextId == t.nextId
    requires Faithful(t, Stamped(h, SetOf(ids), at))
    requires forall id :: id in ids <==>
      id in was.prefill[w].sched.queue && id !in b.prefill[w].sched.queue
    ensures Faithful(v, Stamped(h, LeftQueue(was, v, w), at))
  {
    LeftAre(was, w, b, v, ids);
    FaithfulSame(t, v, Stamped(h, SetOf(ids), at));
  }

  // ------------------------------------------------------- arrivals and landings

  lemma IssueTimes(c: Config, s: Sim, k: nat, r: Route, t: Sim, h: Lives)
    requires Faithful(s, h) && r.prefill < |s.prefill| && t == Issue(c, s, k, r)
    ensures Faithful(t, h[s.nextId := Life(s.now, None, None)])
  {
  }

  lemma ArrivalTimes(c: Config, s: Sim, k: nat, r: Route, h: Lives)
    requires Faithful(s, h) && r.prefill < |s.prefill| && c.prefillCurve.Valid()
    ensures Faithful(OnArrival(c, s, k, r), h[s.nextId := Life(s.now, None, None)])
  {
    var t := Issue(c, s, k, r);
    var u := StartPrefill(c, t, r.prefill);
    IssueTimes(c, s, k, r, t, h);
    ArrivalIs(c, s, k, r, t);
    StartTimes(c, t, r.prefill);
    StartPrefillBooks(c, t, r.prefill);
    FaithfulSame(t, u, h[s.nextId := Life(s.now, None, None)]);
  }

  lemma KvArrivedTimes(c: Config, s: Sim, id: nat, w: nat, h: Lives)
    requires Faithful(s, h) && w < |s.decode|
    ensures Faithful(OnKvArrived(c, s, id, w), h)
  {
    var l, at := Lift(s), s.now + c.transferMs;
    var t := Drain(c, l, at);
    var u := Queue(t, id, w);
    DrainTimes(c, l, at);
    DrainBooks(c, l, at);
    KvArrivedIs(c, s, id, w, l, at, t, u);
    WakeOnly(u, w);
    FaithfulSame(s, Wake(u, w), h);
  }

  // ------------------------------------------------------------- decode steps

  /** What leaves a step, and what stays, make up the batch. */
  lemma BatchParts(
      s: DecodeSched, at: real, steer: real, keys: seq<nat>, t: DecodeSched, done: seq<RunningSeq>)
    requires Lists(keys, s.running) && s.tokensPerStep >= 1
    requires forall x | x in s.running :: s.running[x].id == x
    requires (t, done) == Synthetic(s, at, steer, keys)
    ensures forall q | q in done :: q.id in s.running
    ensures forall i, j | 0 <= i < j < |done| :: done[i].id != done[j].id
    ensures |t.running| + |IdsOf(done)| == |s.running|
  {
    var fin := FinishingOf(s.running, keys);
    SyntheticStep(s, at, steer, keys);
    FinishingSplit(s, at, steer, keys, fin, done);
    DoneIds(fin, done);
    PartsAdd(s.running, t.running, fin);
  }

  lemma DoneIds(fin: seq<nat>, done: seq<RunningSeq>)
    requires |done| == |fin| && Distinct(fin) && forall i | 0 <= i < |fin| :: done[i].id == fin[i]
    ensures IdsOf(done) == SetOf(fin)
    ensures forall i, j | 0 <= i < j < |done| :: done[i].id != done[j].id
  {
    forall x ensures x in IdsOf(done) <==> x in fin {
      if x in fin {
        var i :| 0 <= i < |fin| && fin[i] == x;
        assert done[i] in done;
      }
    }
  }

  lemma PartsAdd(all: map<nat, RunningSeq>, left: map<nat, RunningSeq>, fin: seq<nat>)
    requires forall id :: id in left <==> id in all && id !in fin
    requires forall id | id in fin :: id in all
    ensures |left| + |SetOf(fin)| == |all|
  {
    assert all.Keys == left.Keys + SetOf(fin);
    assert |all.Keys| == |all| && |left.Keys| == |left|;
  }

  lemma RunningRetirable(
      c: Config, s: Sim, loc: Places, who: Clients, hand: set<Event>, w: nat, d: DecodeWorker)
    requires Base(c, s, loc, who, hand) && w < c.decodeWorkers && d == s.decode[w]
    ensures forall id | id in d.sched.running :: id in s.reqs && s.reqs[id].first.Some?
  {
    WorkerIsOk(c, s, loc, who, hand, w, d);
    forall id | id in d.sched.running ensures id in s.reqs && s.reqs[id].first.Some? {
      assert Located(loc, id, AtRunning(w));
      LiveKnown(c, s.reqs, s.now, s.nextId, loc, id, AtRunning(w));
    }
  }

  lemma StepTimes(
      c: Config, s: Sim, w: nat, d: DecodeWorker, at: real, steer: real, keys: seq<nat>, h: Lives,
      t: DecodeSched, done: seq<RunningSeq>, b: Sim, u: Sim)
    requires w < |s.decode| && d == s.decode[w] && d.sched.tokensPerStep >= 1 && Faithful(s, h)
    requires Lists(keys, d.sched.running) && (t, done) == Synthetic(d.sched, at, steer, keys)
    requires forall x | x in d.sched.running ::
      d.sched.running[x].id == x && x in s.reqs && s.reqs[x].first.Some?
    requires b == StepBatch(s, w, at, steer, keys) && w < |b.decode| && u == RetireAll(b, w, done, at)
    ensures Faithful(u, Ended(h, LeftLive(s, u), at))
    ensures w < |u.decode| && |u.decode[w].sched.running| + |LeftLive(s, u)| == |d.sched.running|
  {
    BatchParts(d.sched, at, steer, keys, t, done);
    StepBatchIs(s, w, at, steer, keys, t, b);
    RetiredTimes(s, w, b, done, at, h, u);
  }

  lemma StepBatchIs(s: Sim, w: nat, at: real, steer: real, keys: seq<nat>, t: DecodeSched, b: Sim)
    requires w < |s.decode| && t == Synthetic(s.decode[w].sched, at, steer, keys).0
    requires b == StepBatch(s, w, at, steer, keys)
    ensures w < |b.decode| && b.decode[w].sched == t && b.reqs == s.reqs && b.outcomes == s.outcomes
    ensures b.nextId == s.nextId && b.prefill == s.prefill
  {
  }

  lemma RetiredTimes(s: Sim, w: nat, b: Sim, done: seq<RunningSeq>, at: real, h: Lives, u: Sim)
    requires Faithful(s, h) && b.reqs == s.reqs && b.outcomes == s.outcomes
    requires b.nextId == s.nextId && b.prefill == s.prefill
    requires w < |b.decode| && u == RetireAll(b, w, done, at)
    requires forall q | q in done :: Retirable(s, q)
    requires forall i, j | 0 <= i < j < |done| :: done[i].id != done[j].id
    ensures Faithful(u, Ended(h, IdsOf(done), at)) && LeftLive(s, u) == IdsOf(done)
    ensures w < |u.decode| && u.decode[w].sched == b.decode[w].sched
  {
    FaithfulSame(s, b, h);
    RetireAllTimes(b, w, done, at, h);
    RetireAllScores(b, w, done, at);
  }

  lemma PushTimes(s: Sim, was: Sim, h: Lives, at: real, e: Event)
    requires Faithful(s, h)
    ensures Faithful(Push(s, at, e), h) && LeftLive(was, Push(s, at, e)) == LeftLive(was, s)
    ensures Scheduled(at, s.pushed + 1, e) in Push(s, at, e).heap
  {
  }

  /** The next step of worker `w` is due at `at`. */
  ghost predicate StepDue(s: Sim, w: nat, at: real) {
    exists n :: Scheduled(at, n, DecodeStep(w)) in s.heap
  }

  lemma StepToTimes(
      c: Config, s: Sim, loc: Places, who: Clients, w: nat, at: real, steer: real, keys: seq<nat>,
      h: Lives, d: DecodeWorker)
    requires Base(c, s, loc, who, {DecodeStep(w)}) && w < c.decodeWorkers && d == s.decode[w]
    requires Faithful(s, h) && Lists(keys, d.sched.running)
    ensures var t := StepTo(s, w, at, steer, keys);
      && Faithful(t, Ended(h, LeftLive(s, t), at)) && StepDue(t, w, at)
      && w < |t.decode| && |t.decode[w].sched.running| + |LeftLive(s, t)| == |d.sched.running|
  {
    var (t, done) := Synthetic(d.sched, at, steer, keys);
    var b := StepBatch(s, w, at, steer, keys);
    var u := RetireAll(b, w, done, at);
    RunningRetirable(c, s, loc, who, {DecodeStep(w)}, w, d);
    RunningKnown(c, s, loc, who, {DecodeStep(w)}, w, d);
    StepTimes(c, s, w, d, at, steer, keys, h, t, done, b, u);
    StepToIs(s, w, d, at, steer, keys, done, b, u);
    PushTimes(u, s, Ended(h, LeftLive(s, u), at), at, DecodeStep(w));
  }

  lemma RestTimes(c: Config, s: Sim, w: nat, at: real, h: Lives)
    requires w < |s.decode| && Faithful(s, h)
    ensures var t := RestOrRetry(s, w, at); Faithful(t, h) && LeftLive(s, t) == {}
  {
    FaithfulSame(s, RestOrRetry(s, w, at), h);
  }

  lemma AdmitTimes(c: Config, s: Sim, w: nat, h: Lives)
    requires w < |s.decode| && Faithful(s, h)
    ensures var a := AdmitAll(c, s, w);
      Faithful(a, h) && a.now == s.now && a.reqs == s.reqs && w < |a.decode|
  {
    AdmitAllOnly(c, s, w);
    AdmitAllBooks(c, s, w);
    FaithfulSame(s, AdmitAll(c, s, w), h);
  }

  /** What a step that starts at `now` adds to the lives. */
  ghost predicate StepTold(c: Config, h: Lives, s: Sim, now: real, t: Sim, w: nat) {
    && Faithful(t, Ended(h, LeftLive(s, t), StepEnd(c, s, now, t, w)))
    && (LeftLive(s, t) != {} ==> StepDue(t, w, StepEnd(c, s, now, t, w)))
  }

  lemma EmptyTold(c: Config, h: Lives, s: Sim, now: real, t: Sim, w: nat)
    requires Faithful(t, h) && LeftLive(s, t) == {}
    ensures StepTold(c, h, s, now, t, w)
  {
    EndedNone(h, StepEnd(c, s, now, t, w));
  }

  lemma RunningTold(c: Config, h: Lives, s: Sim, t: Sim, w: nat, at: real, n: nat)
    requires w < |t.decode| && |t.decode[w].sched.running| + |LeftLive(s, t)| == n
    requires at == s.now + c.decodeCurve.StepMs(n)
    requires Faithful(t, Ended(h, LeftLive(s, t), at)) && StepDue(t, w, at)
    ensures StepTold(c, h, s, s.now, t, w)
  {
  }

  lemma AfterTimes(
      c: Config, a: Sim, loc: Places, who: Clients, w: nat, steer: real, keys: seq<nat>, h: Lives,
      t: Sim)
    requires Base(c, a, loc, who, {DecodeStep(w)}) && w < c.decodeWorkers
    requires w < |a.decode| && Lists(keys, a.decode[w].sched.running) && Faithful(a, h)
    requires t == AfterAdmission(c, a, w, steer, keys)
    ensures StepTold(c, h, a, a.now, t, w)
  {
    var at, n := NextStep(c, a, w), |a.decode[w].sched.running|;
    NextStepIs(c, a, w, n);
    if n == 0 {
      EmptyIs(c, a, w, steer, keys, at);
      RestTimes(c, a, w, at, h);
      EmptyTold(c, h, a, a.now, t, w);
    } else {
      RunningIs(c, a, w, steer, keys, at);
      StepToTimes(c, a, loc, who, w, at, steer, keys, h, a.decode[w]);
      RunningTold(c, h, a, t, w, at, n);
    }
  }

  lemma ToldSame(c: Config, h: Lives, s: Sim, a: Sim, t: Sim, w: nat)
    requires StepTold(c, h, a, a.now, t, w) && a.reqs == s.reqs && a.now == s.now
    ensures StepTold(c, h, s, s.now, t, w)
  {
    assert LeftLive(s, t) == LeftLive(a, t);
  }

  lemma DecodeStepTimes(
      c: Config, s: Sim, loc: Places, who: Clients, w: nat, steer: real, keys: seq<nat>, h: Lives,
      t: Sim)
    requires Base(c, s, loc, who, {DecodeStep(w)}) && w < |s.decode| && Faithful(s, h)
    requires Lists(keys, AdmitAll(c, s, w).decode[w].sched.running)
    requires t == OnDecodeStep(c, s, w, steer, keys)
    ensures StepTold(c, h, s, s.now, t, w)
  {
    StepKnown(c, s, loc, who, w);
    var a := AdmitAll(c, s, w);
    AdmitTimes(c, s, w, h);
    var mid := AdmitAllKeeps(c, s, loc, who, {DecodeStep(w)}, w);
    AfterTimes(c, a, mid, who, w, steer, keys, h, t);
    ToldSame(c, h, s, a, t, w);
  }

  // ------------------------------------------------------------------ events

  lemma PoppedTimes(s: Sim, e: Scheduled, h: Lives)
    requires Faithful(s, h)
    ensures Faithful(Popped(s, e), h)
  {
    FaithfulSame(s, Popped(s, e), h);
  }

  lemma PoppedNotes(c: Config, s: Sim, e: Scheduled, t: Sim, h: Lives)
    ensures NoteEvent(c, h, Popped(s, e), e.at, e.event, t) == NoteEvent(c, h, s, e.at, e.event, t)
    ensures LeftLive(Popped(s, e), t) == LeftLive(s, t)
    ensures forall w :: StepEnd(c, Popped(s, e), e.at, t, w) == StepEnd(c, s, e.at, t, w)
  {
    assert LeftLive(Popped(s, e), t) == LeftLive(s, t);
  }

  /** What leaves at a step leaves when the next one is due. */
  ghost predicate EndsWhenDue(c: Config, s: Sim, at: real, e: Event, t: Sim) {
    e.DecodeStep? && LeftLive(s, t) != {} ==> StepDue(t, e.worker, StepEnd(c, s, at, t, e.worker))
  }

  lemma HandleTimes(
      c: Config, s: Sim, loc: Places, who: Clients, e: Event, x: Choice, t: Sim, h: Lives)
    requires ConfigOk(c) && Base(c, s, loc, who, {e}) && AllSettled(loc) && Faithful(s, h)
    requires ChoiceOk(c, s, e, x) && InRange(s, e, x) && t == Handle(c, s, e, x)
    ensures Faithful(t, NoteEvent(c, h, s, s.now, e, t)) && EndsWhenDue(c, s, s.now, e, t)
  {
    match e
    case Arrival(k) => ArrivalTimes(c, s, k, x.route, h);
    case PrefillDone(w) => PrefillDoneTimes(c, s, loc, who, w, h, s);
    case KvArrived(id, w) => KvArrivedTimes(c, s, id, w, h);
    case DecodeStep(w) => DecodeStepTimes(c, s, loc, who, w, x.steer, x.keys, h, t);
  }

  /** Whatever fires, the stamps stay those that the events alone tell; and a decode step that ends requests
      ends when the next one is due. */
  lemma FireTimes(
      c: Config, s: Sim, loc: Places, who: Clients, e: Scheduled, x: Choice, t: Sim, h: Lives)
    requires ConfigOk(c) && Settled(c, s, loc, who) && Fires(c, s, e, x, t) && Faithful(s, h)
    ensures Faithful(t, NoteEvent(c, h, s, e.at, e.event, t))
    ensures EndsWhenDue(c, s, e.at, e.event, t)
  {
    PoppedTimes(s, e, h);
    PopKeeps(c, s, loc, who, e);
    HandleTimes(c, Popped(s, e), loc, who, e.event, x, t, h);
    PoppedNotes(c, s, e, t, h);
  }

  /** The first-token stamp of a live request changes exactly when the end of its batch takes it off its
      prefill queue, and then to the time of that event; its arrival never changes. */
  lemma FirstTokenIff(
      c: Config, s: Sim, loc: Places, who: Clients, e: Scheduled, x: Choice, t: Sim, h: Lives, id: nat)
    requires ConfigOk(c) && Settled(c, s, loc, who) && Fires(c, s, e, x, t) && Faithful(s, h)
    requires id in s.reqs && id in t.reqs
    ensures t.reqs[id].arrival == s.reqs[id].arrival
    ensures t.reqs[id].first != s.reqs[id].first <==>
      e.event.PrefillDone? && id in LeftQueue(s, t, e.event.worker)
    ensures t.reqs[id].first != s.reqs[id].first ==>
      s.reqs[id].first == None && t.reqs[id].first == Some(e.at)
  {
    FireTimes(c, s, loc, who, e, x, t, h);
    StampIs(c, s, e, t, h, id);
  }

  lemma StampIs(c: Config, s: Sim, e: Scheduled, t: Sim, h: Lives, id: nat)
    requires Faithful(s, h) && Faithful(t, NoteEvent(c, h, s, e.at, e.event, t))
    requires id in s.reqs && id in t.reqs
    ensures t.reqs[id].arrival == s.reqs[id].arrival
    ensures if e.event.PrefillDone? && id in LeftQueue(s, t, e.event.worker)
            then s.reqs[id].first == None && t.reqs[id].first == Some(e.at)
            else t.reqs[id].first == s.reqs[id].first
  {
    assert id < s.nextId;
  }

  // -------------------------------------------------------------------- runs

  /** The lives that the events of a run tell. */
  ghost function LivesOf(c: Config, states: seq<Sim>, events: seq<Scheduled>): Lives
    requires |states| == |events| + 1
    decreases |events|
  {
    if events == [] then map[]
    else
      var n := |events| - 1;
      NoteEvent(c, LivesOf(c, states[..n + 1], events[..n]), states[n], events[n].at, events[n].event,
                states[n + 1])
  }

  lemma LivesLast(c: Config, states: seq<Sim>, events: seq<Scheduled>, n: nat, h: Lives)
    requires |states| == |events| + 1 && n == |events| > 0
    requires h == LivesOf(c, states[..n], events[..n - 1])
    ensures LivesOf(c, states, events)
      == NoteEvent(c, h, states[n - 1], events[n - 1].at, events[n - 1].event, states[n])
  {
  }

  lemma StartTold(c: Config)
    ensures Faithful(SimState.Start(c), map[])
  {
    ReleasedTold(c, c.clients);
  }

  lemma {:induction false} ReleasedTold(c: Config, n: nat)
    ensures Faithful(Released(c, n), map[])
  {
    if n > 0 {
      ReleasedTold(c, n - 1);
      FaithfulSame(Released(c, n - 1), Released(c, n), map[]);
    }
  }

  /** Over every run: every live request carries the time of its arrival and, once the batch that finished
      it has ended, the time of that; and every scored one these two and the end of the step that was its
      last. */
  lemma {:induction false} StampsAreTrue(c: Config, states: seq<Sim>, events: seq<Scheduled>, s: Sim)
    requires ConfigOk(c) && IsTrace(c, states, events) && s == states[|events|]
    ensures Faithful(s, LivesOf(c, states, events))
    decreases |events|
  {
    var n := |events|;
    if n == 0 {
      StartTold(c);
    } else {
      var r, e := states[n - 1], events[n - 1];
      TraceFront(c, states, events, n - 1);
      var h := LivesOf(c, states[..n], events[..n - 1]);
      StampsAreTrue(c, states[..n], events[..n - 1], r);
      LivesLast(c, states, events, n, h);
      NextTold(c, states, events, n, r, e, s, h);
    }
  }

  lemma NextTold(
      c: Config, states: seq<Sim>, events: seq<Scheduled>, n: nat, r: Sim, e: Scheduled, s: Sim, h: Lives)
    requires ConfigOk(c) && IsTrace(c, states, events) && n == |events| > 0
    requires r == states[n - 1] && e == events[n - 1] && s == states[n] && Faithful(r, h)
    ensures Faithful(s, NoteEvent(c, h, r, e.at, e.event, s))
  {
    var loc, who := BeforeLast(c, states, events, n, r);
    var x := LastFires(c, states, events, n, r, e, s);
    FireTimes(c, r, loc, who, e, x, s, h);
  }

  lemma {:induction false} RunHasTrace(c: Config, states: seq<Sim>) returns (events: seq<Scheduled>)
    requires IsRun(c, states)
    ensures IsTrace(c, states, events)
    decreases |states|
  {
    var n: nat := |states| - 1;
    if n == 0 {
      events := [];
    } else {
      RunPrefix(c, states, n);
      var front := RunHasTrace(c, states[..n]);
      assert SimRuns.Steps(c, states[n - 1], states[n]);
      var e, x :| Fires(c, states[n - 1], e, x, states[n]) && e.at <= c.horizon;
      events := front + [e];
      TraceGrows(c, states, front, e, n);
    }
  }

  lemma TraceGrows(c: Config, states: seq<Sim>, front: seq<Scheduled>, e: Scheduled, n: nat)
    requires |states| == n + 1 && n > 0 && IsTrace(c, states[..n], front)
    requires FiresSome(c, states[n - 1], e, states[n])
    ensures IsTrace(c, states, front + [e])
  {
    var events := front + [e];
    forall i: nat | i < |events| ensures FiresAt(c, states, events, i) {
      if i < |front| {
        assert FiresAt(c, states[..n], front, i);
      }
    }
  }

  /** In particular over every run up to the horizon. */
  lemma RunsAreStamped(c: Config, states: seq<Sim>) returns (events: seq<Scheduled>)
    requires ConfigOk(c) && IsRun(c, states)
    ensures IsTrace(c, states, events)
    ensures Faithful(states[|states| - 1], LivesOf(c, states, events))
  {
    events := RunHasTrace(c, states);
    StampsAreTrue(c, states, events, states[|states| - 1]);
  }
}
