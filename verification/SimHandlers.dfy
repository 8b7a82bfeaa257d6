/** What every handler keeps from one event to the next. */
module SimHandlers {
  import opened Common
  import opened PrefillState
  import opened DecodeState
  import opened RunningSeqs
  import opened SimState
  import opened SimInvariant
  import opened SimPrefill
  import opened SimTransfer
  import opened SimDecode

  ghost predicate AllSettled(loc: Places) {
    forall id | id in loc :: !Unsettled(loc[id])
  }

  /** Nothing that could run is at rest: queued prefill has a busy worker, a queued transfer finds
      every buffer taken, and queued or running decode has a step coming. */
  ghost predicate Served(c: Config, s: Sim) {
    && (forall w: nat | w < |s.prefill| :: PrefillServed(s.prefill[w]))
    && TransfersServed(c, s)
    && (forall w: nat | w < |s.decode| :: DecodeServed(s.decode[w]))
  }

  /** What holds between events. */
  ghost predicate Settled(c: Config, s: Sim, loc: Places, who: Clients) {
    Base(c, s, loc, who, {}) && AllSettled(loc) && Served(c, s)
  }

  // ---------------------------------------------------------------- handlers

  lemma ArrivalKeeps(c: Config, s: Sim, loc: Places, who: Clients, k: nat, r: Route)
    returns (loc': Places, who': Clients)
    requires ConfigOk(c) && Base(c, s, loc, who, {Arrival(k)}) && AllSettled(loc) && Served(c, s)
    requires r.prefill < c.prefillWorkers && r.decode < c.decodeWorkers && r.hit < c.isl
    ensures r.prefill < |s.prefill|
    ensures var t := OnArrival(c, s, k, r);
      && Base(c, t, loc', who', {}) && AllSettled(loc') && Served(c, t) && t.now == s.now
      && NothingBefore(t.heap, s.heap, s.now + Delay(c))
  {
    WorkerKnown(c, s, loc, who, {Arrival(k)}, r.prefill);
    var t: Sim;
    t, loc', who' := IssueSettles(c, s, loc, who, k, r);
    StartKeeps(c, t, loc', who', r.prefill);
    ServedElsewhere(c, s, t, StartPrefill(c, t, r.prefill), r.prefill);
  }

  /** Up to where the worker plans. */
  lemma IssueSettles(c: Config, s: Sim, loc: Places, who: Clients, k: nat, r: Route)
    returns (t: Sim, loc': Places, who': Clients)
    requires Base(c, s, loc, who, {Arrival(k)}) && AllSettled(loc)
    requires r.prefill < c.prefillWorkers && r.decode < c.decodeWorkers && r.hit < c.isl
    requires r.prefill < |s.prefill| && c.prefillCurve.Valid()
    ensures Base(c, t, loc', who', {}) && AllSettled(loc')
    ensures OnlyPrefill(s, t, r.prefill) && t.heap == s.heap
    ensures r.prefill < |t.prefill| && OnArrival(c, s, k, r) == StartPrefill(c, t, r.prefill)
  {
    t := Issue(c, s, k, r);
    IssueOnly(c, s, k, r);
    ArrivalIs(c, s, k, r, t);
    loc', who' := loc[s.nextId := AtPrefill(r.prefill)], who[k := Live(s.nextId)];
    IssueKeeps(c, s, loc, who, k, r, t);
  }

  lemma ArrivalIs(c: Config, s: Sim, k: nat, r: Route, t: Sim)
    requires r.prefill < |s.prefill| && c.prefillCurve.Valid() && t == Issue(c, s, k, r)
    ensures OnArrival(c, s, k, r) == StartPrefill(c, t, r.prefill)
  {
  }

  lemma IssueOnly(c: Config, s: Sim, k: nat, r: Route)
    requires r.prefill < |s.prefill|
    ensures OnlyPrefill(s, Issue(c, s, k, r), r.prefill) && Issue(c, s, k, r).heap == s.heap
  {
  }

  /** Serving worker `w` again restores service after it was left idle. */
  lemma ServedElsewhere(c: Config, s: Sim, t: Sim, u: Sim, w: nat)
    requires Served(c, s) && OnlyPrefill(s, t, w) && OnlyPrefill(t, u, w)
    requires w < |s.prefill| && PrefillServed(u.prefill[w])
    ensures Served(c, u)
  {
  }

  lemma PutDownAll(loc: Places, was: Places, ids: seq<nat>)
    requires OnlyInHand(was, ids) && PutDown(loc, was, ids)
    ensures AllSettled(loc)
  {
  }

  lemma SettledStays(loc: Places, was: Places)
    requires AllSettled(was) && SameHands(loc, was)
    ensures AllSettled(loc)
  {
    forall id | id in loc ensures !Unsettled(loc[id]) {
      assert !Located(was, id, InHand);
      assert loc[id].Leaving? ==> !Located(was, id, Leaving(loc[id].worker));
    }
  }

  /** Only the requests `ids` are between places. */
  ghost predicate OnlyInHand(loc: Places, ids: seq<nat>) {
    forall id | id in loc && Unsettled(loc[id]) :: id in ids
  }

  lemma TakenInHand(loc: Places, ids: seq<nat>, w: nat)
    requires AllSettled(loc) && forall id | id in ids :: Located(loc, id, AtPrefill(w))
    ensures AllInHand(Taken(loc, ids), ids) && OnlyInHand(Taken(loc, ids), ids)
  {
    forall id | id in ids ensures Located(Taken(loc, ids), id, InHand) {
      assert Located(loc, id, AtPrefill(w));
    }
  }

  /** The finished requests are handed over and transfers started. */
  lemma HandOverKeeps(
      c: Config, s: Sim, loc: Places, who: Clients, ids: seq<nat>, at: real, t: Sim, u: Sim)
    returns (loc': Places)
    requires Base(c, s, loc, who, {}) && Distinct(ids) && AllInHand(loc, ids) && OnlyInHand(loc, ids)
    requires t == HandOffAll(s, ids) && u == Drain(c, t, at) && at >= s.now
    ensures Base(c, u, loc', who, {}) && AllSettled(loc') && u.now == s.now
  {
    var mid := HandOffAllKeeps(c, s, loc, who, ids);
    PutDownAll(mid, loc, ids);
    loc' := DrainKeeps(c, t, mid, who, at);
    DrainServes(c, t, at);
    SettledStays(loc', mid);
  }

  /** Of service, only that of worker `w` is open. */
  ghost predicate ServedBut(c: Config, s: Sim, w: nat) {
    && (forall v: nat | v < |s.prefill| && v != w :: PrefillServed(s.prefill[v]))
    && TransfersServed(c, s)
    && (forall v: nat | v < |s.decode| :: DecodeServed(s.decode[v]))
  }

  lemma HandOverServes(c: Config, s: Sim, w: nat, b: Sim, ids: seq<nat>, t: Sim, at: real, u: Sim)
    requires Served(c, s) && w < |s.prefill| && s.prefill[w].batch.Some?
    requires b == TakeBatch(s, w) && t == HandOffAll(b, ids) && u == Drain(c, t, at)
    ensures ServedBut(c, u, w) && u.now == s.now && NothingBefore(u.heap, s.heap, at)
  {
    HandOffAllOnly(b, ids);
    DrainServes(c, t, at);
  }

  lemma {:induction false} HandOffAllOnly(s: Sim, ids: seq<nat>)
    ensures OnlyTransfers(s, HandOffAll(s, ids)) && HandOffAll(s, ids).heap == s.heap
    decreases |ids|
  {
    if ids != [] {
      HandOffAllOnly(HandOff(s, ids[0]), ids[1..]);
    }
  }

  lemma ServedAgain(c: Config, s: Sim, t: Sim, w: nat)
    requires ServedBut(c, s, w) && OnlyPrefill(s, t, w) && w < |s.prefill| && PrefillServed(t.prefill[w])
    ensures Served(c, t)
  {
  }

  /** The handler, step by step. */
  lemma PrefillDoneIs(
      c: Config, s: Sim, w: nat, b: Sim, ids: seq<nat>, t: Sim, at: real, u: Sim)
    requires c.prefillCurve.Valid() && w < |s.prefill| && s.prefill[w].batch.Some?
    requires b == TakeBatch(s, w) && ids == FinishedBy(s.prefill[w])
    requires t == HandOffAll(b, ids) && at == s.now + c.transferMs && u == Drain(c, t, at)
    ensures w < |u.prefill| && OnPrefillDone(c, s, w) == StartPrefill(c, u, w)
  {
  }

  lemma PrefillDoneServes(c: Config, s: Sim, w: nat, u: Sim, v: Sim)
    requires ConfigOk(c) && ServedBut(c, u, w) && OnlyPrefill(u, v, w) && w < |u.prefill|
    requires PrefillServed(v.prefill[w])
    requires NothingBefore(u.heap, s.heap, s.now + c.transferMs)
    requires NothingBefore(v.heap, u.heap, s.now + Delay(c))
    ensures Served(c, v) && NothingBefore(v.heap, s.heap, s.now + Delay(c))
  {
    DelayIsLeast(c);
    NothingSooner(u.heap, s.heap, s.now + c.transferMs, s.now + Delay(c));
    NothingBeforeChain(v.heap, u.heap, s.heap, s.now + Delay(c));
    ServedAgain(c, u, v, w);
  }

  lemma BatchTaken(c: Config, s: Sim, loc: Places, who: Clients, w: nat, b: Sim, ids: seq<nat>)
    requires Base(c, s, loc, who, {PrefillDone(w)})
    requires w < c.prefillWorkers && s.prefill[w].batch.Some?
    requires b == TakeBatch(s, w) && ids == FinishedBy(s.prefill[w])
    ensures Base(c, b, Taken(loc, ids), who, {}) && b.now == s.now
    ensures Distinct(ids) && forall id | id in ids :: Located(loc, id, AtPrefill(w))
  {
    TakeKeeps(c, s, loc, who, w, ids);
  }

  /** A finished batch is handed over whole. */
  lemma BatchHandOver(
      c: Config, b: Sim, loc: Places, who: Clients, w: nat, ids: seq<nat>, at: real,
      t: Sim, u: Sim)
    returns (loc': Places)
    requires Base(c, b, Taken(loc, ids), who, {}) && AllSettled(loc) && at >= b.now
    requires Distinct(ids) && forall id | id in ids :: Located(loc, id, AtPrefill(w))
    requires t == HandOffAll(b, ids) && u == Drain(c, t, at)
    ensures Base(c, u, loc', who, {}) && AllSettled(loc')
  {
    TakenInHand(loc, ids, w);
    loc' := HandOverKeeps(c, b, Taken(loc, ids), who, ids, at, t, u);
  }

  lemma BatchKnown(c: Config, s: Sim, loc: Places, who: Clients, w: nat)
    requires Base(c, s, loc, who, {PrefillDone(w)})
    ensures w < c.prefillWorkers == |s.prefill| && s.prefill[w].batch.Some?
  {
    assert PrefillDone(w) in Events(s.heap) + {PrefillDone(w)};
    assert PrefillWorkerOk(s.prefill[w], w, loc);
  }

  /** Up to where the worker plans again. */
  lemma BatchDone(c: Config, s: Sim, loc: Places, who: Clients, w: nat)
    returns (u: Sim, loc': Places)
    requires ConfigOk(c) && Base(c, s, loc, who, {PrefillDone(w)}) && AllSettled(loc) && Served(c, s)
    requires w < c.prefillWorkers && w < |s.prefill| && s.prefill[w].batch.Some?
    ensures Base(c, u, loc', who, {}) && AllSettled(loc')
    ensures ServedBut(c, u, w) && u.now == s.now && w < |u.prefill|
    ensures NothingBefore(u.heap, s.heap, s.now + c.transferMs)
    ensures OnPrefillDone(c, s, w) == StartPrefill(c, u, w)
  {
    var b, ids, at := TakeBatch(s, w), FinishedBy(s.prefill[w]), s.now + c.transferMs;
    var t := HandOffAll(b, ids);
    u := Drain(c, t, at);
    HandOverServes(c, s, w, b, ids, t, at, u);
    PrefillDoneIs(c, s, w, b, ids, t, at, u);
    BatchTaken(c, s, loc, who, w, b, ids);
    loc' := BatchHandOver(c, b, loc, who, w, ids, at, t, u);
  }

  lemma PrefillDoneKeeps(c: Config, s: Sim, loc: Places, who: Clients, w: nat)
    returns (loc': Places)
    requires ConfigOk(c) && Base(c, s, loc, who, {PrefillDone(w)}) && AllSettled(loc) && Served(c, s)
    ensures w < |s.prefill|
    ensures var t := OnPrefillDone(c, s, w);
      && Base(c, t, loc', who, {}) && AllSettled(loc') && Served(c, t) && t.now == s.now
      && NothingBefore(t.heap, s.heap, s.now + Delay(c))
  {
    BatchKnown(c, s, loc, who, w);
    var u: Sim;
    u, loc' := BatchDone(c, s, loc, who, w);
    StartKeeps(c, u, loc', who, w);
    PrefillDoneServes(c, s, w, u, StartPrefill(c, u, w));
  }

  /** What an arriving transfer pushes: later transfers, and perhaps the step of its worker for now. */
  ghost predicate NothingBeforeBut(heap: set<Scheduled>, was: set<Scheduled>, t: real, w: nat) {
    forall x | x in heap :: x in was || x.at >= t || x.event == DecodeStep(w)
  }

  lemma KvServes(c: Config, s: Sim, id: nat, w: nat, l: Sim, at: real, t: Sim, u: Sim)
    requires Served(c, s) && w < |s.decode| && l == Lift(s) && t == Drain(c, l, at)
    requires w < |t.decode| && u == Queue(t, id, w)
    ensures Served(c, Wake(u, w)) && Wake(u, w).now == s.now
    ensures NothingBeforeBut(Wake(u, w).heap, s.heap, at, w)
  {
    DrainServes(c, l, at);
    WakeOnly(u, w);
  }

  lemma {:induction false} DrainKnows(c: Config, s: Sim, at: real)
    ensures Drain(c, s, at).reqs == s.reqs
    decreases |s.xferQueue|
  {
    if s.xferBusy < Buffers(c) && s.xferQueue != [] {
      DrainKnows(c, StartTransfer(s, at), at);
    }
  }

  lemma OneInHand(loc: Places, was: Places, id: nat, w: nat)
    requires AllSettled(was) && SameHands(loc, was[id := InHand])
    ensures AllSettled(loc[id := AtPending(w)]) && Located(loc, id, InHand)
  {
    assert Located(was[id := InHand], id, InHand);
    forall x | x in loc && x != id ensures !Unsettled(loc[x]) {
      assert !Located(was[id := InHand], x, InHand);
      assert loc[x].Leaving? ==> !Located(was[id := InHand], x, Leaving(loc[x].worker));
    }
  }

  /** The landed request joins its worker's queue. */
  lemma LandKeeps(
      c: Config, s: Sim, loc: Places, who: Clients, id: nat, w: nat, at: real, l: Sim, t: Sim)
    returns (loc': Places)
    requires Base(c, s, loc, who, {KvArrived(id, w)}) && AllSettled(loc) && at >= s.now
    requires l == Lift(s) && t == Drain(c, l, at)
    ensures w < c.decodeWorkers == |s.decode| == |t.decode|
    ensures Base(c, Queue(t, id, w), loc', who, {}) && AllSettled(loc')
  {
    LiftKeeps(c, s, loc, who, id, w);
    var mid := DrainKeeps(c, l, loc[id := InHand], who, at);
    DrainKnows(c, l, at);
    OneInHand(mid, loc, id, w);
    loc' := mid[id := AtPending(w)];
    QueueKeeps(c, t, mid, who, id, w);
  }

  lemma KvArrivedIs(c: Config, s: Sim, id: nat, w: nat, l: Sim, at: real, t: Sim, u: Sim)
    requires w < |s.decode| && l == Lift(s) && at == s.now + c.transferMs && t == Drain(c, l, at)
    requires w < |t.decode| && u == Queue(t, id, w)
    ensures OnKvArrived(c, s, id, w) == Wake(u, w)
  {
  }

  lemma KvArrivedKeeps(c: Config, s: Sim, loc: Places, who: Clients, id: nat, w: nat)
    returns (loc': Places)
    requires ConfigOk(c) && Base(c, s, loc, who, {KvArrived(id, w)}) && AllSettled(loc) && Served(c, s)
    ensures w < |s.decode|
    ensures var t := OnKvArrived(c, s, id, w);
      && Base(c, t, loc', who, {}) && AllSettled(loc') && Served(c, t) && t.now == s.now
      && NothingBeforeBut(t.heap, s.heap, s.now + c.transferMs, w)
  {
    var u: Sim;
    u, loc' := Landed(c, s, loc, who, id, w);
    WakeKeeps(c, u, loc', who, w);
  }

  /** Up to where the worker is woken. */
  lemma Landed(c: Config, s: Sim, loc: Places, who: Clients, id: nat, w: nat)
    returns (u: Sim, loc': Places)
    requires ConfigOk(c) && Base(c, s, loc, who, {KvArrived(id, w)}) && AllSettled(loc) && Served(c, s)
    ensures w < c.decodeWorkers && w < |s.decode| && w < |u.decode|
    ensures Base(c, u, loc', who, {}) && AllSettled(loc')
    ensures OnKvArrived(c, s, id, w) == Wake(u, w)
    ensures Served(c, Wake(u, w)) && Wake(u, w).now == s.now
    ensures NothingBeforeBut(Wake(u, w).heap, s.heap, s.now + c.transferMs, w)
  {
    var l, at := Lift(s), s.now + c.transferMs;
    var t := Drain(c, l, at);
    loc' := LandKeeps(c, s, loc, who, id, w, at, l, t);
    u := Queue(t, id, w);
    KvServes(c, s, id, w, l, at, t, u);
    KvArrivedIs(c, s, id, w, l, at, t, u);
  }

  // ------------------------------------------------------------ decode steps

  lemma StepKnown(c: Config, s: Sim, loc: Places, who: Clients, w: nat)
    requires Base(c, s, loc, who, {DecodeStep(w)})
    ensures w < c.decodeWorkers == |s.decode| && s.decode[w].stepping
  {
    assert DecodeStep(w) in Events(s.heap) + {DecodeStep(w)};
  }

  lemma RestDecode(c: Config, s: Sim, loc: Places, who: Clients, w: nat, d: DecodeWorker)
    requires Base(c, s, loc, who, {DecodeStep(w)}) && w < c.decodeWorkers
    requires d == s.decode[w].(stepping := false)
    ensures Base(c, WithDecode(s, w, d), loc, who, {})
  {
    var evs := Events(s.heap) + {DecodeStep(w)};
    assert DecodeWorkerOk(c, s.decode[w], w, loc);
    BlocksSteady(c, s.decode[w], d, w, loc);
    StepMatched(c, s, loc, who, w, d, evs);
    LetGo(s.heap, s.now, s.pushed, DecodeStep(w));
  }

  lemma StepAgain(c: Config, s: Sim, loc: Places, who: Clients, w: nat, at: real)
    requires Base(c, s, loc, who, {DecodeStep(w)}) && at >= s.now
    ensures Base(c, Push(s, at, DecodeStep(w)), loc, who, {})
  {
    PushFromHand(c, s, loc, who, {DecodeStep(w)}, at, DecodeStep(w));
    assert {DecodeStep(w)} - {DecodeStep(w)} == {};
  }

  lemma NoneLeaving(loc: Places)
    requires AllSettled(loc)
    ensures forall id, w :: !Located(loc, id, Leaving(w))
  {
  }

  /** After the step, everything that left the batch has been retired. */
  lemma RetiredSettles(loc: Places, was: Places, fin: seq<nat>, w: nat, done: seq<RunningSeq>)
    requires AllSettled(was) && Retired(loc, Stepped(was, fin, w), done)
    requires forall id | id in fin :: exists q :: q in done && q.id == id
    ensures AllSettled(loc)
  {
    forall id | id in loc ensures !Unsettled(loc[id]) {
      var p := loc[id];
      assert Unsettled(p) ==> Located(Stepped(was, fin, w), id, p) && forall q | q in done :: q.id != id;
      assert Unsettled(p) && Located(Stepped(was, fin, w), id, p) ==> id in fin;
    }
  }

  /** One step of the batch: its last-token sequences are retired, and their clients released. */
  lemma BatchSteps(
      c: Config, s: Sim, loc: Places, who: Clients, w: nat, d: DecodeWorker, at: real, steer: real,
      keys: seq<nat>, done: seq<RunningSeq>, b: Sim, t: Sim)
    returns (loc': Places, who': Clients)
    requires Base(c, s, loc, who, {DecodeStep(w)}) && AllSettled(loc) && w < c.decodeWorkers
    requires at >= s.now && d == s.decode[w] && Lists(keys, d.sched.running)
    requires done == Synthetic(d.sched, at, steer, keys).1
    requires b == StepBatch(s, w, at, steer, keys) && w < |b.decode| && t == RetireAll(b, w, done, at)
    ensures Base(c, t, loc', who', {DecodeStep(w)}) && AllSettled(loc')
  {
    var fin := FinishingOf(d.sched.running, keys);
    NoneLeaving(loc);
    StepKeeps(c, s, loc, who, {DecodeStep(w)}, w, d, at, steer, keys, fin);
    loc', who' := RetireAllKeeps(c, b, Stepped(loc, fin, w), who, w, done, at);
    assert DecodeWorkerOk(c, d, w, loc);
    StepSplits(c, d, w, loc, at, steer, keys, fin, done);
    forall id | id in fin ensures exists q :: q in done && q.id == id {
      var i :| 0 <= i < |fin| && fin[i] == id;
      assert done[i] in done;
    }
    RetiredSettles(loc', loc, fin, w, done);
  }

  /** What an admitted worker does next, in the words of its handler. */
  lemma StepToIs(
      s: Sim, w: nat, d: DecodeWorker, at: real, steer: real, keys: seq<nat>, done: seq<RunningSeq>,
      b: Sim, t: Sim)
    requires w < |s.decode| && d == s.decode[w] && done == Synthetic(d.sched, at, steer, keys).1
    requires b == StepBatch(s, w, at, steer, keys) && w < |b.decode| && t == RetireAll(b, w, done, at)
    ensures StepTo(s, w, at, steer, keys) == Push(t, at, DecodeStep(w))
  {
  }

  /** Only worker `w` moved on; it has a step coming; nothing else is due before `at`. */
  ghost predicate SteppedOnly(s: Sim, t: Sim, w: nat, at: real) {
    && OnlyDecode(s, t, w) && w < |t.decode| && DecodeServed(t.decode[w])
    && NothingBefore(t.heap, s.heap, at)
  }

  lemma BatchStepOnly(
      s: Sim, w: nat, at: real, steer: real, keys: seq<nat>, done: seq<RunningSeq>, b: Sim, t: Sim)
    requires w < |s.decode| && s.decode[w].stepping
    requires b == StepBatch(s, w, at, steer, keys) && t == RetireAll(b, w, done, at)
    ensures SteppedOnly(s, Push(t, at, DecodeStep(w)), w, at)
  {
    RetireAllOnly(b, w, done, at);
  }

  lemma RunningStep(
      c: Config, s: Sim, loc: Places, who: Clients, w: nat, steer: real, keys: seq<nat>, at: real)
    returns (loc': Places, who': Clients)
    requires Base(c, s, loc, who, {DecodeStep(w)}) && AllSettled(loc)
    requires w < c.decodeWorkers && w < |s.decode| && s.decode[w].stepping
    requires Lists(keys, s.decode[w].sched.running) && at >= s.now
    ensures var t := StepTo(s, w, at, steer, keys);
      && Base(c, t, loc', who', {}) && AllSettled(loc')
      && SteppedOnly(s, t, w, at)
  {
    var d := s.decode[w];
    var done := Synthetic(d.sched, at, steer, keys).1;
    var b := StepBatch(s, w, at, steer, keys);
    var t := RetireAll(b, w, done, at);
    BatchStepOnly(s, w, at, steer, keys, done, b, t);
    StepToIs(s, w, d, at, steer, keys, done, b, t);
    loc', who' := BatchSteps(c, s, loc, who, w, d, at, steer, keys, done, b, t);
    StepAgain(c, t, loc', who', w, at);
  }

  /** When the step of a batch of `n` would end; an empty one tries again as if it held one. */
  lemma NextStepIs(c: Config, s: Sim, w: nat, n: nat)
    requires w < |s.decode| && n == |s.decode[w].sched.running|
    ensures NextStep(c, s, w) == s.now + c.decodeCurve.StepMs(if n == 0 then 1 else n)
  {
  }

  lemma EmptyIs(c: Config, s: Sim, w: nat, steer: real, keys: seq<nat>, at: real)
    requires w < |s.decode| && |s.decode[w].sched.running| == 0 && at == NextStep(c, s, w)
    ensures AfterAdmission(c, s, w, steer, keys) == RestOrRetry(s, w, at)
  {
  }

  lemma RunningIs(c: Config, s: Sim, w: nat, steer: real, keys: seq<nat>, at: real)
    requires w < |s.decode| && |s.decode[w].sched.running| > 0 && at == NextStep(c, s, w)
    ensures AfterAdmission(c, s, w, steer, keys) == StepTo(s, w, at, steer, keys)
  {
  }

  lemma EmptyBatchIs(s: Sim, w: nat, steer: real, keys: seq<nat>, at: real, d: DecodeWorker)
    requires w < |s.decode| && s.decode[w].stepping && s.decode[w].sched.running == map[]
    requires d == s.decode[w].(stepping := false)
    ensures var t := StepOrWait(s, w, at, steer, keys);
      && t == (if d.pending == [] then WithDecode(s, w, d) else Push(s, at, DecodeStep(w)))
      && SteppedOnly(s, t, w, at)
  {
  }

  lemma EmptyBatchStep(
      c: Config, s: Sim, loc: Places, who: Clients, w: nat, steer: real, keys: seq<nat>, at: real)
    requires Base(c, s, loc, who, {DecodeStep(w)})
    requires w < c.decodeWorkers && w < |s.decode| && s.decode[w].stepping
    requires s.decode[w].sched.running == map[] && at >= s.now
    ensures var t := StepOrWait(s, w, at, steer, keys);
      Base(c, t, loc, who, {}) && SteppedOnly(s, t, w, at)
  {
    var d := s.decode[w].(stepping := false);
    EmptyBatchIs(s, w, steer, keys, at, d);
    if s.decode[w].pending == [] {
      RestDecode(c, s, loc, who, w, d);
    } else {
      StepAgain(c, s, loc, who, w, at);
    }
  }

  lemma DecodeServes(c: Config, s: Sim, a: Sim, t: Sim, w: nat, at: real)
    requires Served(c, s) && OnlyDecode(s, a, w) && a.heap == s.heap && SteppedOnly(a, t, w, at)
    ensures Served(c, t) && t.now == s.now && NothingBefore(t.heap, s.heap, at)
  {
  }

  lemma StepOrWaitKeeps(
      c: Config, s: Sim, loc: Places, who: Clients, w: nat, steer: real, keys: seq<nat>, at: real)
    returns (loc': Places, who': Clients)
    requires Base(c, s, loc, who, {DecodeStep(w)}) && AllSettled(loc) && at >= s.now
    requires w < c.decodeWorkers && w < |s.decode| && s.decode[w].stepping
    requires Lists(keys, s.decode[w].sched.running)
    ensures var t := StepOrWait(s, w, at, steer, keys);
      && Base(c, t, loc', who', {}) && AllSettled(loc')
      && SteppedOnly(s, t, w, at)
  {
    if |s.decode[w].sched.running| == 0 {
      EmptyBatchStep(c, s, loc, who, w, steer, keys, at);
      loc', who' := loc, who;
    } else {
      loc', who' := RunningStep(c, s, loc, who, w, steer, keys, at);
    }
  }

  lemma AfterAdmissionKeeps(
      c: Config, s: Sim, loc: Places, who: Clients, w: nat, steer: real, keys: seq<nat>)
    returns (loc': Places, who': Clients)
    requires ConfigOk(c) && Base(c, s, loc, who, {DecodeStep(w)}) && AllSettled(loc)
    requires w < c.decodeWorkers && w < |s.decode| && s.decode[w].stepping
    requires Lists(keys, s.decode[w].sched.running)
    ensures var t := AfterAdmission(c, s, w, steer, keys);
      && Base(c, t, loc', who', {}) && AllSettled(loc')
      && SteppedOnly(s, t, w, s.now + Delay(c))
  {
    var at := NextStep(c, s, w);
    NextStepIsLater(c, s, w, at);
    loc', who' := StepOrWaitKeeps(c, s, loc, who, w, steer, keys, at);
    SteppedLater(s, AfterAdmission(c, s, w, steer, keys), w, at, s.now + Delay(c));
  }

  lemma NextStepIsLater(c: Config, s: Sim, w: nat, at: real)
    requires ConfigOk(c) && w < |s.decode| && at == NextStep(c, s, w)
    ensures at >= s.now + Delay(c) > s.now
  {
    DelayIsLeast(c);
  }

  lemma SteppedLater(s: Sim, t: Sim, w: nat, at: real, sooner: real)
    requires SteppedOnly(s, t, w, at) && sooner <= at
    ensures SteppedOnly(s, t, w, sooner)
  {
    NothingSooner(t.heap, s.heap, at, sooner);
  }

  lemma DecodeStepKeeps(
      c: Config, s: Sim, loc: Places, who: Clients, w: nat, steer: real, keys: seq<nat>)
    returns (loc': Places, who': Clients)
    requires ConfigOk(c) && Base(c, s, loc, who, {DecodeStep(w)}) && AllSettled(loc) && Served(c, s)
    requires w < |s.decode| ==> Lists(keys, AdmitAll(c, s, w).decode[w].sched.running)
    ensures w < |s.decode|
    ensures var t := OnDecodeStep(c, s, w, steer, keys);
      && Base(c, t, loc', who', {}) && AllSettled(loc') && Served(c, t) && t.now == s.now
      && NothingBefore(t.heap, s.heap, s.now + Delay(c))
  {
    StepKnown(c, s, loc, who, w);
    var a := AdmitAll(c, s, w);
    AdmitAllOnly(c, s, w);
    var mid := AdmitAllKeeps(c, s, loc, who, {DecodeStep(w)}, w);
    SettledStays(mid, loc);
    loc', who' := AfterAdmissionKeeps(c, a, mid, who, w, steer, keys);
    DecodeServes(c, s, a, AfterAdmission(c, a, w, steer, keys), w, s.now + Delay(c));
  }
}
