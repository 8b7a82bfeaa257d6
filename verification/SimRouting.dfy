/** A request goes where the router sent it: from the hand-over on it is only ever queued for, transferred to
    and decoded by its own decode worker. */
module SimRouting {
  import opened Common
  import opened RunningSeqs
  import opened DecodeState
  import opened PrefillState
  import opened SimState
  import opened SimInvariant
  import opened SimPrefill
  import opened SimTransfer
  import opened SimDecode
  import opened SimHandlers
  import opened SimRuns
  import opened SimProgress
  import opened SimTimes

  /** Something takes `id` to worker `w`, or keeps it there. */
  ghost predicate Paired(s: Sim, id: nat, w: nat) {
    || (id, w) in s.xferQueue
    || KvArrived(id, w) in Events(s.heap)
    || (w < |s.decode| && (id in s.decode[w].pending || id in s.decode[w].sched.running))
  }

  ghost predicate RoutedOk(s: Sim) {
    forall id: nat, w: nat | Paired(s, id, w) && id in s.reqs :: s.reqs[id].decodeWorker == w
  }

  /** No pair is new, but those of requests with their own worker. */
  ghost predicate PairsFrom(s: Sim, t: Sim) {
    forall id: nat, w: nat | Paired(t, id, w) ::
      Paired(s, id, w) || (id in t.reqs ==> t.reqs[id].decodeWorker == w)
  }

  /** Live requests stay bound for their worker. */
  ghost predicate KeepsWorkers(s: Sim, t: Sim) {
    forall id | id in t.reqs :: id in s.reqs && t.reqs[id].decodeWorker == s.reqs[id].decodeWorker
  }

  /** Nothing takes an id that has not been issued anywhere. */
  ghost predicate PairsKnown(s: Sim) {
    forall id: nat, w: nat | Paired(s, id, w) :: id < s.nextId
  }

  ghost predicate Moves(s: Sim, t: Sim) { PairsFrom(s, t) && KeepsWorkers(s, t) }

  lemma MovesTwice(s: Sim, m: Sim, t: Sim)
    requires Moves(s, m) && Moves(m, t)
    ensures Moves(s, t)
  {
  }

  lemma RoutedNext(s: Sim, t: Sim)
    requires RoutedOk(s) && Moves(s, t)
    ensures RoutedOk(t)
  {
  }

  lemma PushMoves(s: Sim, at: real, e: Event)
    requires e.KvArrived? ==> Paired(s, e.id, e.worker)
    ensures Moves(s, Push(s, at, e))
  {
    var t := Push(s, at, e);
    forall id, w | Paired(t, id, w) ensures Paired(s, id, w) {
      if KvArrived(id, w) in Events(t.heap) && KvArrived(id, w) != e {
        var x :| x in t.heap && x.event == KvArrived(id, w);
        assert x in s.heap;
      }
    }
  }

  lemma StartMoves(c: Config, s: Sim, w: nat)
    requires w < |s.prefill| && c.prefillCurve.Valid()
    ensures Moves(s, StartPrefill(c, s, w))
  {
    var t := StartPrefill(c, s, w);
    StartPrefillBooks(c, s, w);
    StartTimes(c, s, w);
    forall id, v | Paired(t, id, v) ensures Paired(s, id, v) {
      if KvArrived(id, v) in Events(t.heap) {
        var x :| x in t.heap && x.event == KvArrived(id, v);
        assert x in s.heap;
      }
    }
  }

  lemma HandOffMoves(s: Sim, id: nat)
    ensures Moves(s, HandOff(s, id))
  {
  }

  lemma {:induction false} HandOffAllMoves(s: Sim, ids: seq<nat>)
    ensures Moves(s, HandOffAll(s, ids))
    decreases |ids|
  {
    if ids != [] {
      HandOffMoves(s, ids[0]);
      HandOffAllMoves(HandOff(s, ids[0]), ids[1..]);
      MovesTwice(s, HandOff(s, ids[0]), HandOffAll(s, ids));
    }
  }

  lemma StartTransferMoves(s: Sim, at: real)
    requires s.xferQueue != []
    ensures Moves(s, StartTransfer(s, at))
  {
    var t, head := StartTransfer(s, at), s.xferQueue[0];
    assert s.xferQueue == [head] + s.xferQueue[1..];
    forall id, w | Paired(t, id, w) ensures Paired(s, id, w) {
      if KvArrived(id, w) in Events(t.heap) && KvArrived(id, w) != KvArrived(head.0, head.1) {
        var x :| x in t.heap && x.event == KvArrived(id, w);
        assert x in s.heap;
      }
    }
  }

  lemma {:induction false} DrainMoves(c: Config, s: Sim, at: real)
    ensures Moves(s, Drain(c, s, at))
    decreases |s.xferQueue|
  {
    if s.xferBusy < Buffers(c) && s.xferQueue != [] {
      StartTransferMoves(s, at);
      DrainMoves(c, StartTransfer(s, at), at);
      MovesTwice(s, StartTransfer(s, at), Drain(c, s, at));
    }
  }

  /** What changes is queues, buffers or the worker of no pair. */
  lemma SamePairs(s: Sim, t: Sim)
    requires t.reqs == s.reqs && t.xferQueue == s.xferQueue && t.heap == s.heap && t.decode == s.decode
    ensures Moves(s, t)
  {
  }

  lemma PrefillDoneMoves(c: Config, s: Sim, w: nat)
    requires w < |s.prefill| && c.prefillCurve.Valid() && s.prefill[w].batch.Some?
    ensures Moves(s, OnPrefillDone(c, s, w))
  {
    var b, ids, at := TakeBatch(s, w), FinishedBy(s.prefill[w]), s.now + c.transferMs;
    var t := HandOffAll(b, ids);
    var u := Drain(c, t, at);
    PrefillDoneIs(c, s, w, b, ids, t, at, u);
    SamePairs(s, b);
    HandOffAllMoves(b, ids);
    DrainMoves(c, t, at);
    StartMoves(c, u, w);
    MovesTwice(s, b, t);
    MovesTwice(s, t, u);
    MovesTwice(s, u, StartPrefill(c, u, w));
  }

  lemma QueueMoves(was: Sim, s: Sim, id: nat, w: nat)
    requires w < |s.decode| && Moves(was, s) && Paired(was, id, w)
    ensures Moves(was, Queue(s, id, w))
  {
    var t := Queue(s, id, w);
    forall x, v | Paired(t, x, v) ensures Paired(s, x, v) || (x == id && v == w) {
    }
  }

  lemma WakeMoves(s: Sim, w: nat)
    requires w < |s.decode|
    ensures Moves(s, Wake(s, w))
  {
    if !s.decode[w].stepping {
      var m := WithDecode(s, w, s.decode[w].(stepping := true));
      assert Moves(s, m);
      PushMoves(m, s.now, DecodeStep(w));
      MovesTwice(s, m, Wake(s, w));
    }
  }

  lemma KvArrivedMoves(c: Config, was: Sim, s: Sim, id: nat, w: nat)
    requires w < |s.decode| && Moves(was, s) && Paired(was, id, w)
    ensures Moves(was, OnKvArrived(c, s, id, w))
  {
    var l, at := Lift(s), s.now + c.transferMs;
    var d := Drain(c, l, at);
    var u := Queue(d, id, w);
    KvArrivedIs(c, s, id, w, l, at, d, u);
    SamePairs(s, l);
    DrainMoves(c, l, at);
    MovesTwice(was, s, l);
    MovesTwice(was, l, d);
    QueueMoves(was, d, id, w);
    WakeMoves(u, w);
    MovesTwice(was, u, Wake(u, w));
  }

  // ------------------------------------------------------------- decode steps

  lemma {:induction false} AdmitAllMovesPairs(c: Config, s: Sim, w: nat)
    requires w < |s.decode|
    ensures Moves(s, AdmitAll(c, s, w))
    decreases |s.decode[w].pending|
  {
    var d := s.decode[w];
    if d.pending != [] {
      if d.pending[0] !in s.reqs {
        var m := WithDecode(s, w, d.(pending := d.pending[1..]));
        assert Moves(s, m);
        AdmitAllMovesPairs(c, m, w);
        MovesTwice(s, m, AdmitAll(c, s, w));
      } else if Admission(c, s.reqs[d.pending[0]], d).Admit? {
        HeadMoves(c, s, w, d);
        AdmitAllMovesPairs(c, AdmitHead(c, s, w), w);
        MovesTwice(s, AdmitHead(c, s, w), AdmitAll(c, s, w));
      }
    }
  }

  lemma HeadMoves(c: Config, s: Sim, w: nat, d: DecodeWorker)
    requires w < |s.decode| && d == s.decode[w] && d.pending != [] && d.pending[0] in s.reqs
    requires Admission(c, s.reqs[d.pending[0]], d).Admit?
    ensures Moves(s, AdmitHead(c, s, w))
  {
    assert d.pending == [d.pending[0]] + d.pending[1..];
  }

  lemma RetireMoves(s: Sim, w: nat, q: RunningSeq, at: real)
    requires w < |s.decode|
    ensures Moves(s, Retire(s, w, q, at))
  {
    var t := Retire(s, w, q, at);
    forall id, v | Paired(t, id, v) ensures Paired(s, id, v) {
      if KvArrived(id, v) in Events(t.heap) {
        var x :| x in t.heap && x.event == KvArrived(id, v);
        assert x in s.heap;
      }
    }
  }

  lemma {:induction false} RetireAllMoves(s: Sim, w: nat, qs: seq<RunningSeq>, at: real)
    requires w < |s.decode|
    ensures Moves(s, RetireAll(s, w, qs, at))
    decreases |qs|
  {
    if qs != [] {
      var t := Retire(s, w, qs[0], at);
      RetireMoves(s, w, qs[0], at);
      RetireAllMoves(t, w, qs[1..], at);
      MovesTwice(s, t, RetireAll(t, w, qs[1..], at));
    }
  }

  lemma BatchMoves(s: Sim, w: nat, d: DecodeWorker, at: real, steer: real, keys: seq<nat>, b: Sim)
    requires w < |s.decode| && d == s.decode[w] && d.sched.tokensPerStep >= 1
    requires Lists(keys, d.sched.running) && b == StepBatch(s, w, at, steer, keys)
    ensures Moves(s, b)
  {
    SyntheticStep(d.sched, at, steer, keys);
  }

  lemma AfterMoves(c: Config, s: Sim, w: nat, steer: real, keys: seq<nat>)
    requires w < |s.decode| && s.decode[w].sched.tokensPerStep >= 1
    requires Lists(keys, s.decode[w].sched.running)
    ensures Moves(s, AfterAdmission(c, s, w, steer, keys))
  {
    var at, d := NextStep(c, s, w), s.decode[w];
    if |d.sched.running| == 0 {
      EmptyIs(c, s, w, steer, keys, at);
      RestMoves(s, w, at);
    } else {
      RunningIs(c, s, w, steer, keys, at);
      var done := Synthetic(d.sched, at, steer, keys).1;
      var b := StepBatch(s, w, at, steer, keys);
      var u := RetireAll(b, w, done, at);
      StepToIs(s, w, d, at, steer, keys, done, b, u);
      BatchMoves(s, w, d, at, steer, keys, b);
      RetireAllMoves(b, w, done, at);
      PushMoves(u, at, DecodeStep(w));
      MovesTwice(s, b, u);
      MovesTwice(s, u, Push(u, at, DecodeStep(w)));
    }
  }

  lemma RestMoves(s: Sim, w: nat, at: real)
    requires w < |s.decode|
    ensures Moves(s, RestOrRetry(s, w, at))
  {
    if s.decode[w].pending != [] {
      PushMoves(s, at, DecodeStep(w));
    }
  }

  lemma DecodeStepMoves(
      c: Config, s: Sim, loc: Places, who: Clients, w: nat, steer: real, keys: seq<nat>)
    requires Base(c, s, loc, who, {DecodeStep(w)}) && w < |s.decode|
    requires Lists(keys, AdmitAll(c, s, w).decode[w].sched.running)
    ensures Moves(s, OnDecodeStep(c, s, w, steer, keys))
  {
    StepKnown(c, s, loc, who, w);
    var a := AdmitAll(c, s, w);
    AdmitAllMovesPairs(c, s, w);
    var mid := AdmitAllKeeps(c, s, loc, who, {DecodeStep(w)}, w);
    RunningKnown(c, a, mid, who, {DecodeStep(w)}, w, a.decode[w]);
    AfterMoves(c, a, w, steer, keys);
    MovesTwice(s, a, AfterAdmission(c, a, w, steer, keys));
  }

  // ------------------------------------------------------------------ events

  lemma PoppedMoves(s: Sim, e: Scheduled)
    ensures Moves(s, Popped(s, e))
  {
    var p := Popped(s, e);
    forall id, w | Paired(p, id, w) ensures Paired(s, id, w) {
      if KvArrived(id, w) in Events(p.heap) {
        var x :| x in p.heap && x.event == KvArrived(id, w);
        assert x in s.heap;
      }
    }
  }

  lemma OthersMove(
      c: Config, s: Sim, loc: Places, who: Clients, was: Sim, e: Event, x: Choice, t: Sim)
    requires ConfigOk(c) && Base(c, s, loc, who, {e}) && !e.Arrival? && Moves(was, s)
    requires e.KvArrived? ==> Paired(was, e.id, e.worker)
    requires ChoiceOk(c, s, e, x) && InRange(s, e, x) && t == Handle(c, s, e, x)
    ensures Moves(was, t)
  {
    match e
    case PrefillDone(w) =>
      BatchKnown(c, s, loc, who, w);
      PrefillDoneMoves(c, s, w);
      MovesTwice(was, s, t);
    case KvArrived(id, w) => KvArrivedMoves(c, was, s, id, w);
    case DecodeStep(w) =>
      DecodeStepMoves(c, s, loc, who, w, x.steer, x.keys);
      MovesTwice(was, s, t);
  }

  lemma ArrivalRouted(c: Config, s: Sim, k: nat, r: Route, i: Sim)
    requires RoutedOk(s) && r.prefill < |s.prefill| && c.prefillCurve.Valid() && i == Issue(c, s, k, r)
    requires PairsKnown(s)
    ensures RoutedOk(OnArrival(c, s, k, r))
  {
    ArrivalIs(c, s, k, r, i);
    assert RoutedOk(i) by {
      forall id, w | Paired(i, id, w) && id in i.reqs ensures i.reqs[id].decodeWorker == w {
        assert Paired(s, id, w);
      }
    }
    StartMoves(c, i, r.prefill);
    RoutedNext(i, StartPrefill(c, i, r.prefill));
  }

  lemma PairedKnown(
      c: Config, s: Sim, loc: Places, who: Clients, hand: set<Event>, id: nat, w: nat)
    requires Base(c, s, loc, who, hand) && Paired(s, id, w)
    ensures id < s.nextId
  {
    if (id, w) in s.xferQueue {
      var i :| 0 <= i < |s.xferQueue| && s.xferQueue[i] == (id, w);
      assert Heads(s.xferQueue)[i] == id;
      LiveKnown(c, s.reqs, s.now, s.nextId, loc, id, AtXfer);
    } else if KvArrived(id, w) in Events(s.heap) {
      assert KvArrived(id, w) in Events(s.heap) + hand;
      LiveKnown(c, s.reqs, s.now, s.nextId, loc, id, AtKv(w));
    } else {
      WorkerIsOk(c, s, loc, who, hand, w, s.decode[w]);
      if id in s.decode[w].pending {
        LiveKnown(c, s.reqs, s.now, s.nextId, loc, id, AtPending(w));
      } else {
        LiveKnown(c, s.reqs, s.now, s.nextId, loc, id, AtRunning(w));
      }
    }
  }

  lemma AllPairsKnown(c: Config, s: Sim, loc: Places, who: Clients, hand: set<Event>)
    requires Base(c, s, loc, who, hand)
    ensures PairsKnown(s)
  {
    forall id: nat, w: nat | Paired(s, id, w) ensures id < s.nextId {
      PairedKnown(c, s, loc, who, hand, id, w);
    }
  }

  lemma ArrivalFireRoutes(
      c: Config, s: Sim, p: Sim, loc: Places, who: Clients, k: nat, x: Choice, t: Sim)
    requires ConfigOk(c) && Base(c, p, loc, who, {Arrival(k)}) && RoutedOk(s) && Moves(s, p)
    requires ChoiceOk(c, p, Arrival(k), x) && InRange(p, Arrival(k), x) && t == Handle(c, p, Arrival(k), x)
    ensures RoutedOk(t)
  {
    RoutedNext(s, p);
    AllPairsKnown(c, p, loc, who, {Arrival(k)});
    ArrivalRouted(c, p, k, x.route, Issue(c, p, k, x.route));
  }

  lemma FiredPaired(s: Sim, e: Scheduled)
    requires e in s.heap && e.event.KvArrived?
    ensures Paired(s, e.event.id, e.event.worker)
  {
    assert e.event in Events(s.heap);
  }

  lemma OtherFireRoutes(
      c: Config, s: Sim, p: Sim, loc: Places, who: Clients, e: Scheduled, x: Choice, t: Sim)
    requires ConfigOk(c) && Base(c, p, loc, who, {e.event}) && RoutedOk(s) && Moves(s, p)
    requires !e.event.Arrival? && e in s.heap
    requires ChoiceOk(c, p, e.event, x) && InRange(p, e.event, x) && t == Handle(c, p, e.event, x)
    ensures RoutedOk(t)
  {
    if e.event.KvArrived? {
      FiredPaired(s, e);
    }
    OthersMove(c, p, loc, who, s, e.event, x, t);
    RoutedNext(s, t);
  }

  /** Whatever fires, every live request stays on the way to its own decode worker. */
  lemma FireRoutes(c: Config, s: Sim, loc: Places, who: Clients, e: Scheduled, x: Choice, t: Sim)
    requires ConfigOk(c) && Settled(c, s, loc, who) && Fires(c, s, e, x, t) && RoutedOk(s)
    ensures RoutedOk(t)
  {
    var p := Popped(s, e);
    PopKeeps(c, s, loc, who, e);
    PoppedMoves(s, e);
    if e.event.Arrival? {
      ArrivalFireRoutes(c, s, p, loc, who, e.event.client, x, t);
    } else {
      OtherFireRoutes(c, s, p, loc, who, e, x, t);
    }
  }

  lemma {:induction false} ReleasedRouted(c: Config, n: nat)
    ensures RoutedOk(Released(c, n)) && Released(c, n).reqs == map[]
  {
    if n > 0 {
      ReleasedRouted(c, n - 1);
    }
  }

  /** Over every run, whatever transfer, queue or batch holds a live request is on the decode worker that the
      router named for it. */
  lemma {:induction false} RunsAreRouted(c: Config, states: seq<Sim>, events: seq<Scheduled>, s: Sim)
    requires ConfigOk(c) && IsTrace(c, states, events) && s == states[|events|]
    ensures RoutedOk(s)
    decreases |events|
  {
    var n := |events|;
    if n == 0 {
      ReleasedRouted(c, c.clients);
    } else {
      var r, e := states[n - 1], events[n - 1];
      TraceFront(c, states, events, n - 1);
      RunsAreRouted(c, states[..n], events[..n - 1], r);
      NextRouted(c, states, events, n, r, e, s);
    }
  }

  lemma NextRouted(
      c: Config, states: seq<Sim>, events: seq<Scheduled>, n: nat, r: Sim, e: Scheduled, s: Sim)
    requires ConfigOk(c) && IsTrace(c, states, events) && n == |events| > 0
    requires r == states[n - 1] && e == events[n - 1] && s == states[n] && RoutedOk(r)
    ensures RoutedOk(s)
  {
    var loc, who := BeforeLast(c, states, events, n, r);
    var x := LastFires(c, states, events, n, r, e, s);
    FireRoutes(c, r, loc, who, e, x, s);
  }
}
