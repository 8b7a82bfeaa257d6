/** Whole runs of the simulator: conservation, no stalls, bounded length. */
module SimRuns {
  import opened Common
  import opened Cost
  import opened PrefillState
  import PrefillLaws
  import PrefillRuns
  import opened DecodeState
  import opened SimState
  import opened SimInvariant
  import opened SimPrefill
  import opened SimTransfer
  import opened SimDecode
  import opened SimHandlers

  // ------------------------------------------------------------------ firing

  /** The router names workers that exist and leaves tokens to compute; the batch is walked in some
      order of its table. */
  ghost predicate ChoiceOk(c: Config, s: Sim, e: Event, x: Choice) {
    match e
    case Arrival(_) =>
      x.route.prefill < c.prefillWorkers && x.route.decode < c.decodeWorkers && x.route.hit < c.isl
    case DecodeStep(w) => w < |s.decode| ==> Lists(x.keys, AdmitAll(c, s, w).decode[w].sched.running)
    case PrefillDone(_) => true
    case KvArrived(_, _) => true
  }

  /** The earliest event fires and its handler runs. */
  ghost predicate Fires(c: Config, s: Sim, e: Scheduled, x: Choice, t: Sim) {
    var p := Popped(s, e);
    && c.prefillCurve.Valid() && Earliest(e, s.heap)
    && ChoiceOk(c, p, e.event, x) && InRange(p, e.event, x)
    && t == Handle(c, p, e.event, x)
  }

  /** What firing `e` leaves pending: other events, events a delay later, and, when KV landed, perhaps
      the step of the worker it landed on. */
  ghost predicate Follows(heap: set<Scheduled>, was: set<Scheduled>, e: Scheduled, delay: real) {
    forall x | x in heap ::
      || (x in was && x != e)
      || x.at >= e.at + delay
      || (e.event.KvArrived? && x.event == DecodeStep(e.event.worker))
  }

  lemma HandleKeeps(c: Config, s: Sim, loc: Places, who: Clients, e: Event, x: Choice)
    returns (loc': Places, who': Clients)
    requires ConfigOk(c) && Base(c, s, loc, who, {e}) && AllSettled(loc) && Served(c, s)
    requires ChoiceOk(c, s, e, x)
    ensures InRange(s, e, x)
    ensures var t := Handle(c, s, e, x);
      && Base(c, t, loc', who', {}) && AllSettled(loc') && Served(c, t) && t.now == s.now
      && if e.KvArrived? then NothingBeforeBut(t.heap, s.heap, s.now + c.transferMs, e.worker)
         else NothingBefore(t.heap, s.heap, s.now + Delay(c))
  {
    who' := who;
    WorkersKnown(c, s, loc, who, e);
    match e
    case Arrival(k) => loc', who' := ArrivalKeeps(c, s, loc, who, k, x.route);
    case PrefillDone(w) => loc' := PrefillDoneKeeps(c, s, loc, who, w);
    case KvArrived(id, w) => loc' := KvArrivedKeeps(c, s, loc, who, id, w);
    case DecodeStep(w) => loc', who' := DecodeStepKeeps(c, s, loc, who, w, x.steer, x.keys);
  }

  lemma WorkersKnown(c: Config, s: Sim, loc: Places, who: Clients, e: Event)
    requires Base(c, s, loc, who, {e})
    ensures |s.prefill| == c.prefillWorkers && |s.decode| == c.decodeWorkers
    ensures e.PrefillDone? ==> e.worker < |s.prefill|
    ensures e.KvArrived? || e.DecodeStep? ==> e.worker < |s.decode|
  {
    assert e in Events(s.heap) + {e};
    if e.KvArrived? {
      LiftKeeps(c, s, loc, who, e.id, e.worker);
    }
  }

  lemma PoppedServed(c: Config, s: Sim, e: Scheduled)
    requires Served(c, s)
    ensures Served(c, Popped(s, e))
  {
  }

  lemma FollowsFrom(heap: set<Scheduled>, was: set<Scheduled>, e: Scheduled, delay: real, later: real)
    requires delay <= later
    requires if e.event.KvArrived? then NothingBeforeBut(heap, was - {e}, e.at + later, e.event.worker)
             else NothingBefore(heap, was - {e}, e.at + delay)
    ensures Follows(heap, was, e, delay)
  {
  }

  /** Every event leaves the simulator settled, moves time forward if at all, and, but for waking a
      decode worker, schedules nothing sooner than the minimum delay. */
  lemma FireKeeps(c: Config, s: Sim, loc: Places, who: Clients, e: Scheduled, x: Choice, t: Sim)
    returns (loc': Places, who': Clients)
    requires ConfigOk(c) && Settled(c, s, loc, who) && Fires(c, s, e, x, t)
    ensures Settled(c, t, loc', who')
    ensures t.now == e.at >= s.now && Follows(t.heap, s.heap, e, Delay(c))
  {
    PopKeeps(c, s, loc, who, e);
    PoppedServed(c, s, e);
    loc', who' := HandleKeeps(c, Popped(s, e), loc, who, e.event, x);
    DelayIsLeast(c);
    FollowsFrom(t.heap, s.heap, e, Delay(c), c.transferMs);
  }

  // --------------------------------------------------------------- the start

  ghost function Unreleased(c: Config, n: nat): set<Event> {
    set k: nat | n <= k < c.clients :: Arrival(k)
  }

  /** The first `n` clients, all waiting. */
  function AllWaiting(n: nat): (r: Clients)
    ensures forall k: nat :: k in r <==> k < n
    ensures forall k | k in r :: r[k] == Waiting
  {
    if n == 0 then map[] else AllWaiting(n - 1)[n - 1 := Waiting]
  }

  lemma EmptyPrefill(c: Config, prefill: seq<PrefillWorker>, evs: set<Event>)
    requires PrefillRuns.Serves(c.tuning) && |prefill| == c.prefillWorkers
    requires forall w: nat | w < |prefill| ::
      prefill[w] == PrefillWorker(Scheduler(c.tuning, map[], [], {}), false, None)
    requires forall e | e in evs :: e.Arrival?
    ensures PrefillOk(c, prefill, map[], evs)
    ensures forall w: nat | w < |prefill| :: PrefillServed(prefill[w])
  {
    forall w: nat | w < |prefill| ensures PrefillWorkerOk(prefill[w], w, map[]) {
    }
  }

  lemma EmptyDecode(c: Config, decode: seq<DecodeWorker>, evs: set<Event>)
    requires c.watermark <= c.totalBlocks && |decode| == c.decodeWorkers
    requires c.decode.running == map[] && c.decode.tokensPerStep >= 1
    requires forall w: nat | w < |decode| ::
      decode[w] == DecodeWorker(c.decode, [], false, c.totalBlocks, map[])
    requires forall e | e in evs :: e.Arrival?
    ensures DecodeOk(c, decode, map[], evs)
    ensures forall w: nat | w < |decode| :: DecodeServed(decode[w])
  {
    forall w: nat | w < |decode| ensures DecodeWorkerOk(c, decode[w], w, map[]) {
      EmptyWorker(c, w);
    }
  }

  lemma EmptyWorker(c: Config, w: nat)
    requires c.watermark <= c.totalBlocks
    requires c.decode.running == map[] && c.decode.tokensPerStep >= 1
    ensures DecodeWorkerOk(c, DecodeWorker(c.decode, [], false, c.totalBlocks, map[]), w, map[])
  {
    EmptyBalance(DecodeWorker(c.decode, [], false, c.totalBlocks, map[]), Reserve(c), c.watermark);
  }

  lemma EmptyBalance(d: DecodeWorker, need: nat, low: nat)
    requires d.held == map[] && low <= d.free
    ensures Balanced(d, need, d.free, low)
  {
  }

  lemma EmptyTransfers(c: Config, evs: set<Event>)
    requires forall e | e in evs :: e.Arrival?
    ensures TransfersOk(c, 0, [], map[], evs)
  {
    assert InFlight(map[]) == {};
  }

  lemma EmptyBase(c: Config)
    requires ConfigOk(c)
    ensures Base(c, Empty(c), map[], AllWaiting(c.clients), Unreleased(c, 0))
    ensures Served(c, Empty(c))
  {
    var s, hand := Empty(c), Unreleased(c, 0);
    EmptyPrefill(c, s.prefill, hand);
    EmptyDecode(c, s.decode, hand);
    EmptyTransfers(c, hand);
    assert Events(s.heap) + hand == hand;
    assert ClientsOk(c, s.reqs, AllWaiting(c.clients), hand);
  }

  lemma PushServed(c: Config, s: Sim, at: real, e: Event)
    requires Served(c, s)
    ensures Served(c, Push(s, at, e))
  {
  }

  lemma ReleaseNext(c: Config, n: nat, s: Sim, t: Sim)
    requires ConfigOk(c) && n < c.clients && s.now == 0.0 && t == Push(s, 0.0, Arrival(n))
    requires Base(c, s, map[], AllWaiting(c.clients), Unreleased(c, n)) && Served(c, s)
    ensures Base(c, t, map[], AllWaiting(c.clients), Unreleased(c, n + 1))
    ensures Served(c, t) && t.now == 0.0
  {
    UnreleasedNext(c, n);
    PushFromHand(c, s, map[], AllWaiting(c.clients), Unreleased(c, n), 0.0, Arrival(n));
    PushServed(c, s, 0.0, Arrival(n));
  }

  lemma UnreleasedNext(c: Config, n: nat)
    requires n < c.clients
    ensures Arrival(n) in Unreleased(c, n) && Unreleased(c, n) - {Arrival(n)} == Unreleased(c, n + 1)
  {
  }

  lemma {:induction false} ReleasedBase(c: Config, n: nat, s: Sim)
    requires ConfigOk(c) && n <= c.clients && s == Released(c, n)
    ensures Base(c, s, map[], AllWaiting(c.clients), Unreleased(c, n))
    ensures Served(c, s) && s.now == 0.0
    decreases n
  {
    if n == 0 {
      EmptyBase(c);
    } else {
      var r := Released(c, n - 1);
      ReleasedBase(c, n - 1, r);
      ReleaseNext(c, n - 1, r, s);
    }
  }

  lemma StartSettled(c: Config)
    requires ConfigOk(c)
    ensures Settled(c, Start(c), map[], AllWaiting(c.clients)) && Start(c).now == 0.0
  {
    ReleasedBase(c, c.clients, Start(c));
    assert Unreleased(c, c.clients) == {};
  }

  // ---------------------------------------------------------------- counting

  /** No event is pending twice. */
  ghost predicate NoTwins(heap: set<Scheduled>) {
    forall x, y | x in heap && y in heap && x.event == y.event :: x == y
  }

  ghost predicate Injective(h: set<Scheduled>, f: Event -> nat) {
    forall x, y | x in h && y in h && f(x.event) == f(y.event) :: x == y
  }

  ghost function Image(h: set<Scheduled>, f: Event -> nat): set<nat> { set x | x in h :: f(x.event) }

  lemma {:induction false} ImageCount(h: set<Scheduled>, f: Event -> nat)
    requires Injective(h, f)
    ensures |Image(h, f)| == |h|
    decreases |h|
  {
    if h != {} {
      var x :| x in h;
      ImageCount(h - {x}, f);
      assert Image(h, f) == Image(h - {x}, f) + {f(x.event)};
      assert f(x.event) !in Image(h - {x}, f);
    }
  }

  lemma SubsetSize<T>(a: set<T>, b: set<T>)
    requires a <= b
    ensures |a| <= |b|
  {
    assert b == a + (b - a);
  }

  function UpTo(n: nat): (r: set<nat>)
    ensures |r| == n && forall k: nat :: k in r <==> k < n
  {
    if n == 0 then {} else UpTo(n - 1) + {n - 1}
  }

  lemma CountBelow(h: set<Scheduled>, f: Event -> nat, n: nat)
    requires Injective(h, f) && forall x | x in h :: f(x.event) < n
    ensures |h| <= n
  {
    ImageCount(h, f);
    SubsetSize(Image(h, f), UpTo(n));
  }

  ghost function Arrivals(h: set<Scheduled>): set<Scheduled> { set x | x in h && x.event.Arrival? }
  ghost function Dones(h: set<Scheduled>): set<Scheduled> { set x | x in h && x.event.PrefillDone? }
  ghost function Kvs(h: set<Scheduled>): set<Scheduled> { set x | x in h && x.event.KvArrived? }
  ghost function Ticks(h: set<Scheduled>): set<Scheduled> { set x | x in h && x.event.DecodeStep? }

  lemma HeapParts(h: set<Scheduled>)
    ensures |h| == |Arrivals(h)| + |Dones(h)| + |Kvs(h)| + |Ticks(h)|
  {
    var a, b, k, d := Arrivals(h), Dones(h), Kvs(h), Ticks(h);
    assert h == a + b + k + d;
    assert |a + b| == |a| + |b| && |a + b + k| == |a + b| + |k|;
    assert |a + b + k + d| == |a + b + k| + |d|;
  }

  function ClientOf(e: Event): nat { if e.Arrival? then e.client else 0 }
  function WorkerOf(e: Event): nat { if e.Arrival? then 0 else e.worker }
  function IdOf(e: Event): nat { if e.KvArrived? then e.id else 0 }

  lemma InHeap(h: set<Scheduled>)
    ensures forall x | x in h :: x.event in Events(h) + {}
  {
  }

  /** Every busy transfer buffer has one landing pending. */
  lemma BusyIsInFlight(c: Config, s: Sim, loc: Places, who: Clients)
    requires Base(c, s, loc, who, {})
    ensures s.xferBusy == |Kvs(s.heap)| <= Buffers(c)
  {
    PlusNone(Events(s.heap));
    LandingsAreInFlight(c, s.xferBusy, s.xferQueue, loc, s.heap);
  }

  lemma LandingsAreInFlight(
      c: Config, busy: nat, queue: seq<(nat, nat)>, loc: Places, heap: set<Scheduled>)
    requires TransfersOk(c, busy, queue, loc, Events(heap)) && NoTwins(heap)
    ensures busy == |Kvs(heap)| <= Buffers(c)
  {
    var h := Kvs(heap);
    forall x | x in h ensures Located(loc, x.event.id, AtKv(x.event.worker)) {
      assert KvArrived(x.event.id, x.event.worker) in Events(heap);
    }
    assert Injective(h, IdOf);
    forall id ensures id in Image(h, IdOf) <==> id in InFlight(loc) {
      if id in InFlight(loc) {
        var e := KvArrived(id, loc[id].worker);
        assert Located(loc, id, AtKv(loc[id].worker));
        assert e in Events(heap);
        var x :| x in heap && x.event == e;
        assert x in h;
      }
    }
    ImageCount(h, IdOf);
    assert Image(h, IdOf) == InFlight(loc);
  }

  lemma ArrivalsBound(c: Config, s: Sim, loc: Places, who: Clients)
    requires Base(c, s, loc, who, {})
    ensures |Arrivals(s.heap)| <= c.clients
  {
    var h, evs := Arrivals(s.heap), Events(s.heap) + {};
    InHeap(s.heap);
    forall x | x in h ensures ClientOf(x.event) < c.clients {
      assert Arrival(x.event.client) in evs;
    }
    assert Injective(h, ClientOf);
    CountBelow(h, ClientOf, c.clients);
  }

  lemma DonesBound(heap: set<Scheduled>, n: nat)
    requires NoTwins(heap) && forall w: nat | PrefillDone(w) in Events(heap) :: w < n
    ensures |Dones(heap)| <= n
  {
    var h := Dones(heap);
    forall x | x in h ensures WorkerOf(x.event) < n {
      assert PrefillDone(x.event.worker) in Events(heap);
    }
    assert Injective(h, WorkerOf);
    CountBelow(h, WorkerOf, n);
  }

  lemma TicksBound(heap: set<Scheduled>, n: nat)
    requires NoTwins(heap) && forall w: nat | DecodeStep(w) in Events(heap) :: w < n
    ensures |Ticks(heap)| <= n
  {
    var h := Ticks(heap);
    forall x | x in h ensures WorkerOf(x.event) < n {
      assert DecodeStep(x.event.worker) in Events(heap);
    }
    assert Injective(h, WorkerOf);
    CountBelow(h, WorkerOf, n);
  }

  lemma WorkersPend(c: Config, s: Sim, loc: Places, who: Clients)
    requires Base(c, s, loc, who, {})
    ensures NoTwins(s.heap)
    ensures forall w: nat | PrefillDone(w) in Events(s.heap) :: w < c.prefillWorkers
    ensures forall w: nat | DecodeStep(w) in Events(s.heap) :: w < c.decodeWorkers
  {
    PlusNone(Events(s.heap));
  }

  /** The most that can be pending at once, landings counted twice. */
  function Limit(c: Config): nat {
    c.clients + c.prefillWorkers + c.decodeWorkers + 2 * Buffers(c)
  }

  lemma HeapBound(c: Config, s: Sim, loc: Places, who: Clients)
    requires Base(c, s, loc, who, {})
    ensures |Arrivals(s.heap)| <= c.clients && |Dones(s.heap)| <= c.prefillWorkers
    ensures |Kvs(s.heap)| <= Buffers(c) && |Ticks(s.heap)| <= c.decodeWorkers
    ensures |s.heap| + |Kvs(s.heap)| <= Limit(c)
  {
    HeapParts(s.heap);
    ArrivalsBound(c, s, loc, who);
    WorkersPend(c, s, loc, who);
    DonesBound(s.heap, c.prefillWorkers);
    TicksBound(s.heap, c.decodeWorkers);
    BusyIsInFlight(c, s, loc, who);
  }

  // ---------------------------------------------------------------- no stall

  /** The pending event that a request in this place waits for: the end of its worker's batch, some
      landing that frees a buffer, its own landing, or its worker's next step. */
  ghost predicate Awaits(s: Sim, id: nat, p: Place) {
    match p
    case AtPrefill(w) => PrefillDone(w) in Events(s.heap)
    case AtXfer => exists x :: x in s.heap && x.event.KvArrived?
    case AtKv(w) => KvArrived(id, w) in Events(s.heap)
    case AtPending(w) => DecodeStep(w) in Events(s.heap)
    case AtRunning(w) => DecodeStep(w) in Events(s.heap)
    case InHand => false
    case Leaving(_) => false
  }

  /** Every live request has the event pending that moves it, or frees it to move. */
  lemma LiveHasEvent(c: Config, s: Sim, loc: Places, who: Clients, id: nat)
    requires Settled(c, s, loc, who) && id in loc
    ensures Awaits(s, id, loc[id])
  {
    var evs := Events(s.heap) + {};
    PlusNone(Events(s.heap));
    match loc[id]
    case AtPrefill(w) =>
      assert Located(loc, id, AtPrefill(w));
      PrefillWaits(c, s.prefill, loc, evs, id, w);
    case AtXfer =>
      assert Located(loc, id, AtXfer);
      assert s.xferQueue != [];
      assert s.xferBusy >= 1;
      BusyIsInFlight(c, s, loc, who);
      assert Kvs(s.heap) != {};
      var x :| x in Kvs(s.heap);
    case AtKv(w) =>
      assert Located(loc, id, AtKv(w));
      assert KvArrived(id, w) in evs;
    case AtPending(w) =>
      assert Located(loc, id, AtPending(w));
      DecodeWaits(c, s.decode, loc, evs, id, w);
    case AtRunning(w) =>
      assert Located(loc, id, AtRunning(w));
      DecodeWaits(c, s.decode, loc, evs, id, w);
    case InHand =>
      assert false;
    case Leaving(_) =>
      assert false;
  }

  lemma PrefillWaits(
      c: Config, prefill: seq<PrefillWorker>, loc: Places, evs: set<Event>, id: nat, w: nat)
    requires PrefillOk(c, prefill, loc, evs) && Located(loc, id, AtPrefill(w))
    requires w < |prefill| && PrefillServed(prefill[w])
    ensures PrefillDone(w) in evs
  {
    assert PrefillWorkerOk(prefill[w], w, loc);
    assert id in prefill[w].sched.queue;
  }

  lemma DecodeWaits(
      c: Config, decode: seq<DecodeWorker>, loc: Places, evs: set<Event>, id: nat, w: nat)
    requires DecodeOk(c, decode, loc, evs) && w < |decode| && DecodeServed(decode[w])
    requires Located(loc, id, AtPending(w)) || Located(loc, id, AtRunning(w))
    ensures DecodeStep(w) in evs
  {
    assert DecodeWorkerOk(c, decode[w], w, loc);
  }

  // ------------------------------------------------------------ conservation

  /** The state meets the whole invariant, and nothing that could run is at rest. */
  ghost predicate InOrder(c: Config, s: Sim) {
    exists loc: Places, who: Clients :: Settled(c, s, loc, who)
  }

  /** Closed-loop conservation, read off the state: every client waits for its release or has one live
      request; every live request is in exactly one queue, event or batch, whose event is pending; the
      pending events are those of the busy workers; the ledger, the transfer buffers and the blocks
      balance; and every scored request got every token it asked for. */
  ghost predicate Conserved(c: Config, s: Sim) {
    && NoTwins(s.heap) && WorkersWait(c, s)
    && |s.reqs| + |s.outcomes| == s.issued
    && s.xferBusy == |Kvs(s.heap)| <= Buffers(c)
    && (forall d | d in s.decode :: BlocksOk(c, d) && d.held.Keys == d.sched.running.Keys)
    && (forall o | o in s.outcomes :: OutcomeOk(c, o))
    && exists loc: Places, who: Clients ::
      && ClientsOk(c, s.reqs, who, Events(s.heap))
      && loc.Keys == s.reqs.Keys && PlacedAsFound(s, loc)
      && forall id | id in loc :: Stands(s, id, loc[id]) && Awaits(s, id, loc[id])
  }

  /** A worker is busy exactly when the end of its batch, or its next step, is pending; no other worker
      has an event pending. */
  ghost predicate WorkersWait(c: Config, s: Sim) {
    && |s.prefill| == c.prefillWorkers && |s.decode| == c.decodeWorkers
    && (forall w: nat :: PrefillDone(w) in Events(s.heap) <==> w < |s.prefill| && s.prefill[w].busy)
    && (forall w: nat :: DecodeStep(w) in Events(s.heap) <==> w < |s.decode| && s.decode[w].stepping)
    && forall p | p in s.prefill :: p.busy <==> p.batch.Some?
  }

  /** The place is a real one, and the request is there. */
  ghost predicate Stands(s: Sim, id: nat, p: Place) {
    match p
    case AtPrefill(w) => w < |s.prefill| && id in s.prefill[w].sched.queue
    case AtXfer => id in Heads(s.xferQueue)
    case AtKv(w) => w < |s.decode| && KvArrived(id, w) in Events(s.heap)
    case AtPending(w) => w < |s.decode| && id in s.decode[w].pending
    case AtRunning(w) => w < |s.decode| && id in s.decode[w].sched.running
    case InHand => false
    case Leaving(_) => false
  }

  /** Whatever any queue, event or batch holds is placed there, and no queue holds it twice. */
  ghost predicate PlacedAsFound(s: Sim, loc: Places) {
    && (forall w: nat, id | w < |s.prefill| && id in s.prefill[w].sched.queue ::
          Located(loc, id, AtPrefill(w)))
    && (forall id | id in Heads(s.xferQueue) :: Located(loc, id, AtXfer))
    && (forall id, w | KvArrived(id, w) in Events(s.heap) :: Located(loc, id, AtKv(w)))
    && (forall w: nat, id | w < |s.decode| && id in s.decode[w].pending ::
          Located(loc, id, AtPending(w)))
    && (forall w: nat, id | w < |s.decode| && id in s.decode[w].sched.running ::
          Located(loc, id, AtRunning(w)))
    && Distinct(Heads(s.xferQueue))
    && (forall w: nat | w < |s.decode| :: Distinct(s.decode[w].pending))
  }

  lemma PrefillPlaces(
      c: Config, prefill: seq<PrefillWorker>, loc: Places, evs: set<Event>)
    requires PrefillOk(c, prefill, loc, evs)
    ensures forall w: nat, id | w < |prefill| ::
      id in prefill[w].sched.queue <==> Located(loc, id, AtPrefill(w))
    ensures forall id, w: nat | Located(loc, id, AtPrefill(w)) :: w < |prefill|
    ensures forall w: nat :: PrefillDone(w) in evs <==> w < |prefill| && prefill[w].busy
    ensures forall p | p in prefill :: p.busy <==> p.batch.Some?
  {
    forall w: nat | w < |prefill| ensures PrefillWorkerOk(prefill[w], w, loc) {
    }
  }

  lemma DecodePlaces(c: Config, decode: seq<DecodeWorker>, loc: Places, evs: set<Event>)
    requires DecodeOk(c, decode, loc, evs) && AllSettled(loc)
    ensures forall w: nat, id | w < |decode| ::
      && (id in decode[w].pending <==> Located(loc, id, AtPending(w)))
      && (id in decode[w].sched.running <==> Located(loc, id, AtRunning(w)))
    ensures forall id, w: nat | Located(loc, id, AtPending(w)) || Located(loc, id, AtRunning(w)) ::
      w < |decode|
    ensures forall w: nat :: DecodeStep(w) in evs <==> w < |decode| && decode[w].stepping
    ensures forall w: nat | w < |decode| :: Distinct(decode[w].pending)
    ensures forall d | d in decode :: BlocksOk(c, d) && d.held.Keys == d.sched.running.Keys
  {
    forall w: nat | w < |decode|
      ensures DecodeWorkerOk(c, decode[w], w, loc)
      ensures decode[w].held.Keys == decode[w].sched.running.Keys
    {
      var d := decode[w];
      assert DecodeWorkerOk(c, d, w, loc);
      forall id ensures id in d.held <==> id in d.sched.running {
        assert !Located(loc, id, Leaving(w));
      }
    }
  }

  lemma SettledPlaces(c: Config, s: Sim, loc: Places, who: Clients)
    requires Settled(c, s, loc, who)
    ensures PlacedAsFound(s, loc) && WorkersWait(c, s) && NoTwins(s.heap)
    ensures loc.Keys == s.reqs.Keys && ClientsOk(c, s.reqs, who, Events(s.heap))
    ensures |s.reqs| + |s.outcomes| == s.issued && forall o | o in s.outcomes :: OutcomeOk(c, o)
    ensures forall d | d in s.decode :: BlocksOk(c, d) && d.held.Keys == d.sched.running.Keys
  {
    PlusNone(Events(s.heap));
    PrefillPlaces(c, s.prefill, loc, Events(s.heap));
    DecodePlaces(c, s.decode, loc, Events(s.heap));
  }

  lemma LiveStands(c: Config, s: Sim, loc: Places, who: Clients, id: nat)
    requires Settled(c, s, loc, who) && id in loc
    ensures Stands(s, id, loc[id])
  {
    PlusNone(Events(s.heap));
    PrefillPlaces(c, s.prefill, loc, Events(s.heap));
    DecodePlaces(c, s.decode, loc, Events(s.heap));
    assert Located(loc, id, loc[id]);
  }

  lemma SettledConserves(c: Config, s: Sim, loc: Places, who: Clients)
    requires Settled(c, s, loc, who)
    ensures Conserved(c, s)
  {
    SettledPlaces(c, s, loc, who);
    BusyIsInFlight(c, s, loc, who);
    forall id | id in loc ensures Stands(s, id, loc[id]) && Awaits(s, id, loc[id]) {
      LiveStands(c, s, loc, who, id);
      LiveHasEvent(c, s, loc, who, id);
    }
  }

  /** With a client there is always an event to come. */
  lemma NeverStalls(c: Config, s: Sim, loc: Places, who: Clients)
    requires Settled(c, s, loc, who) && c.clients >= 1
    ensures s.heap != {}
  {
    assert 0 in who;
    match who[0]
    case Waiting =>
      assert Arrival(0) in Events(s.heap) + {};
    case Live(id) =>
      LiveHasEvent(c, s, loc, who, id);
  }

  lemma {:induction false} EarliestExists(heap: set<Scheduled>) returns (e: Scheduled)
    requires heap != {}
    ensures Earliest(e, heap)
    decreases |heap|
  {
    var x :| x in heap;
    if heap == {x} {
      e := x;
    } else {
      var y := EarliestExists(heap - {x});
      e := if Before(x, y) then x else y;
      forall z | z in heap && z != e ensures !Before(z, e) {
        assert z == x || z == y || (z in heap - {x} && !Before(z, y));
      }
    }
  }

  /** Insertion numbers leave no choice of what fires next. */
  lemma EarliestIsUnique(c: Config, s: Sim, loc: Places, who: Clients, a: Scheduled, b: Scheduled)
    requires Base(c, s, loc, who, {}) && Earliest(a, s.heap) && Earliest(b, s.heap)
    ensures a == b
  {
  }

  lemma {:induction false} Listing(ids: set<nat>) returns (keys: seq<nat>)
    ensures Distinct(keys) && forall id :: id in keys <==> id in ids
    decreases |ids|
  {
    if ids == {} {
      keys := [];
    } else {
      var id :| id in ids;
      var rest := Listing(ids - {id});
      keys := [id] + rest;
    }
  }

  /** No handler gets stuck: whatever is earliest can fire. */
  lemma SomethingFires(c: Config, s: Sim, loc: Places, who: Clients)
    returns (e: Scheduled, x: Choice, t: Sim)
    requires ConfigOk(c) && c.isl >= 1 && Settled(c, s, loc, who) && s.heap != {}
    ensures Fires(c, s, e, x, t)
  {
    e := EarliestExists(s.heap);
    var p := Popped(s, e);
    PopKeeps(c, s, loc, who, e);
    WorkersKnown(c, p, loc, who, e.event);
    x := SomeChoice(c, p, e.event);
    t := Handle(c, p, e.event, x);
  }

  lemma SomeChoice(c: Config, s: Sim, e: Event) returns (x: Choice)
    requires ConfigOk(c) && c.isl >= 1
    requires |s.prefill| == c.prefillWorkers && |s.decode| == c.decodeWorkers
    requires e.PrefillDone? ==> e.worker < |s.prefill|
    requires e.KvArrived? || e.DecodeStep? ==> e.worker < |s.decode|
    ensures ChoiceOk(c, s, e, x) && InRange(s, e, x)
  {
    var keys: seq<nat> := [];
    if e.DecodeStep? {
      keys := Listing(AdmitAll(c, s, e.worker).decode[e.worker].sched.running.Keys);
    }
    x := Choice(Route(0, 0, 0), 0.0, keys);
  }

  // ------------------------------------------------------------- termination

  lemma QuotientMinus(x: real, y: real, d: real)
    requires d > 0.0
    ensures (x - y) / d == x / d - y / d
    ensures d / d == 1.0
  {
    var p, q := x / d, y / d;
    assert p * d == x && q * d == y;
    assert (p - q) * d == p * d - q * d;
    QuotientIs(x - y, p - q, d);
  }

  lemma QuotientIs(x: real, q: real, d: real)
    requires d > 0.0 && x == q * d
    ensures x / d == q
  {
  }

  lemma FloorQuotient(x: real, d: real)
    requires x >= 0.0 && d > 0.0
    ensures (x / d).Floor >= 0
    ensures x >= d ==> (x / d).Floor == ((x - d) / d).Floor + 1
  {
    QuotientNonNegative(x, d);
    QuotientMinus(x, d, d);
  }

  /** How many minimum delays still fit between `edge` and the horizon. */
  function Slots(c: Config, edge: real): nat
    requires ConfigOk(c)
  {
    DelayIsLeast(c);
    if edge > c.horizon then 0
    else
      FloorQuotient(c.horizon - edge, Delay(c));
      1 + ((c.horizon - edge) / Delay(c)).Floor
  }

  lemma QuotientMonotone(x: real, y: real, d: real)
    requires x <= y && d > 0.0
    ensures (x / d).Floor <= (y / d).Floor
  {
    QuotientNonNegative(y - x, d);
    QuotientMinus(y, x, d);
  }

  lemma SlotsDrop(c: Config, edge: real, later: real)
    requires ConfigOk(c) && edge <= c.horizon && later >= edge + Delay(c)
    ensures Slots(c, later) < Slots(c, edge)
  {
    DelayIsLeast(c);
    FloorQuotient(c.horizon - edge, Delay(c));
    if later <= c.horizon {
      QuotientMonotone(c.horizon - later, c.horizon - edge - Delay(c), Delay(c));
    }
  }

  ghost function Soon(heap: set<Scheduled>, edge: real): set<Scheduled> {
    set x | x in heap && x.at < edge
  }

  /** Events due before `edge`, landings counted twice for the step they may bring on. */
  ghost function Weight(heap: set<Scheduled>, edge: real): nat {
    |Soon(heap, edge)| + |Kvs(Soon(heap, edge))|
  }

  lemma WeightBound(c: Config, s: Sim, loc: Places, who: Clients, edge: real)
    requires Base(c, s, loc, who, {})
    ensures Weight(s.heap, edge) <= Limit(c)
  {
    HeapBound(c, s, loc, who);
    SubsetSize(Soon(s.heap, edge), s.heap);
    SubsetSize(Kvs(Soon(s.heap, edge)), Kvs(s.heap));
  }

  /** Firing an event due before `edge` lowers the weight when a minimum delay reaches past it. */
  lemma WeightDrops(heap: set<Scheduled>, was: set<Scheduled>, e: Scheduled, delay: real, edge: real)
    requires Follows(heap, was, e, delay) && NoTwins(heap) && e in was
    requires e.at < edge <= e.at + delay
    ensures Weight(heap, edge) < Weight(was, edge)
  {
    var before, after := Soon(was, edge), Soon(heap, edge);
    if e.event.KvArrived? {
      var woken := set x | x in after && x.event == DecodeStep(e.event.worker);
      AtMostOne(heap, woken, DecodeStep(e.event.worker));
      SubsetSize(after, (before - {e}) + woken);
      assert |(before - {e}) + woken| <= |before - {e}| + |woken|;
      assert Kvs(before) - {e} == Kvs(before - {e});
      SubsetSize(Kvs(after), Kvs(before) - {e});
    } else {
      SubsetSize(after, before - {e});
      SubsetSize(Kvs(after), Kvs(before));
    }
  }

  lemma AtMostOne(heap: set<Scheduled>, some: set<Scheduled>, e: Event)
    requires NoTwins(heap) && some <= heap && forall x | x in some :: x.event == e
    ensures |some| <= 1
  {
    if x :| x in some {
      assert some == {x};
    }
  }

  /** Room for events: slots left, times what can be pending, plus what is due in this one. */
  ghost function Fuel(c: Config, heap: set<Scheduled>, edge: real): nat
    requires ConfigOk(c)
  {
    Slots(c, edge) * (Limit(c) + 1) + Weight(heap, edge)
  }

  lemma FuelLess(slots: nat, slots': nat, limit: nat, weight: nat, weight': nat)
    requires (slots' < slots && weight' <= limit) || (slots' == slots && weight' < weight)
    ensures slots' * (limit + 1) + weight' < slots * (limit + 1) + weight
  {
    if slots' < slots {
      assert slots * (limit + 1) >= (slots' + 1) * (limit + 1) == slots' * (limit + 1) + limit + 1;
    }
  }

  lemma BurnWithin(
      c: Config, heap: set<Scheduled>, was: set<Scheduled>, e: Scheduled, edge: real)
    requires ConfigOk(c) && NoTwins(heap) && e in was && Follows(heap, was, e, Delay(c))
    requires e.at < edge <= e.at + Delay(c)
    ensures Fuel(c, heap, edge) < Fuel(c, was, edge)
  {
    WeightDrops(heap, was, e, Delay(c), edge);
  }

  lemma BurnBeyond(
      c: Config, heap: set<Scheduled>, was: set<Scheduled>, edge: real, later: real)
    requires ConfigOk(c) && edge <= c.horizon && later >= edge + Delay(c)
    requires Weight(heap, later) <= Limit(c)
    ensures Fuel(c, heap, later) < Fuel(c, was, edge)
  {
    SlotsDrop(c, edge, later);
    FuelLess(Slots(c, edge), Slots(c, later), Limit(c), Weight(was, edge), Weight(heap, later));
  }

  lemma SettledNoTwins(c: Config, s: Sim, loc: Places, who: Clients)
    requires Base(c, s, loc, who, {})
    ensures NoTwins(s.heap)
  {
  }

  /** Every event before the horizon uses up fuel. */
  lemma FireBurns(
      c: Config, s: Sim, e: Scheduled, t: Sim, loc: Places, who: Clients, edge: real)
    returns (edge': real)
    requires ConfigOk(c) && Base(c, t, loc, who, {}) && e in s.heap && e.at <= c.horizon
    requires t.now == e.at >= s.now && Follows(t.heap, s.heap, e, Delay(c))
    requires edge <= s.now + Delay(c)
    ensures edge' <= t.now + Delay(c)
    ensures Fuel(c, t.heap, edge') < Fuel(c, s.heap, edge)
  {
    if e.at < edge {
      edge' := edge;
      SettledNoTwins(c, t, loc, who);
      BurnWithin(c, t.heap, s.heap, e, edge);
    } else {
      edge' := e.at + Delay(c);
      WeightBound(c, t, loc, who, edge');
      BurnBeyond(c, t.heap, s.heap, edge, edge');
    }
  }

  /** The most events that can fire before the horizon. */
  function MostEvents(c: Config): nat
    requires ConfigOk(c)
  {
    Slots(c, 0.0) * (Limit(c) + 1)
  }

  // -------------------------------------------------------------------- runs

  /** One event before the horizon. */
  ghost predicate Steps(c: Config, s: Sim, t: Sim) {
    exists e, x :: Fires(c, s, e, x, t) && e.at <= c.horizon
  }

  ghost predicate IsRun(c: Config, states: seq<Sim>) {
    && states != [] && states[0] == Start(c)
    && forall i: nat | i < |states| - 1 :: Steps(c, states[i], states[i + 1])
  }

  lemma RunPrefix(c: Config, states: seq<Sim>, n: nat)
    requires IsRun(c, states) && 0 < n <= |states|
    ensures IsRun(c, states[..n])
  {
    var head := states[..n];
    forall i: nat | i < |head| - 1 ensures Steps(c, head[i], head[i + 1]) {
      assert Steps(c, states[i], states[i + 1]);
    }
  }

  lemma StartFuel(c: Config)
    requires ConfigOk(c)
    ensures Fuel(c, Start(c).heap, 0.0) == MostEvents(c)
  {
    StartSettled(c);
    assert Soon(Start(c).heap, 0.0) == {};
    assert Kvs({}) == {};
  }

  /** After `fired` events the state is settled and that much of the fuel is spent. */
  ghost predicate Underway(
    c: Config, s: Sim, loc: Places, who: Clients, edge: real, fired: nat)
    requires ConfigOk(c)
  {
    && Settled(c, s, loc, who) && edge <= s.now + Delay(c)
    && fired + Fuel(c, s.heap, edge) <= MostEvents(c)
  }

  lemma StartUnderway(c: Config)
    requires ConfigOk(c)
    ensures Underway(c, Start(c), map[], AllWaiting(c.clients), 0.0, 0)
  {
    StartSettled(c);
    StartFuel(c);
    DelayIsLeast(c);
  }

  lemma FireUnderway(
      c: Config, s: Sim, loc: Places, who: Clients, edge: real, fired: nat,
      e: Scheduled, x: Choice, t: Sim) returns (loc': Places, who': Clients, edge': real)
    requires ConfigOk(c) && Underway(c, s, loc, who, edge, fired)
    requires Fires(c, s, e, x, t) && e.at <= c.horizon
    ensures Underway(c, t, loc', who', edge', fired + 1)
    ensures Fuel(c, t.heap, edge') < Fuel(c, s.heap, edge)
  {
    loc', who' := FireKeeps(c, s, loc, who, e, x, t);
    edge' := FireBurns(c, s, e, t, loc', who', edge);
  }

  lemma {:induction false} RunKeeps(c: Config, states: seq<Sim>)
    returns (loc: Places, who: Clients, edge: real)
    requires ConfigOk(c) && IsRun(c, states)
    ensures Underway(c, states[|states| - 1], loc, who, edge, |states| - 1)
    decreases |states|
  {
    var n: nat := |states| - 1;
    if n == 0 {
      StartUnderway(c);
      loc, who, edge := map[], AllWaiting(c.clients), 0.0;
    } else {
      RunPrefix(c, states, n);
      var loc0, who0, edge0 := RunKeeps(c, states[..n]);
      var s, t := states[n - 1], states[n];
      assert Steps(c, s, t);
      var e, x :| Fires(c, s, e, x, t) && e.at <= c.horizon;
      loc, who, edge := FireUnderway(c, s, loc0, who0, edge0, n - 1, e, x, t);
    }
  }

  lemma UnderwayConserves(
      c: Config, s: Sim, loc: Places, who: Clients, edge: real, fired: nat)
    requires ConfigOk(c) && Underway(c, s, loc, who, edge, fired)
    ensures InOrder(c, s) && Conserved(c, s) && Served(c, s) && fired <= MostEvents(c)
    ensures c.clients >= 1 ==> s.heap != {}
  {
    SettledConserves(c, s, loc, who);
    if c.clients >= 1 {
      NeverStalls(c, s, loc, who);
    }
  }

  /** Over every run: the whole invariant holds, so clients, requests, buffers and blocks are conserved
      and nothing that could run is at rest, and with a client there is always an event to come. */
  lemma RunsConserve(c: Config, states: seq<Sim>)
    requires ConfigOk(c) && IsRun(c, states)
    ensures var s := states[|states| - 1];
      && InOrder(c, s) && Conserved(c, s) && Served(c, s)
      && (c.clients >= 1 ==> s.heap != {})
  {
    var loc, who, edge := RunKeeps(c, states);
    UnderwayConserves(c, states[|states| - 1], loc, who, edge, |states| - 1);
  }

  /** Every run is bounded: before the horizon at most `MostEvents` events fire. */
  lemma RunsAreBounded(c: Config, states: seq<Sim>)
    requires ConfigOk(c) && IsRun(c, states)
    ensures |states| - 1 <= MostEvents(c)
  {
    var _, _, _ := RunKeeps(c, states);
  }

  /** Time never goes backwards. */
  lemma TimeMovesForward(c: Config, states: seq<Sim>, i: nat)
    requires ConfigOk(c) && IsRun(c, states) && i < |states| - 1
    ensures states[i].now <= states[i + 1].now <= c.horizon
  {
    var head := states[..i + 1];
    RunPrefix(c, states, i + 1);
    var loc, who, _ := RunKeeps(c, head);
    assert Steps(c, states[i], states[i + 1]);
    var e, x :| Fires(c, states[i], e, x, states[i + 1]) && e.at <= c.horizon;
    var _, _ := FireKeeps(c, states[i], loc, who, e, x, states[i + 1]);
  }

  /** One event before the horizon, with the choice that was made. */
  ghost predicate StepsBy(c: Config, s: Sim, x: Choice, t: Sim) {
    exists e :: Fires(c, s, e, x, t) && e.at <= c.horizon
  }

  ghost predicate IsRunBy(c: Config, states: seq<Sim>, choices: seq<Choice>) {
    && |states| == |choices| + 1 && states[0] == Start(c)
    && forall i: nat | i < |choices| :: StepsBy(c, states[i], choices[i], states[i + 1])
  }

  lemma RunByIsRun(c: Config, states: seq<Sim>, choices: seq<Choice>)
    requires IsRunBy(c, states, choices)
    ensures IsRun(c, states)
  {
    forall i: nat | i < |states| - 1 ensures Steps(c, states[i], states[i + 1]) {
      assert StepsBy(c, states[i], choices[i], states[i + 1]);
    }
  }

  lemma RunByFront(c: Config, states: seq<Sim>, choices: seq<Choice>)
    requires IsRunBy(c, states, choices) && choices != []
    ensures IsRunBy(c, states[..|choices|], choices[..|choices| - 1])
  {
    var front, made := states[..|choices|], choices[..|choices| - 1];
    forall i: nat | i < |made| ensures StepsBy(c, front[i], made[i], front[i + 1]) {
      assert StepsBy(c, states[i], choices[i], states[i + 1]);
    }
  }

  lemma SameEventSameState(c: Config, s: Sim, e: Scheduled, x: Choice, t: Sim, u: Sim)
    requires Fires(c, s, e, x, t) && Fires(c, s, e, x, u)
    ensures t == u
  {
  }

  lemma SameChoiceSameState(
      c: Config, s: Sim, loc: Places, who: Clients, x: Choice, t: Sim, u: Sim)
    requires Base(c, s, loc, who, {}) && StepsBy(c, s, x, t) && StepsBy(c, s, x, u)
    ensures t == u
  {
    var d :| Fires(c, s, d, x, t) && d.at <= c.horizon;
    var e :| Fires(c, s, e, x, u) && e.at <= c.horizon;
    EarliestIsUnique(c, s, loc, who, d, e);
    SameEventSameState(c, s, d, x, t, u);
  }

  /** The simulation is deterministic: a run is determined by the choices the model leaves open, as
      ties in time are broken by insertion. */
  lemma {:induction false} RunsAreDetermined(c: Config, a: seq<Sim>, b: seq<Sim>, choices: seq<Choice>)
    requires ConfigOk(c) && IsRunBy(c, a, choices) && IsRunBy(c, b, choices)
    ensures a == b
    decreases |choices|
  {
    var n := |choices|;
    if n > 0 {
      RunByFront(c, a, choices);
      RunByFront(c, b, choices);
      RunsAreDetermined(c, a[..n], b[..n], choices[..n - 1]);
      LastIsDetermined(c, a, b, choices, n);
      assert a == a[..n] + [a[n]] && b == b[..n] + [b[n]];
    }
  }

  lemma LastIsDetermined(c: Config, a: seq<Sim>, b: seq<Sim>, choices: seq<Choice>, n: nat)
    requires ConfigOk(c) && IsRunBy(c, a, choices) && IsRunBy(c, b, choices)
    requires n == |choices| > 0 && a[..n] == b[..n]
    ensures a[n] == b[n]
  {
    RunByFront(c, a, choices);
    RunByIsRun(c, a[..n], choices[..n - 1]);
    var loc, who, _ := RunKeeps(c, a[..n]);
    var s := a[n - 1];
    assert a[..n][n - 1] == s && b[..n][n - 1] == b[n - 1];
    assert StepsBy(c, a[n - 1], choices[n - 1], a[n]) && StepsBy(c, b[n - 1], choices[n - 1], b[n]);
    SameChoiceSameState(c, s, loc, who, choices[n - 1], a[n], b[n]);
  }

  // ----------------------------------------------------- the side condition

  lemma PlansOneIff(sched: Scheduler, q: Pending, now: real)
    requires Valid(sched) && PrefillRuns.Serves(sched.tuning) && sched.queue == map[q.id := q]
    ensures PlanBatch(sched, now).chunks == [] <==> q.Remaining() == 0
  {
    PrefillLaws.PlanEmptyIff(sched, now);
    PrefillLaws.AllOffered(sched, now);
    assert q.id in sched.queue && sched.queue[q.id] == q;
    assert q.id in PrefillLaws.Offered(sched, now);
  }

  lemma LaunchStarts(c: Config, s: Sim, w: nat, sched: Scheduler, b: Batch)
    requires c.prefillCurve.Valid() && w < |s.prefill| && !s.prefill[w].busy
    ensures Launch(c, s, w, sched, b).prefill[w].busy <==> b.chunks != []
  {
  }

  lemma IssueQueues(c: Config, s: Sim, k: nat, r: Route, q: Pending, t: Sim)
    requires r.prefill < |s.prefill| && t == Issue(c, s, k, r)
    requires q == Pending(s.nextId, s.now, s.now + c.ttft, SatSub(c.isl, r.hit), 0)
    ensures t.now == s.now && |t.prefill| == |s.prefill|
    ensures t.prefill[r.prefill].sched == Enqueue(s.prefill[r.prefill].sched, q)
    ensures t.prefill[r.prefill].busy == s.prefill[r.prefill].busy
  {
  }

  lemma StartIs(c: Config, s: Sim, w: nat, sched: Scheduler, b: Batch)
    requires c.prefillCurve.Valid() && w < |s.prefill| && !s.prefill[w].busy
    requires sched == AfterPlan(s.prefill[w].sched, s.now) && b == PlanBatch(s.prefill[w].sched, s.now)
    ensures StartPrefill(c, s, w) == Launch(c, s, w, sched, b)
  {
  }

  /** A request fully covered by cached prefix is never batched: an idle worker that it arrives at
      starts work exactly when there is a token left to compute. */
  lemma ArrivalStartsIff(c: Config, s: Sim, k: nat, r: Route)
    requires c.prefillCurve.Valid() && r.prefill < |s.prefill|
    requires var p := s.prefill[r.prefill];
      !p.busy && Valid(p.sched) && p.sched.queue == map[] && PrefillRuns.Serves(p.sched.tuning)
    ensures OnArrival(c, s, k, r).prefill[r.prefill].busy <==> r.hit < c.isl
  {
    var p := s.prefill[r.prefill];
    var q := Pending(s.nextId, s.now, s.now + c.ttft, SatSub(c.isl, r.hit), 0);
    var sched := Enqueue(p.sched, q);
    PrefillLaws.EnqueueValid(p.sched, q);
    assert sched.queue == map[q.id := q];
    PlansOneIff(sched, q, s.now);
    var t := Issue(c, s, k, r);
    IssueQueues(c, s, k, r, q, t);
    StartIs(c, t, r.prefill, AfterPlan(sched, s.now), PlanBatch(sched, s.now));
    LaunchStarts(c, t, r.prefill, AfterPlan(sched, s.now), PlanBatch(sched, s.now));
  }
}
