/** Where every client and every request is, and what each step of a handler keeps of that. */
module SimInvariant {
  import opened Common
  import opened Cost
  import opened RunningSeqs
  import opened DecodeState
  import opened PrefillState
  import PrefillLaws
  import PrefillRuns
  import opened SimState

  /** The one place a live request is in. */
  datatype Place =
    | AtPrefill(worker: nat)
    | AtXfer
    | AtKv(worker: nat)
    | AtPending(worker: nat)
    | AtRunning(worker: nat)
    | InHand                  // between two of the others, inside a handler
    | Leaving(worker: nat)    // off the batch, its blocks not yet given back

  /** What a client is doing. */
  datatype Doing = Waiting | Live(id: nat)

  type Places = map<nat, Place>
  type Clients = map<nat, Doing>

  ghost predicate ConfigOk(c: Config) {
    && c.prefillCurve.Valid() && c.decodeCurve.Valid() && c.transferMs > 0.0
    && PrefillRuns.Serves(c.tuning)
    && c.decode.running == map[] && c.decode.tokensPerStep >= 1
    && c.watermark <= c.totalBlocks
    && c.prefillWorkers >= 1 && c.decodeWorkers >= 1
  }

  /** No handler pushes anything sooner than this, but for waking a decode worker. */
  function Delay(c: Config): (d: real)
    requires c.prefillCurve.Valid()
  {
    MinReal(c.prefillCurve.LeastMs(), MinReal(c.transferMs, c.decodeCurve.baseMs))
  }

  /** The events in the heap. */
  ghost function Events(heap: set<Scheduled>): set<Event> { set x | x in heap :: x.event }

  /** Nothing is due in the past, no event is pending twice, insertion numbers are unique. */
  ghost predicate HeapOk(heap: set<Scheduled>, now: real, pushed: nat, hand: set<Event>) {
    && (forall x | x in heap :: now <= x.at && x.number <= pushed && x.event !in hand)
    && (forall x, y | x in heap && y in heap && x.event == y.event :: x == y)
    && (forall x, y | x in heap && y in heap && x.number == y.number :: x == y)
  }

  /** Every client waits for its release or has exactly one live request. */
  ghost predicate ClientsOk(c: Config, reqs: map<nat, Request>, who: Clients, evs: set<Event>) {
    && (forall k: nat :: k in who <==> k < c.clients)
    && (forall k :: Arrival(k) in evs <==> k in who && who[k] == Waiting)
    && (forall id | id in reqs :: reqs[id].client in who && who[reqs[id].client] == Live(id))
    && (forall k | k in who && who[k].Live? :: who[k].id in reqs && reqs[who[k].id].client == k)
  }

  ghost predicate RequestOk(c: Config, now: real, r: Request) {
    && r.promptLen == c.isl && r.osl == c.osl && r.decodeWorker < c.decodeWorkers
    && r.arrival <= now
    && (r.first.Some? ==> r.arrival <= r.first.value <= now)
  }

  ghost predicate RequestsOk(c: Config, reqs: map<nat, Request>, now: real, next: nat, loc: Places) {
    && loc.Keys == reqs.Keys
    && (forall id | id in reqs ::
          && id < next && RequestOk(c, now, reqs[id])
          && (loc[id].AtPrefill? || loc[id] == InHand || reqs[id].first.Some?))
  }

  /** Issued requests are live or scored, and a scored one got every token it asked for, its times in
      order. */
  ghost predicate LedgerOk(c: Config, live: nat, outcomes: seq<Outcome>, issued: nat, next: nat) {
    && live + |outcomes| == issued == next
    && forall o | o in outcomes :: OutcomeOk(c, o)
  }

  ghost predicate Located(loc: Places, id: nat, p: Place) { id in loc && loc[id] == p }

  ghost predicate PrefillWorkerOk(p: PrefillWorker, w: nat, loc: Places) {
    && Valid(p.sched) && PrefillRuns.Serves(p.sched.tuning)
    && (forall id :: id in p.sched.queue <==> Located(loc, id, AtPrefill(w)))
    && (forall id | id in p.sched.queue :: p.sched.queue[id].Remaining() > 0)
    && (p.busy <==> p.batch.Some?)
    && (p.busy ==> PrefillLaws.BatchFits(p.sched.queue, p.batch.value.0.chunks))
  }

  ghost predicate PrefillOk(c: Config, prefill: seq<PrefillWorker>, loc: Places, evs: set<Event>) {
    && |prefill| == c.prefillWorkers
    && (forall w: nat :: PrefillDone(w) in evs ==> w < |prefill|)
    && (forall id, w: nat :: Located(loc, id, AtPrefill(w)) ==> w < |prefill|)
    && (forall w: nat | w < |prefill| ::
          PrefillWorkerOk(prefill[w], w, loc) && (PrefillDone(w) in evs <==> prefill[w].busy))
  }

  ghost function InFlight(loc: Places): set<nat> { set id | id in loc && loc[id].AtKv? }

  function Heads(q: seq<(nat, nat)>): (r: seq<nat>)
    ensures |r| == |q| && forall i | 0 <= i < |q| :: r[i] == q[i].0
  {
    seq(|q|, i requires 0 <= i < |q| => q[i].0)
  }

  /** The transfer queue, and one busy buffer for every transfer in flight. */
  ghost predicate TransfersOk(
    c: Config, busy: nat, queue: seq<(nat, nat)>, loc: Places, evs: set<Event>)
  {
    && busy == |InFlight(loc)| <= Buffers(c)
    && (forall id, w :: KvArrived(id, w) in evs <==> Located(loc, id, AtKv(w)))
    && (forall id, w: nat :: Located(loc, id, AtKv(w)) ==> w < c.decodeWorkers)
    && Distinct(Heads(queue))
    && (forall id :: id in Heads(queue) <==> Located(loc, id, AtXfer))
    && (forall i | 0 <= i < |queue| :: queue[i].1 < c.decodeWorkers)
  }

  /** What every request reserves. */
  function Reserve(c: Config): nat { BlocksFor(c.isl + c.osl, c.blockSize) }

  /** Every holder has `need` blocks, free and held add up, and at least `low` stay free. */
  ghost predicate Balanced(d: DecodeWorker, need: nat, total: nat, low: nat) {
    && (forall id | id in d.held :: d.held[id] == need)
    && d.free + need * |d.held| == total
    && low <= d.free
  }

  ghost predicate BlocksOk(c: Config, d: DecodeWorker) {
    Balanced(d, Reserve(c), c.totalBlocks, c.watermark)
  }

  ghost predicate DecodeWorkerOk(c: Config, d: DecodeWorker, w: nat, loc: Places) {
    && Distinct(d.pending)
    && (forall id :: id in d.pending <==> Located(loc, id, AtPending(w)))
    && (forall id :: id in d.sched.running <==> Located(loc, id, AtRunning(w)))
    && (forall id | id in d.sched.running ::
          d.sched.running[id].id == id && d.sched.running[id].requested == c.osl)
    && (forall id :: id in d.held <==> Located(loc, id, AtRunning(w)) || Located(loc, id, Leaving(w)))
    && BlocksOk(c, d)
    && d.sched.tokensPerStep >= 1
  }

  ghost predicate DecodeOk(c: Config, decode: seq<DecodeWorker>, loc: Places, evs: set<Event>) {
    && |decode| == c.decodeWorkers
    && (forall w: nat :: DecodeStep(w) in evs ==> w < |decode|)
    && (forall id, w: nat :: Located(loc, id, AtPending(w)) ==> w < |decode|)
    && (forall id, w: nat :: Located(loc, id, AtRunning(w)) ==> w < |decode|)
    && (forall id, w: nat :: Located(loc, id, Leaving(w)) ==> w < |decode|)
    && (forall w: nat | w < |decode| ::
          DecodeWorkerOk(c, decode[w], w, loc) && (DecodeStep(w) in evs <==> decode[w].stepping))
  }

  /** A scored request got every token it asked for, and its times are in order. */
  ghost predicate OutcomeOk(c: Config, o: Outcome) {
    && o.promptTokens == c.isl && o.requestedTokens == c.osl && o.outputTokens == c.osl
    && o.arrival <= o.firstToken <= o.lastToken
  }

  /** The invariant inside a handler. `hand` holds the event being handled until its work is passed
      on. */
  ghost predicate Base(c: Config, s: Sim, loc: Places, who: Clients, hand: set<Event>) {
    && HeapOk(s.heap, s.now, s.pushed, hand)
    && LedgerOk(c, |s.reqs|, s.outcomes, s.issued, s.nextId)
    && RequestsOk(c, s.reqs, s.now, s.nextId, loc)
    && Matched(c, s, loc, who, Events(s.heap) + hand)
  }

  /** The pending events are exactly those that the clients and workers wait for. */
  ghost predicate Matched(c: Config, s: Sim, loc: Places, who: Clients, evs: set<Event>) {
    && ClientsOk(c, s.reqs, who, evs)
    && PrefillOk(c, s.prefill, loc, evs)
    && TransfersOk(c, s.xferBusy, s.xferQueue, loc, evs)
    && DecodeOk(c, s.decode, loc, evs)
  }

  /** Nothing that was not in `was` is due before `t`. */
  ghost predicate NothingBefore(heap: set<Scheduled>, was: set<Scheduled>, t: real) {
    forall x | x in heap :: x in was || x.at >= t
  }

  lemma NothingSooner(heap: set<Scheduled>, was: set<Scheduled>, t: real, u: real)
    requires NothingBefore(heap, was, t) && u <= t
    ensures NothingBefore(heap, was, u)
  {
  }

  lemma NothingBeforeChain(h2: set<Scheduled>, h1: set<Scheduled>, h0: set<Scheduled>, t: real)
    requires NothingBefore(h2, h1, t) && NothingBefore(h1, h0, t)
    ensures NothingBefore(h2, h0, t)
  {
  }

  lemma DelayIsLeast(c: Config)
    requires ConfigOk(c)
    ensures 0.0 < Delay(c) <= c.transferMs
    ensures forall tokens, n: nat | tokens > 0 :: c.prefillCurve.BatchMs(tokens, n) >= Delay(c)
    ensures forall n: nat :: c.decodeCurve.StepMs(n) >= Delay(c)
  {
    forall tokens, n: nat | tokens > 0 ensures c.prefillCurve.BatchMs(tokens, n) >= Delay(c) {
      BatchTakesTime(c.prefillCurve, tokens, n);
    }
    forall n: nat ensures c.decodeCurve.StepMs(n) >= Delay(c) {
      StepTakesTime(c.decodeCurve, n);
    }
    BatchTakesTime(c.prefillCurve, 1, 1);
  }

  // ------------------------------------------------------------------ frames

  ghost predicate SamePrefill(loc: Places, was: Places, w: nat) {
    forall id :: Located(loc, id, AtPrefill(w)) <==> Located(was, id, AtPrefill(w))
  }

  ghost predicate SameTransfers(loc: Places, was: Places) {
    && (forall id, w :: Located(loc, id, AtKv(w)) <==> Located(was, id, AtKv(w)))
    && (forall id :: Located(loc, id, AtXfer) <==> Located(was, id, AtXfer))
  }

  ghost predicate SameDecode(loc: Places, was: Places, w: nat) {
    && (forall id :: Located(loc, id, AtPending(w)) <==> Located(was, id, AtPending(w)))
    && (forall id :: Located(loc, id, AtRunning(w)) <==> Located(was, id, AtRunning(w)))
    && (forall id :: Located(loc, id, Leaving(w)) <==> Located(was, id, Leaving(w)))
  }

  predicate InPrefill(p: Place) { p.AtPrefill? }

  predicate InTransfer(p: Place) { p.AtXfer? || p.AtKv? }

  predicate InDecode(p: Place) { p.AtPending? || p.AtRunning? || p.Leaving? }

  /** Moving one request leaves alone every component that it neither leaves nor enters. */
  lemma MoveOne(loc: Places, id: nat, p: Place)
    ensures var was := id in loc; var to := loc[id := p];
      && (forall w | p != AtPrefill(w) && !Located(loc, id, AtPrefill(w)) :: SamePrefill(to, loc, w))
      && (!InTransfer(p) && (was ==> !InTransfer(loc[id])) ==> SameTransfers(to, loc))
      && (!InDecode(p) && (was ==> !InDecode(loc[id])) ==> forall w :: SameDecode(to, loc, w))
      && (forall w | !(InDecode(p) && p.worker == w) && !(was && InDecode(loc[id]) && loc[id].worker == w) ::
            SameDecode(to, loc, w))
  {
  }

  /** So does removing one. */
  lemma RemoveOne(loc: Places, id: nat)
    requires id in loc
    ensures var to := loc - {id};
      && (!InPrefill(loc[id]) ==> forall w :: SamePrefill(to, loc, w))
      && (!InTransfer(loc[id]) ==> SameTransfers(to, loc))
      && (forall w | !(InDecode(loc[id]) && loc[id].worker == w) :: SameDecode(to, loc, w))
  {
  }

  lemma PrefillFrame(
      c: Config, prefill: seq<PrefillWorker>, was: Places, evs: set<Event>, loc: Places,
      evs': set<Event>)
    requires PrefillOk(c, prefill, was, evs)
    requires forall w :: SamePrefill(loc, was, w)
    requires forall w :: PrefillDone(w) in evs' <==> PrefillDone(w) in evs
    ensures PrefillOk(c, prefill, loc, evs')
  {
    forall id, w: nat | Located(loc, id, AtPrefill(w)) ensures w < |prefill| {
      assert SamePrefill(loc, was, w) && Located(was, id, AtPrefill(w));
    }
    forall w: nat | w < |prefill| ensures PrefillWorkerOk(prefill[w], w, loc) {
      assert SamePrefill(loc, was, w) && PrefillWorkerOk(prefill[w], w, was);
    }
  }

  /** One worker changes, and its pending event with it. */
  lemma PrefillUpdate(
      c: Config, prefill: seq<PrefillWorker>, was: Places, evs: set<Event>,
      v: nat, p: PrefillWorker, loc: Places, evs': set<Event>)
    requires PrefillOk(c, prefill, was, evs) && v < |prefill|
    requires forall w | w != v :: SamePrefill(loc, was, w)
    requires forall w | w != v :: PrefillDone(w) in evs' <==> PrefillDone(w) in evs
    requires PrefillWorkerOk(p, v, loc) && (PrefillDone(v) in evs' <==> p.busy)
    ensures PrefillOk(c, prefill[v := p], loc, evs')
  {
    var after := prefill[v := p];
    forall id, w: nat | Located(loc, id, AtPrefill(w)) ensures w < |after| {
      assert w != v ==> SamePrefill(loc, was, w) && Located(was, id, AtPrefill(w));
    }
    forall w: nat | w < |after| ensures PrefillWorkerOk(after[w], w, loc) {
      if w != v {
        assert SamePrefill(loc, was, w) && PrefillWorkerOk(prefill[w], w, was);
      }
    }
  }

  lemma TransfersFrame(
      c: Config, busy: nat, queue: seq<(nat, nat)>, was: Places, evs: set<Event>, loc: Places,
      evs': set<Event>)
    requires TransfersOk(c, busy, queue, was, evs)
    requires SameTransfers(loc, was)
    requires forall id, w :: KvArrived(id, w) in evs' <==> KvArrived(id, w) in evs
    ensures TransfersOk(c, busy, queue, loc, evs')
  {
    forall id ensures id in InFlight(loc) <==> id in InFlight(was) {
      if id in InFlight(loc) {
        assert Located(loc, id, AtKv(loc[id].worker));
        assert Located(was, id, AtKv(loc[id].worker));
      }
      if id in InFlight(was) {
        assert Located(was, id, AtKv(was[id].worker));
        assert Located(loc, id, AtKv(was[id].worker));
      }
    }
    assert InFlight(loc) == InFlight(was);
  }

  /** Places on the decode side stay on workers that exist. */
  lemma DecodeInRange(
      c: Config, decode: seq<DecodeWorker>, was: Places, evs: set<Event>, v: nat, loc: Places)
    requires DecodeOk(c, decode, was, evs)
    requires forall w | w != v :: SameDecode(loc, was, w)
    ensures forall id, w: nat | w != v && Located(loc, id, AtPending(w)) :: w < |decode|
    ensures forall id, w: nat | w != v && Located(loc, id, AtRunning(w)) :: w < |decode|
    ensures forall id, w: nat | w != v && Located(loc, id, Leaving(w)) :: w < |decode|
  {
    forall id, w: nat | w != v && Located(loc, id, AtPending(w)) ensures w < |decode| {
      assert SameDecode(loc, was, w) && Located(was, id, AtPending(w));
    }
    forall id, w: nat | w != v && Located(loc, id, AtRunning(w)) ensures w < |decode| {
      assert SameDecode(loc, was, w) && Located(was, id, AtRunning(w));
    }
    forall id, w: nat | w != v && Located(loc, id, Leaving(w)) ensures w < |decode| {
      assert SameDecode(loc, was, w) && Located(was, id, Leaving(w));
    }
  }

  lemma DecodeFrame(
      c: Config, decode: seq<DecodeWorker>, was: Places, evs: set<Event>, loc: Places,
      evs': set<Event>)
    requires DecodeOk(c, decode, was, evs)
    requires forall w :: SameDecode(loc, was, w)
    requires forall w :: DecodeStep(w) in evs' <==> DecodeStep(w) in evs
    ensures DecodeOk(c, decode, loc, evs')
  {
    DecodeInRange(c, decode, was, evs, |decode|, loc);
    DecodeInRange(c, decode, was, evs, |decode| + 1, loc);
    forall w: nat | w < |decode| ensures DecodeWorkerOk(c, decode[w], w, loc) {
      assert SameDecode(loc, was, w) && DecodeWorkerOk(c, decode[w], w, was);
    }
  }

  /** One worker changes, and its pending event with it. */
  lemma DecodeUpdate(
      c: Config, decode: seq<DecodeWorker>, was: Places, evs: set<Event>,
      v: nat, d: DecodeWorker, loc: Places, evs': set<Event>)
    requires DecodeOk(c, decode, was, evs) && v < |decode|
    requires forall w | w != v :: SameDecode(loc, was, w)
    requires forall w | w != v :: DecodeStep(w) in evs' <==> DecodeStep(w) in evs
    requires DecodeWorkerOk(c, d, v, loc) && (DecodeStep(v) in evs' <==> d.stepping)
    ensures DecodeOk(c, decode[v := d], loc, evs')
  {
    var after := decode[v := d];
    DecodeInRange(c, decode, was, evs, v, loc);
    forall w: nat | w < |after| ensures DecodeWorkerOk(c, after[w], w, loc) {
      if w != v {
        assert SameDecode(loc, was, w) && DecodeWorkerOk(c, decode[w], w, was);
      }
    }
  }

  lemma ClientsFrame(
      c: Config, reqs: map<nat, Request>, who: Clients, evs: set<Event>,
      reqs': map<nat, Request>, evs': set<Event>)
    requires ClientsOk(c, reqs, who, evs)
    requires reqs'.Keys == reqs.Keys && forall id | id in reqs :: reqs'[id].client == reqs[id].client
    requires forall k :: Arrival(k) in evs' <==> Arrival(k) in evs
    ensures ClientsOk(c, reqs', who, evs')
  {
  }

  // ------------------------------------------------------------------ pushes

  /** Letting go of the event in hand. */
  lemma LetGo(heap: set<Scheduled>, now: real, pushed: nat, e: Event)
    requires HeapOk(heap, now, pushed, {e})
    ensures HeapOk(heap, now, pushed, {}) && Events(heap) + {} == Events(heap) + {e} - {e}
  {
  }

  lemma NotThere(evs: set<Event>, e: Event)
    requires e !in evs
    ensures evs - {e} == evs
  {
  }

  lemma PlusNone(evs: set<Event>)
    ensures evs + {} == evs
  {
  }

  lemma PushKeeps(s: Sim, at: real, e: Event, hand: set<Event>)
    requires HeapOk(s.heap, s.now, s.pushed, hand) && at >= s.now && e !in Events(s.heap)
    ensures HeapOk(Push(s, at, e).heap, s.now, s.pushed + 1, hand - {e})
    ensures Events(Push(s, at, e).heap) == Events(s.heap) + {e}
    ensures NothingBefore(Push(s, at, e).heap, s.heap, at)
  {
    var t := Push(s, at, e);
    forall x ensures x in Events(t.heap) <==> x in Events(s.heap) + {e} {
      if x in Events(s.heap) {
        var y :| y in s.heap && y.event == x;
        assert y in t.heap;
      }
      if x == e {
        assert Scheduled(at, s.pushed + 1, e) in t.heap;
      }
    }
    forall x, y | x in t.heap && y in t.heap && x.event == y.event ensures x == y {
      assert forall z | z in s.heap :: z.event in Events(s.heap);
    }
  }

  lemma PopEvents(s: Sim, e: Scheduled)
    requires HeapOk(s.heap, s.now, s.pushed, {}) && Earliest(e, s.heap)
    ensures HeapOk(s.heap - {e}, e.at, s.pushed, {e.event}) && e.at >= s.now
    ensures Events(Popped(s, e).heap) + {e.event} == Events(s.heap) + {}
  {
    var t := Popped(s, e);
    forall x ensures x in Events(t.heap) + {e.event} <==> x in Events(s.heap) {
      if x in Events(s.heap) {
        var y :| y in s.heap && y.event == x;
        assert y == e || y in t.heap;
      }
    }
  }

  /** A push that settles the event in hand, or one that something has just come to wait for. */
  lemma PushBase(
      c: Config, s: Sim, loc: Places, who: Clients, hand: set<Event>, at: real, e: Event,
      evs: set<Event>)
    requires HeapOk(s.heap, s.now, s.pushed, hand) && hand - {e} == {}
    requires LedgerOk(c, |s.reqs|, s.outcomes, s.issued, s.nextId)
    requires RequestsOk(c, s.reqs, s.now, s.nextId, loc)
    requires Matched(c, s, loc, who, evs) && evs == Events(s.heap) + {e}
    requires e !in Events(s.heap) && at >= s.now
    ensures Base(c, Push(s, at, e), loc, who, {})
    ensures NothingBefore(Push(s, at, e).heap, s.heap, at)
  {
    PushKeeps(s, at, e, hand);
    PlusNone(evs);
  }

  /** Putting an event in hand back on the heap. */
  lemma PushFromHand(
      c: Config, s: Sim, loc: Places, who: Clients, hand: set<Event>, at: real, e: Event)
    requires Base(c, s, loc, who, hand) && e in hand && at >= s.now
    ensures Base(c, Push(s, at, e), loc, who, hand - {e})
  {
    PushKeeps(s, at, e, hand);
    HandSets(Events(s.heap), hand, e);
  }

  lemma HandSets(evs: set<Event>, hand: set<Event>, e: Event)
    ensures if e in hand then evs + {e} + (hand - {e}) == evs + hand
            else hand - {e} == hand && evs + {e} + hand == evs + hand + {e}
  {
  }

  /** A push while another event is still in hand. */
  lemma PushHolding(
      c: Config, s: Sim, loc: Places, who: Clients, hand: set<Event>, at: real, e: Event,
      evs: set<Event>)
    requires HeapOk(s.heap, s.now, s.pushed, hand) && e !in hand
    requires LedgerOk(c, |s.reqs|, s.outcomes, s.issued, s.nextId)
    requires RequestsOk(c, s.reqs, s.now, s.nextId, loc)
    requires Matched(c, s, loc, who, evs) && evs == Events(s.heap) + hand + {e}
    requires e !in Events(s.heap) && at >= s.now
    ensures Base(c, Push(s, at, e), loc, who, hand)
  {
    PushKeeps(s, at, e, hand);
    HandSets(Events(s.heap), hand, e);
  }

  lemma RequestsLater(
      c: Config, reqs: map<nat, Request>, now: real, next: nat, loc: Places, later: real)
    requires RequestsOk(c, reqs, now, next, loc) && now <= later
    ensures RequestsOk(c, reqs, later, next, loc)
  {
  }

  lemma PopKeeps(c: Config, s: Sim, loc: Places, who: Clients, e: Scheduled)
    requires Base(c, s, loc, who, {}) && Earliest(e, s.heap)
    ensures Base(c, Popped(s, e), loc, who, {e.event})
    ensures e.at >= s.now
  {
    PopEvents(s, e);
    RequestsLater(c, s.reqs, s.now, s.nextId, loc, e.at);
  }

  // ---------------------------------------------------------------- arrivals

  lemma EnqueueKeeps(p: PrefillWorker, w: nat, loc: Places, q: Pending)
    requires PrefillWorkerOk(p, w, loc) && q.id !in loc && q.Remaining() > 0
    ensures PrefillWorkerOk(p.(sched := Enqueue(p.sched, q)), w, loc[q.id := AtPrefill(w)])
  {
    PrefillLaws.EnqueueValid(p.sched, q);
    assert !Located(loc, q.id, AtPrefill(w));
    assert q.id !in p.sched.queue;
  }

  lemma IssueClients(
      c: Config, reqs: map<nat, Request>, who: Clients, evs: set<Event>, k: nat, id: nat, r: Request)
    requires ClientsOk(c, reqs, who, evs) && Arrival(k) in evs && id !in reqs && r.client == k
    ensures ClientsOk(c, reqs[id := r], who[k := Live(id)], evs - {Arrival(k)})
  {
  }

  lemma IssueMatched(
      c: Config, s: Sim, loc: Places, who: Clients, evs: set<Event>,
      t: Sim, k: nat, id: nat, r: Request, w: nat, p: PrefillWorker)
    requires Matched(c, s, loc, who, evs) && Arrival(k) in evs
    requires w < |s.prefill| && id !in s.reqs && id !in loc && r.client == k
    requires PrefillWorkerOk(p, w, loc[id := AtPrefill(w)]) && p.busy == s.prefill[w].busy
    requires t.reqs == s.reqs[id := r] && t.prefill == s.prefill[w := p] && t.decode == s.decode
    requires t.xferBusy == s.xferBusy && t.xferQueue == s.xferQueue
    ensures Matched(c, t, loc[id := AtPrefill(w)], who[k := Live(id)], evs - {Arrival(k)})
  {
    var loc', evs' := loc[id := AtPrefill(w)], evs - {Arrival(k)};
    MoveOne(loc, id, AtPrefill(w));
    IssueClients(c, s.reqs, who, evs, k, id, r);
    PrefillUpdate(c, s.prefill, loc, evs, w, p, loc', evs');
    TransfersFrame(c, s.xferBusy, s.xferQueue, loc, evs, loc', evs');
    DecodeFrame(c, s.decode, loc, evs, loc', evs');
  }

  /** `t` is `s` with request `r` recorded for prefill worker `w`, now `p`. */
  ghost predicate Recorded(s: Sim, t: Sim, r: Request, w: nat, p: PrefillWorker) {
    && w < |s.prefill| && p.busy == s.prefill[w].busy
    && t == s.(reqs := s.reqs[s.nextId := r], prefill := s.prefill[w := p],
               nextId := s.nextId + 1, issued := s.issued + 1)
  }

  lemma IssueFields(
      c: Config, s: Sim, k: nat, r: Route, p: PrefillWorker, q: Pending, t: Sim, req: Request)
    requires r.prefill < |s.prefill| && p == s.prefill[r.prefill] && t == Issue(c, s, k, r)
    requires q == Pending(s.nextId, s.now, s.now + c.ttft, SatSub(c.isl, r.hit), 0)
    requires req == Request(k, s.now, c.isl, c.osl, r.decode, None)
    ensures Recorded(s, t, req, r.prefill, p.(sched := Enqueue(p.sched, q)))
  {
  }

  lemma IssueRequests(
      c: Config, reqs: map<nat, Request>, now: real, next: nat, loc: Places, p: Place, r: Request)
    requires RequestsOk(c, reqs, now, next, loc) && RequestOk(c, now, r) && p.AtPrefill?
    ensures next !in reqs && next !in loc
    ensures RequestsOk(c, reqs[next := r], now, next + 1, loc[next := p])
  {
  }

  lemma IssueLedger(
      c: Config, reqs: map<nat, Request>, outcomes: seq<Outcome>, issued: nat, next: nat, r: Request)
    requires LedgerOk(c, |reqs|, outcomes, issued, next) && next !in reqs
    ensures LedgerOk(c, |reqs[next := r]|, outcomes, issued + 1, next + 1)
  {
    var more := reqs[next := r];
    assert more.Keys == reqs.Keys + {next};
    assert |more.Keys| == |more| && |reqs.Keys| == |reqs|;
  }

  lemma RecordKeeps(
      c: Config, s: Sim, loc: Places, who: Clients, k: nat, t: Sim, r: Request, w: nat,
      p: PrefillWorker)
    requires Base(c, s, loc, who, {Arrival(k)})
    requires RequestOk(c, s.now, r) && r.client == k && Recorded(s, t, r, w, p)
    requires s.nextId !in loc ==> PrefillWorkerOk(p, w, loc[s.nextId := AtPrefill(w)])
    ensures Base(c, t, loc[s.nextId := AtPrefill(w)], who[k := Live(s.nextId)], {})
  {
    var evs := Events(s.heap) + {Arrival(k)};
    IssueRequests(c, s.reqs, s.now, s.nextId, loc, AtPrefill(w), r);
    IssueLedger(c, s.reqs, s.outcomes, s.issued, s.nextId, r);
    IssueMatched(c, s, loc, who, evs, t, k, s.nextId, r, w, p);
    LetGo(s.heap, s.now, s.pushed, Arrival(k));
  }

  lemma WorkerKnown(c: Config, s: Sim, loc: Places, who: Clients, hand: set<Event>, w: nat)
    requires Base(c, s, loc, who, hand) && w < c.prefillWorkers
    ensures w < |s.prefill| && PrefillWorkerOk(s.prefill[w], w, loc)
    ensures s.nextId !in loc
  {
  }

  lemma IssueKeeps(c: Config, s: Sim, loc: Places, who: Clients, k: nat, r: Route, t: Sim)
    requires Base(c, s, loc, who, {Arrival(k)})
    requires r.prefill < c.prefillWorkers && r.decode < c.decodeWorkers && r.hit < c.isl
    requires r.prefill < |s.prefill| && t == Issue(c, s, k, r)
    ensures Base(c, t, loc[s.nextId := AtPrefill(r.prefill)], who[k := Live(s.nextId)], {})
  {
    var w, p := r.prefill, s.prefill[r.prefill];
    var q := Pending(s.nextId, s.now, s.now + c.ttft, SatSub(c.isl, r.hit), 0);
    var req := Request(k, s.now, c.isl, c.osl, r.decode, None);
    WorkerKnown(c, s, loc, who, {Arrival(k)}, w);
    EnqueueKeeps(p, w, loc, q);
    IssueFields(c, s, k, r, p, q, t, req);
    RecordKeeps(c, s, loc, who, k, t, req, w, p.(sched := Enqueue(p.sched, q)));
  }
}
