/** Handing over KV keeps everything in its place. */
module SimTransfer {
  import opened Common
  import opened SimState
  import opened SimInvariant

  // ------------------------------------------------------------ handing off

  lemma HandOffRequests(
      c: Config, reqs: map<nat, Request>, now: real, next: nat, loc: Places, id: nat)
    requires RequestsOk(c, reqs, now, next, loc) && id in reqs
    ensures RequestsOk(c, reqs[id := reqs[id].(first := Some(now))], now, next, loc[id := AtXfer])
  {
  }

  lemma HeadsAppend(q: seq<(nat, nat)>, x: (nat, nat))
    ensures Heads(q + [x]) == Heads(q) + [x.0]
  {
  }

  lemma HandOffTransfers(
      c: Config, busy: nat, queue: seq<(nat, nat)>, loc: Places, evs: set<Event>, id: nat, w: nat)
    requires TransfersOk(c, busy, queue, loc, evs) && Located(loc, id, InHand) && w < c.decodeWorkers
    ensures TransfersOk(c, busy, queue + [(id, w)], loc[id := AtXfer], evs)
  {
    var loc' := loc[id := AtXfer];
    HeadsAppend(queue, (id, w));
    assert InFlight(loc') == InFlight(loc);
    assert !Located(loc, id, AtXfer);
    MoveOne(loc, id, AtXfer);
    forall x, v ensures KvArrived(x, v) in evs <==> Located(loc', x, AtKv(v)) {
      assert KvArrived(x, v) in evs <==> Located(loc, x, AtKv(v));
    }
    forall x, v: nat | Located(loc', x, AtKv(v)) ensures v < c.decodeWorkers {
      assert Located(loc, x, AtKv(v));
    }
  }

  lemma HandOffMatched(c: Config, s: Sim, loc: Places, who: Clients, id: nat, evs: set<Event>)
    requires Matched(c, s, loc, who, evs) && Located(loc, id, InHand)
    requires id in s.reqs && s.reqs[id].decodeWorker < c.decodeWorkers
    ensures Matched(c, HandOff(s, id), loc[id := AtXfer], who, evs)
  {
    var t, loc' := HandOff(s, id), loc[id := AtXfer];
    MoveOne(loc, id, AtXfer);
    ClientsFrame(c, s.reqs, who, evs, t.reqs, evs);
    PrefillFrame(c, s.prefill, loc, evs, loc', evs);
    HandOffTransfers(c, s.xferBusy, s.xferQueue, loc, evs, id, s.reqs[id].decodeWorker);
    DecodeFrame(c, s.decode, loc, evs, loc', evs);
  }

  ghost predicate OnlyTransfers(s: Sim, t: Sim) {
    t.now == s.now && t.prefill == s.prefill && t.decode == s.decode
  }

  lemma HandOffKeeps(c: Config, s: Sim, loc: Places, who: Clients, id: nat)
    requires Base(c, s, loc, who, {}) && Located(loc, id, InHand)
    ensures Base(c, HandOff(s, id), loc[id := AtXfer], who, {})
    ensures OnlyTransfers(s, HandOff(s, id)) && HandOff(s, id).heap == s.heap
  {
    HandOffMatched(c, s, loc, who, id, Events(s.heap) + {});
    HandOffRequests(c, s.reqs, s.now, s.nextId, loc, id);
  }

  /** Between two places. */
  predicate Unsettled(p: Place) { p.InHand? || p.Leaving? }

  /** The requests `ids` have been put down, and none picked up. */
  ghost predicate PutDown(loc: Places, was: Places, ids: seq<nat>) {
    forall id | id in loc && Unsettled(loc[id]) :: id !in ids && Located(was, id, loc[id])
  }

  ghost predicate AllInHand(loc: Places, ids: seq<nat>) {
    forall id | id in ids :: Located(loc, id, InHand)
  }

  lemma AllInHandTail(loc: Places, ids: seq<nat>)
    requires ids != [] && Distinct(ids) && AllInHand(loc, ids)
    ensures Distinct(ids[1..]) && AllInHand(loc[ids[0] := AtXfer], ids[1..])
    ensures Located(loc, ids[0], InHand)
  {
    assert forall id | id in ids[1..] :: id in ids && id != ids[0];
  }

  lemma PutDownHead(loc: Places, was: Places, ids: seq<nat>)
    requires ids != [] && ids[0] in was && PutDown(loc, was[ids[0] := AtXfer], ids[1..])
    ensures PutDown(loc, was, ids)
  {
    assert ids == [ids[0]] + ids[1..];
  }

  lemma {:induction false} HandOffAllKeeps(
      c: Config, s: Sim, loc: Places, who: Clients, ids: seq<nat>) returns (loc': Places)
    requires Base(c, s, loc, who, {}) && Distinct(ids) && AllInHand(loc, ids)
    ensures var t := HandOffAll(s, ids);
      Base(c, t, loc', who, {}) && OnlyTransfers(s, t) && t.heap == s.heap
    ensures PutDown(loc', loc, ids)
    decreases |ids|
  {
    if ids == [] {
      loc' := loc;
    } else {
      AllInHandTail(loc, ids);
      HandOffKeeps(c, s, loc, who, ids[0]);
      loc' := HandOffAllKeeps(c, HandOff(s, ids[0]), loc[ids[0] := AtXfer], who, ids[1..]);
      PutDownHead(loc', loc, ids);
    }
  }

  // ---------------------------------------------------------------- draining

  lemma HeadsTail(q: seq<(nat, nat)>)
    requires q != [] && Distinct(Heads(q))
    ensures Heads(q[1..]) == Heads(q)[1..] && Distinct(Heads(q[1..]))
    ensures forall id :: id in Heads(q[1..]) <==> id in Heads(q) && id != q[0].0
  {
    var h := Heads(q);
    assert h == [h[0]] + h[1..];
  }

  lemma StartTransfers(
      c: Config, busy: nat, queue: seq<(nat, nat)>, loc: Places, evs: set<Event>)
    requires TransfersOk(c, busy, queue, loc, evs) && queue != [] && busy < Buffers(c)
    ensures var (id, w) := queue[0];
      && Located(loc, id, AtXfer) && KvArrived(id, w) !in evs
      && TransfersOk(c, busy + 1, queue[1..], loc[id := AtKv(w)], evs + {KvArrived(id, w)})
  {
    var (id, w) := queue[0];
    var loc' := loc[id := AtKv(w)];
    assert Heads(queue)[0] == id && id in Heads(queue);
    assert Located(loc, id, AtXfer);
    HeadsTail(queue);
    assert !Located(loc, id, AtKv(w));
    assert InFlight(loc') == InFlight(loc) + {id} && id !in InFlight(loc);
    forall x, v ensures KvArrived(x, v) in evs + {KvArrived(id, w)} <==> Located(loc', x, AtKv(v)) {
      assert KvArrived(x, v) in evs <==> Located(loc, x, AtKv(v));
    }
    forall x, v: nat | Located(loc', x, AtKv(v)) ensures v < c.decodeWorkers {
      assert x != id ==> Located(loc, x, AtKv(v));
    }
  }

  lemma TransferMatched(c: Config, s: Sim, loc: Places, who: Clients, id: nat, w: nat, evs: set<Event>)
    requires Matched(c, s, loc, who, evs) && s.xferQueue != [] && s.xferBusy < Buffers(c)
    requires s.xferQueue[0] == (id, w)
    ensures Located(loc, id, AtXfer) && KvArrived(id, w) !in evs
    ensures Matched(c, Dequeue(s), loc[id := AtKv(w)], who, evs + {KvArrived(id, w)})
  {
    var loc', evs' := loc[id := AtKv(w)], evs + {KvArrived(id, w)};
    StartTransfers(c, s.xferBusy, s.xferQueue, loc, evs);
    MoveOne(loc, id, AtKv(w));
    ClientsFrame(c, s.reqs, who, evs, s.reqs, evs');
    PrefillFrame(c, s.prefill, loc, evs, loc', evs');
    DecodeFrame(c, s.decode, loc, evs, loc', evs');
  }

  lemma MoveRequest(
      c: Config, reqs: map<nat, Request>, now: real, next: nat, loc: Places, id: nat, p: Place)
    requires RequestsOk(c, reqs, now, next, loc) && id in loc
    requires !loc[id].AtPrefill? && loc[id] != InHand
    ensures RequestsOk(c, reqs, now, next, loc[id := p])
  {
  }

  lemma StartTransferKeeps(
      c: Config, s: Sim, loc: Places, who: Clients, id: nat, w: nat, at: real)
    requires Base(c, s, loc, who, {}) && s.xferQueue != [] && s.xferBusy < Buffers(c)
    requires s.xferQueue[0] == (id, w) && at >= s.now
    ensures Located(loc, id, AtXfer)
    ensures Base(c, StartTransfer(s, at), loc[id := AtKv(w)], who, {})
    ensures StartTransfer(s, at).now == s.now
    ensures |StartTransfer(s, at).xferQueue| == |s.xferQueue| - 1
  {
    var evs, e := Events(s.heap) + {}, KvArrived(id, w);
    TransferMatched(c, s, loc, who, id, w, evs);
    MoveRequest(c, s.reqs, s.now, s.nextId, loc, id, AtKv(w));
    PlusNone(Events(s.heap));
    assert e !in Events(s.heap);
    PushBase(c, Dequeue(s), loc[id := AtKv(w)], who, {}, at, e, evs + {e});
  }

  /** The same requests are between places. */
  ghost predicate SameHands(loc: Places, was: Places) {
    && (forall id :: Located(loc, id, InHand) <==> Located(was, id, InHand))
    && (forall id, w :: Located(loc, id, Leaving(w)) <==> Located(was, id, Leaving(w)))
  }

  /** Every buffer is taken, or nothing waits for one. */
  ghost predicate TransfersServed(c: Config, s: Sim) {
    s.xferQueue == [] || s.xferBusy >= Buffers(c)
  }

  /** Draining stops only when the buffers or the queue run out. */
  lemma {:induction false} DrainServes(c: Config, s: Sim, at: real)
    ensures var t := Drain(c, s, at);
      OnlyTransfers(s, t) && TransfersServed(c, t) && NothingBefore(t.heap, s.heap, at)
    decreases |s.xferQueue|
  {
    if s.xferBusy < Buffers(c) && s.xferQueue != [] {
      DrainServes(c, StartTransfer(s, at), at);
    }
  }

  lemma DrainStep(c: Config, s: Sim, at: real, t: Sim)
    requires s.xferBusy < Buffers(c) && s.xferQueue != [] && t == StartTransfer(s, at)
    ensures Drain(c, s, at) == Drain(c, t, at)
  {
  }

  lemma SameHandsTwice(loc2: Places, loc1: Places, loc0: Places)
    requires SameHands(loc2, loc1) && SameHands(loc1, loc0)
    ensures SameHands(loc2, loc0)
  {
  }

  lemma DrainTurn(c: Config, s: Sim, loc: Places, who: Clients, at: real) returns (t: Sim, loc': Places)
    requires Base(c, s, loc, who, {}) && at >= s.now
    requires s.xferBusy < Buffers(c) && s.xferQueue != []
    ensures Base(c, t, loc', who, {}) && SameHands(loc', loc)
    ensures t.now == s.now && |t.xferQueue| < |s.xferQueue| && Drain(c, s, at) == Drain(c, t, at)
  {
    var head := s.xferQueue[0];
    t := StartTransfer(s, at);
    DrainStep(c, s, at, t);
    loc' := StartOne(c, s, loc, who, head.0, head.1, at, t);
  }

  lemma StartOne(
      c: Config, s: Sim, loc: Places, who: Clients, id: nat, w: nat, at: real, t: Sim)
    returns (loc': Places)
    requires Base(c, s, loc, who, {}) && at >= s.now
    requires s.xferBusy < Buffers(c) && s.xferQueue != [] && s.xferQueue[0] == (id, w)
    requires t == StartTransfer(s, at)
    ensures Base(c, t, loc', who, {}) && SameHands(loc', loc)
    ensures t.now == s.now && |t.xferQueue| < |s.xferQueue|
  {
    StartTransferKeeps(c, s, loc, who, id, w, at);
    TransferHands(loc, id, w);
    loc' := loc[id := AtKv(w)];
  }

  lemma TransferHands(loc: Places, id: nat, w: nat)
    requires Located(loc, id, AtXfer)
    ensures SameHands(loc[id := AtKv(w)], loc)
  {
  }

  lemma {:induction false} DrainKeeps(c: Config, s: Sim, loc: Places, who: Clients, at: real)
    returns (loc': Places)
    requires Base(c, s, loc, who, {}) && at >= s.now
    ensures Base(c, Drain(c, s, at), loc', who, {})
    ensures SameHands(loc', loc)
    decreases |s.xferQueue|
  {
    loc' := loc;
    if s.xferBusy < Buffers(c) && s.xferQueue != [] {
      var t, mid := DrainTurn(c, s, loc, who, at);
      loc' := DrainKeeps(c, t, mid, who, at);
      SameHandsTwice(loc', mid, loc);
    }
  }

  // ---------------------------------------------------------------- arriving

  lemma LiftTransfers(
      c: Config, busy: nat, queue: seq<(nat, nat)>, loc: Places, evs: set<Event>, id: nat, w: nat)
    requires TransfersOk(c, busy, queue, loc, evs) && KvArrived(id, w) in evs
    ensures Located(loc, id, AtKv(w)) && busy > 0 && w < c.decodeWorkers
    ensures TransfersOk(c, busy - 1, queue, loc[id := InHand], evs - {KvArrived(id, w)})
  {
    var loc' := loc[id := InHand];
    assert Located(loc, id, AtKv(w));
    assert InFlight(loc') == InFlight(loc) - {id} && id in InFlight(loc);
    forall x, v ensures KvArrived(x, v) in evs - {KvArrived(id, w)} <==> Located(loc', x, AtKv(v)) {
      assert KvArrived(x, v) in evs <==> Located(loc, x, AtKv(v));
    }
    forall x, v: nat | Located(loc', x, AtKv(v)) ensures v < c.decodeWorkers {
      assert Located(loc, x, AtKv(v));
    }
    forall x ensures x in Heads(queue) <==> Located(loc', x, AtXfer) {
      assert x in Heads(queue) <==> Located(loc, x, AtXfer);
    }
  }

  lemma LiftMatched(c: Config, s: Sim, loc: Places, who: Clients, id: nat, w: nat, evs: set<Event>)
    requires Matched(c, s, loc, who, evs) && KvArrived(id, w) in evs
    ensures Located(loc, id, AtKv(w)) && w < c.decodeWorkers
    ensures Matched(c, Lift(s), loc[id := InHand], who, evs - {KvArrived(id, w)})
  {
    var loc', evs' := loc[id := InHand], evs - {KvArrived(id, w)};
    LiftTransfers(c, s.xferBusy, s.xferQueue, loc, evs, id, w);
    MoveOne(loc, id, InHand);
    ClientsFrame(c, s.reqs, who, evs, s.reqs, evs');
    PrefillFrame(c, s.prefill, loc, evs, loc', evs');
    DecodeFrame(c, s.decode, loc, evs, loc', evs');
  }

  /** The landed request is picked up with its first token known. */
  lemma LiftKeeps(c: Config, s: Sim, loc: Places, who: Clients, id: nat, w: nat)
    requires Base(c, s, loc, who, {KvArrived(id, w)})
    ensures Base(c, Lift(s), loc[id := InHand], who, {})
    ensures Located(loc, id, AtKv(w)) && w < c.decodeWorkers
    ensures id in s.reqs && s.reqs[id].first.Some?
  {
    var evs := Events(s.heap) + {KvArrived(id, w)};
    assert KvArrived(id, w) in evs;
    LiftMatched(c, s, loc, who, id, w, evs);
    MoveRequest(c, s.reqs, s.now, s.nextId, loc, id, InHand);
    LetGo(s.heap, s.now, s.pushed, KvArrived(id, w));
  }

  lemma QueueWorker(c: Config, d: DecodeWorker, w: nat, loc: Places, id: nat)
    requires DecodeWorkerOk(c, d, w, loc) && Located(loc, id, InHand)
    ensures DecodeWorkerOk(c, d.(pending := d.pending + [id]), w, loc[id := AtPending(w)])
  {
    assert !Located(loc, id, AtPending(w));
  }

  lemma QueueMatched(c: Config, s: Sim, loc: Places, who: Clients, id: nat, w: nat, evs: set<Event>)
    requires Matched(c, s, loc, who, evs) && Located(loc, id, InHand) && w < c.decodeWorkers
    ensures Matched(c, Queue(s, id, w), loc[id := AtPending(w)], who, evs)
  {
    var t, loc' := Queue(s, id, w), loc[id := AtPending(w)];
    MoveOne(loc, id, AtPending(w));
    assert DecodeWorkerOk(c, s.decode[w], w, loc);
    QueueWorker(c, s.decode[w], w, loc, id);
    PrefillFrame(c, s.prefill, loc, evs, loc', evs);
    TransfersFrame(c, s.xferBusy, s.xferQueue, loc, evs, loc', evs);
    DecodeUpdate(c, s.decode, loc, evs, w, t.decode[w], loc', evs);
  }

  ghost predicate OnlyDecode(s: Sim, t: Sim, w: nat) {
    && t.now == s.now && t.prefill == s.prefill
    && t.xferBusy == s.xferBusy && t.xferQueue == s.xferQueue
    && |t.decode| == |s.decode|
    && forall v: nat | v < |s.decode| && v != w :: t.decode[v] == s.decode[v]
  }

  lemma QueueRequest(
      c: Config, reqs: map<nat, Request>, now: real, next: nat, loc: Places, id: nat, p: Place)
    requires RequestsOk(c, reqs, now, next, loc) && id in loc && reqs[id].first.Some?
    ensures RequestsOk(c, reqs, now, next, loc[id := p])
  {
  }

  lemma QueueKeeps(c: Config, s: Sim, loc: Places, who: Clients, id: nat, w: nat)
    requires Base(c, s, loc, who, {}) && Located(loc, id, InHand) && w < c.decodeWorkers
    requires id in s.reqs && s.reqs[id].first.Some?
    ensures Base(c, Queue(s, id, w), loc[id := AtPending(w)], who, {})
  {
    QueueMatched(c, s, loc, who, id, w, Events(s.heap) + {});
    QueueRequest(c, s.reqs, s.now, s.nextId, loc, id, AtPending(w));
  }

  /** The worker has a step coming, or nothing to decode. */
  ghost predicate DecodeServed(d: DecodeWorker) {
    d.stepping || (d.pending == [] && d.sched.running == map[])
  }

  lemma StepMatched(
      c: Config, s: Sim, loc: Places, who: Clients, w: nat, d: DecodeWorker, evs: set<Event>)
    requires Matched(c, s, loc, who, evs) && w < |s.decode| && DecodeWorkerOk(c, d, w, loc)
    ensures Matched(c, WithDecode(s, w, d), loc, who,
                    if d.stepping then evs + {DecodeStep(w)} else evs - {DecodeStep(w)})
  {
    var evs' := if d.stepping then evs + {DecodeStep(w)} else evs - {DecodeStep(w)};
    ClientsFrame(c, s.reqs, who, evs, s.reqs, evs');
    PrefillFrame(c, s.prefill, loc, evs, loc, evs');
    TransfersFrame(c, s.xferBusy, s.xferQueue, loc, evs, loc, evs');
    DecodeUpdate(c, s.decode, loc, evs, w, d, loc, evs');
  }

  /** The only thing ever pushed for now: the step of a worker that had none coming. */
  ghost predicate OnlyWakes(heap: set<Scheduled>, was: set<Scheduled>, w: nat) {
    forall x | x in heap :: x in was || x.event == DecodeStep(w)
  }

  lemma WakeOnly(s: Sim, w: nat)
    requires w < |s.decode|
    ensures OnlyDecode(s, Wake(s, w), w) && DecodeServed(Wake(s, w).decode[w])
    ensures OnlyWakes(Wake(s, w).heap, s.heap, w)
  {
  }

  lemma WakeKeeps(c: Config, s: Sim, loc: Places, who: Clients, w: nat)
    requires Base(c, s, loc, who, {}) && w < c.decodeWorkers
    ensures Base(c, Wake(s, w), loc, who, {})
  {
    if !s.decode[w].stepping {
      WakePush(c, s, loc, who, w, s.decode[w].(stepping := true), s.now);
    }
  }

  lemma WakePush(
      c: Config, s: Sim, loc: Places, who: Clients, w: nat, d: DecodeWorker, at: real)
    requires Base(c, s, loc, who, {}) && w < c.decodeWorkers && !s.decode[w].stepping
    requires d == s.decode[w].(stepping := true) && at >= s.now
    ensures Base(c, Push(WithDecode(s, w, d), at, DecodeStep(w)), loc, who, {})
  {
    var evs, e := Events(s.heap) + {}, DecodeStep(w);
    assert DecodeWorkerOk(c, s.decode[w], w, loc) && e !in evs;
    BlocksSteady(c, s.decode[w], d, w, loc);
    StepMatched(c, s, loc, who, w, d, evs);
    PlusNone(Events(s.heap));
    PushBase(c, WithDecode(s, w, d), loc, who, {}, at, e, evs + {e});
  }

  lemma BlocksSteady(c: Config, d: DecodeWorker, e: DecodeWorker, w: nat, loc: Places)
    requires DecodeWorkerOk(c, d, w, loc) && e == d.(stepping := e.stepping)
    ensures DecodeWorkerOk(c, e, w, loc)
  {
  }
}
