/** Decode steps keep everything in its place. */
module SimDecode {
  import opened Common
  import opened RunningSeqs
  import opened DecodeState
  import opened SimState
  import opened SimInvariant
  import opened SimTransfer

  // --------------------------------------------------------------- admitting

  lemma MulSucc(a: nat, n: nat)
    ensures a * (n + 1) == a * n + a
  {
  }

  lemma TakeBlocks(d: DecodeWorker, need: nat, total: nat, low: nat, id: nat)
    requires Balanced(d, need, total, low) && id !in d.held && d.free >= need + low
    ensures Balanced(d.(free := d.free - need, held := d.held[id := need]), need, total, low)
  {
    var held := d.held[id := need];
    assert held.Keys == d.held.Keys + {id};
    assert |held.Keys| == |held| && |d.held.Keys| == |d.held|;
    MulSucc(need, |d.held|);
    assert |held| == |d.held| + 1;
  }

  lemma GiveBlocks(d: DecodeWorker, need: nat, total: nat, low: nat, id: nat)
    requires Balanced(d, need, total, low) && id in d.held
    ensures Balanced(d.(free := d.free + d.held[id], held := d.held - {id}), need, total, low)
  {
    var held := d.held - {id};
    assert held.Keys == d.held.Keys - {id};
    assert |held.Keys| == |held| && |d.held.Keys| == |d.held|;
    MulSucc(need, |held|);
    assert |d.held| == |held| + 1;
  }

  lemma BlocksSame(c: Config, d: DecodeWorker, e: DecodeWorker)
    requires BlocksOk(c, d) && e.held == d.held && e.free == d.free
    ensures BlocksOk(c, e)
  {
  }

  /** The worker after taking the head of its queue into the batch as `q`. */
  function Grown(d: DecodeWorker, need: nat, q: RunningSeq, now: real): DecodeWorker
    requires d.pending != [] && d.free >= need
  {
    d.(pending := d.pending[1..], free := d.free - need, held := d.held[d.pending[0] := need],
       sched := AdmitAt(Note(d.sched, Admit), q, now))
  }

  lemma AdmitWorker(
      c: Config, d: DecodeWorker, w: nat, loc: Places, id: nat, q: RunningSeq, now: real)
    requires DecodeWorkerOk(c, d, w, loc) && d.pending != [] && d.pending[0] == id
    requires d.free >= Reserve(c) + c.watermark && q.id == id && q.requested == c.osl
    ensures Located(loc, id, AtPending(w))
    ensures DecodeWorkerOk(c, Grown(d, Reserve(c), q, now), w, loc[id := AtRunning(w)])
  {
    var e, loc' := Grown(d, Reserve(c), q, now), loc[id := AtRunning(w)];
    assert id in d.pending;
    assert Located(loc, id, AtPending(w));
    assert !Located(loc, id, AtRunning(w)) && !Located(loc, id, Leaving(w));
    TakeBlocks(d, Reserve(c), c.totalBlocks, c.watermark, id);
    BlocksSame(c, d.(free := d.free - Reserve(c), held := d.held[id := Reserve(c)]), e);
    forall x ensures x in e.pending <==> Located(loc', x, AtPending(w)) {
      assert d.pending == [id] + e.pending;
      assert x in d.pending <==> Located(loc, x, AtPending(w));
    }
    forall x ensures x in e.sched.running <==> Located(loc', x, AtRunning(w)) {
      assert x in d.sched.running <==> Located(loc, x, AtRunning(w));
    }
    forall x ensures x in e.held <==> Located(loc', x, AtRunning(w)) || Located(loc', x, Leaving(w)) {
      assert x in d.held <==> Located(loc, x, AtRunning(w)) || Located(loc, x, Leaving(w));
    }
  }

  /** Replacing worker `w` within its own places leaves every other component matched. */
  lemma WorkerMatched(
      c: Config, s: Sim, loc: Places, who: Clients, evs: set<Event>, w: nat, d: DecodeWorker,
      loc': Places)
    requires Matched(c, s, loc, who, evs) && w < |s.decode|
    requires DecodeWorkerOk(c, d, w, loc') && d.stepping == s.decode[w].stepping
    requires forall v :: SamePrefill(loc', loc, v)
    requires SameTransfers(loc', loc) && forall v | v != w :: SameDecode(loc', loc, v)
    ensures Matched(c, WithDecode(s, w, d), loc', who, evs)
  {
    PrefillFrame(c, s.prefill, loc, evs, loc', evs);
    TransfersFrame(c, s.xferBusy, s.xferQueue, loc, evs, loc', evs);
    DecodeUpdate(c, s.decode, loc, evs, w, d, loc', evs);
  }

  lemma AdmitMatched(
      c: Config, s: Sim, loc: Places, who: Clients, evs: set<Event>, w: nat, d: DecodeWorker,
      id: nat, q: RunningSeq, now: real)
    requires Matched(c, s, loc, who, evs) && w < |s.decode| && d == s.decode[w]
    requires d.pending != [] && d.pending[0] == id
    requires d.free >= Reserve(c) + c.watermark && q.id == id && q.requested == c.osl
    ensures Located(loc, id, AtPending(w))
    ensures Matched(c, WithDecode(s, w, Grown(d, Reserve(c), q, now)), loc[id := AtRunning(w)], who, evs)
  {
    assert DecodeWorkerOk(c, d, w, loc);
    AdmitWorker(c, d, w, loc, id, q, now);
    MoveOne(loc, id, AtRunning(w));
    WorkerMatched(c, s, loc, who, evs, w, Grown(d, Reserve(c), q, now), loc[id := AtRunning(w)]);
  }

  lemma AdmitHeadIs(c: Config, s: Sim, w: nat, d: DecodeWorker, id: nat, q: RunningSeq)
    requires w < |s.decode| && d == s.decode[w] && d.pending != [] && id == d.pending[0]
    requires id in s.reqs && RequestOk(c, s.now, s.reqs[id])
    requires Admission(c, s.reqs[id], d).Admit? && q == Entering(id, s.reqs[id], s.now)
    ensures d.free >= Reserve(c) + c.watermark && q.id == id && q.requested == c.osl
    ensures AdmitHead(c, s, w) == WithDecode(s, w, Grown(d, Reserve(c), q, s.now))
  {
  }

  lemma PendingKnown(c: Config, s: Sim, loc: Places, who: Clients, hand: set<Event>, w: nat)
    requires Base(c, s, loc, who, hand) && w < c.decodeWorkers && s.decode[w].pending != []
    ensures var id := s.decode[w].pending[0];
      && Located(loc, id, AtPending(w)) && id in s.reqs
      && RequestOk(c, s.now, s.reqs[id]) && s.reqs[id].first.Some?
  {
    assert DecodeWorkerOk(c, s.decode[w], w, loc);
    assert s.decode[w].pending[0] in s.decode[w].pending;
    assert Located(loc, s.decode[w].pending[0], AtPending(w));
  }

  lemma AdmitHeadKeeps(
      c: Config, s: Sim, loc: Places, who: Clients, hand: set<Event>, w: nat, id: nat, t: Sim)
    requires Base(c, s, loc, who, hand) && w < c.decodeWorkers
    requires s.decode[w].pending != [] && s.decode[w].pending[0] == id && id in s.reqs
    requires Admission(c, s.reqs[id], s.decode[w]).Admit? && t == AdmitHead(c, s, w)
    ensures Base(c, t, loc[id := AtRunning(w)], who, hand)
    ensures Located(loc, id, AtPending(w))
  {
    var q := Entering(id, s.reqs[id], s.now);
    PendingKnown(c, s, loc, who, hand, w);
    AdmitHeadIs(c, s, w, s.decode[w], id, q);
    AdmitMatched(c, s, loc, who, Events(s.heap) + hand, w, s.decode[w], id, q, s.now);
    MoveRequest(c, s.reqs, s.now, s.nextId, loc, id, AtRunning(w));
  }

  lemma RefuseKeeps(
      c: Config, s: Sim, loc: Places, who: Clients, hand: set<Event>, w: nat, d: DecodeWorker,
      v: Decision)
    requires Base(c, s, loc, who, hand) && w < c.decodeWorkers && d == s.decode[w]
    ensures Base(c, WithDecode(s, w, d.(sched := Note(d.sched, v))), loc, who, hand)
  {
    assert DecodeWorkerOk(c, d, w, loc);
    BlocksSame(c, d, d.(sched := Note(d.sched, v)));
    WorkerMatched(c, s, loc, who, Events(s.heap) + hand, w, d.(sched := Note(d.sched, v)), loc);
  }

  lemma {:induction false} AdmitAllOnly(c: Config, s: Sim, w: nat)
    requires w < |s.decode|
    ensures var t := AdmitAll(c, s, w);
      OnlyDecode(s, t, w) && t.heap == s.heap && t.decode[w].stepping == s.decode[w].stepping
    decreases |s.decode[w].pending|
  {
    var d := s.decode[w];
    if d.pending != [] {
      if d.pending[0] !in s.reqs {
        AdmitAllOnly(c, WithDecode(s, w, d.(pending := d.pending[1..])), w);
      } else if Admission(c, s.reqs[d.pending[0]], d).Admit? {
        AdmitAllOnly(c, AdmitHead(c, s, w), w);
      }
    }
  }

  lemma AdmitAllTakes(c: Config, s: Sim, w: nat, id: nat, t: Sim)
    requires w < |s.decode| && s.decode[w].pending != [] && s.decode[w].pending[0] == id && id in s.reqs
    requires Admission(c, s.reqs[id], s.decode[w]).Admit? && t == AdmitHead(c, s, w)
    ensures |t.decode| == |s.decode| && |t.decode[w].pending| == |s.decode[w].pending| - 1
    ensures AdmitAll(c, s, w) == AdmitAll(c, t, w)
  {
  }

  lemma AdmitAllStops(c: Config, s: Sim, w: nat, id: nat, d: DecodeWorker, v: Decision)
    requires w < |s.decode| && d == s.decode[w] && d.pending != [] && d.pending[0] == id && id in s.reqs
    requires v == Admission(c, s.reqs[id], d) && !v.Admit?
    ensures AdmitAll(c, s, w) == WithDecode(s, w, d.(sched := Note(d.sched, v)))
  {
  }

  /** Every queued request is known, so admission never skips one: it takes the head, or stops. */
  lemma AdmitTurn(c: Config, s: Sim, loc: Places, who: Clients, hand: set<Event>, w: nat)
    returns (t: Sim, loc': Places, more: bool)
    requires Base(c, s, loc, who, hand) && w < c.decodeWorkers && s.decode[w].pending != []
    ensures Base(c, t, loc', who, hand) && SameHands(loc', loc)
    ensures |t.decode| == |s.decode|
    ensures more ==>
      |t.decode[w].pending| < |s.decode[w].pending| && AdmitAll(c, s, w) == AdmitAll(c, t, w)
    ensures !more ==> AdmitAll(c, s, w) == t
  {
    var id := s.decode[w].pending[0];
    PendingKnown(c, s, loc, who, hand, w);
    more := Admission(c, s.reqs[id], s.decode[w]).Admit?;
    if more {
      t := AdmitHead(c, s, w);
      loc' := TakeHead(c, s, loc, who, hand, w, id, t);
      AdmitAllTakes(c, s, w, id, t);
    } else {
      t := StopAtHead(c, s, loc, who, hand, w, id);
      loc' := loc;
    }
  }

  lemma AdmittedHands(loc: Places, id: nat, w: nat)
    requires Located(loc, id, AtPending(w))
    ensures SameHands(loc[id := AtRunning(w)], loc)
  {
  }

  lemma TakeHead(
      c: Config, s: Sim, loc: Places, who: Clients, hand: set<Event>, w: nat, id: nat, t: Sim)
    returns (loc': Places)
    requires Base(c, s, loc, who, hand) && w < c.decodeWorkers
    requires w < |s.decode| && s.decode[w].pending != [] && s.decode[w].pending[0] == id && id in s.reqs
    requires Admission(c, s.reqs[id], s.decode[w]).Admit? && t == AdmitHead(c, s, w)
    ensures Base(c, t, loc', who, hand) && SameHands(loc', loc)
  {
    loc' := loc[id := AtRunning(w)];
    AdmitHeadKeeps(c, s, loc, who, hand, w, id, t);
    AdmittedHands(loc, id, w);
  }

  lemma StopAtHead(
      c: Config, s: Sim, loc: Places, who: Clients, hand: set<Event>, w: nat, id: nat)
    returns (t: Sim)
    requires Base(c, s, loc, who, hand) && w < c.decodeWorkers
    requires w < |s.decode| && s.decode[w].pending != [] && s.decode[w].pending[0] == id && id in s.reqs
    requires !Admission(c, s.reqs[id], s.decode[w]).Admit?
    ensures Base(c, t, loc, who, hand) && |t.decode| == |s.decode| && AdmitAll(c, s, w) == t
  {
    var d := s.decode[w];
    var v := Admission(c, s.reqs[id], d);
    t := WithDecode(s, w, d.(sched := Note(d.sched, v)));
    RefuseKeeps(c, s, loc, who, hand, w, d, v);
    AdmitAllStops(c, s, w, id, d, v);
  }

  lemma {:induction false} AdmitAllKeeps(
      c: Config, s: Sim, loc: Places, who: Clients, hand: set<Event>, w: nat)
    returns (loc': Places)
    requires Base(c, s, loc, who, hand) && w < c.decodeWorkers
    ensures Base(c, AdmitAll(c, s, w), loc', who, hand)
    ensures SameHands(loc', loc)
    decreases |s.decode[w].pending|
  {
    loc' := loc;
    if s.decode[w].pending != [] {
      var t, mid, more := AdmitTurn(c, s, loc, who, hand, w);
      loc' := mid;
      if more {
        loc' := AdmitAllKeeps(c, t, mid, who, hand, w);
        SameHandsTwice(loc', mid, loc);
      }
    }
  }

  // ---------------------------------------------------------------- stepping

  /** The finished sequences, off the batch. */
  function Stepped(loc: Places, ids: seq<nat>, w: nat): Places {
    map id | id in loc :: if id in ids then Leaving(w) else loc[id]
  }

  lemma SteppedMoves(loc: Places, ids: seq<nat>, w: nat)
    requires forall id | id in ids :: Located(loc, id, AtRunning(w))
    ensures var to := Stepped(loc, ids, w);
      && (forall v :: SamePrefill(to, loc, v)) && SameTransfers(to, loc)
      && (forall v | v != w :: SameDecode(to, loc, v))
  {
  }

  lemma SteppedRequests(
      c: Config, reqs: map<nat, Request>, now: real, next: nat, loc: Places, ids: seq<nat>, w: nat)
    requires RequestsOk(c, reqs, now, next, loc)
    requires forall id | id in ids :: Located(loc, id, AtRunning(w))
    ensures RequestsOk(c, reqs, now, next, Stepped(loc, ids, w))
  {
    forall id | id in reqs
      ensures var p := Stepped(loc, ids, w)[id]; p.AtPrefill? || p == InHand || reqs[id].first.Some?
    {
      if id in ids {
        assert Located(loc, id, AtRunning(w));
      }
    }
  }

  /** The sequences that leave, as decode reports them. */
  ghost predicate Retiring(c: Config, loc: Places, w: nat, qs: seq<RunningSeq>) {
    && (forall q | q in qs :: Located(loc, q.id, Leaving(w)) && q.emitted == c.osl)
    && (forall i, j | 0 <= i < j < |qs| :: qs[i].id != qs[j].id)
  }

  /** What is left of the batch, and what leaves it. */
  lemma StepSplits(
      c: Config, d: DecodeWorker, w: nat, loc: Places, at: real, steer: real, keys: seq<nat>,
      fin: seq<nat>, done: seq<RunningSeq>)
    requires DecodeWorkerOk(c, d, w, loc) && Lists(keys, d.sched.running)
    requires fin == FinishingOf(d.sched.running, keys) && done == Synthetic(d.sched, at, steer, keys).1
    ensures forall id | id in fin :: Located(loc, id, AtRunning(w))
    ensures |done| == |fin| && Distinct(fin)
    ensures forall i | 0 <= i < |fin| :: done[i].id == fin[i] && done[i].emitted == c.osl
  {
    FinishingSplit(d.sched, at, steer, keys, fin, done);
    forall id | id in fin ensures Located(loc, id, AtRunning(w)) {
      assert id in d.sched.running <==> Located(loc, id, AtRunning(w));
    }
    forall i | 0 <= i < |fin| ensures done[i].id == fin[i] && done[i].emitted == c.osl {
      assert fin[i] in d.sched.running;
    }
  }

  lemma FinishingSplit(
      s: DecodeSched, at: real, steer: real, keys: seq<nat>, fin: seq<nat>, done: seq<RunningSeq>)
    requires Lists(keys, s.running) && s.tokensPerStep >= 1
    requires fin == FinishingOf(s.running, keys) && done == Synthetic(s, at, steer, keys).1
    ensures |done| == |fin| && Distinct(fin) && forall id | id in fin :: id in s.running
    ensures forall i | 0 <= i < |fin| :: fin[i] in s.running && done[i] == Completed(s.running[fin[i]], at)
  {
    SyntheticStep(s, at, steer, keys);
  }

  lemma StepWorker(
      c: Config, d: DecodeWorker, w: nat, loc: Places, at: real, steer: real, keys: seq<nat>,
      fin: seq<nat>, t: DecodeSched)
    requires DecodeWorkerOk(c, d, w, loc) && Lists(keys, d.sched.running)
    requires forall id :: !Located(loc, id, Leaving(w))
    requires fin == FinishingOf(d.sched.running, keys) && t == Synthetic(d.sched, at, steer, keys).0
    ensures DecodeWorkerOk(c, d.(sched := t), w, Stepped(loc, fin, w))
  {
    SteppedSched(d.sched, at, steer, keys, fin, t);
    KeepWorker(c, d, w, loc, fin, t);
  }

  /** The batch keeps the same sequences, less those that leave. */
  ghost predicate Thinned(s: DecodeSched, t: DecodeSched, fin: seq<nat>) {
    && (forall id :: id in t.running <==> id in s.running && id !in fin)
    && (forall id | id in fin :: id in s.running)
    && (forall id | id in t.running && id in s.running ::
          t.running[id].id == s.running[id].id && t.running[id].requested == s.running[id].requested)
    && t.tokensPerStep == s.tokensPerStep
  }

  lemma SteppedSched(
      s: DecodeSched, at: real, steer: real, keys: seq<nat>, fin: seq<nat>, t: DecodeSched)
    requires Lists(keys, s.running) && s.tokensPerStep >= 1
    requires fin == FinishingOf(s.running, keys) && t == Synthetic(s, at, steer, keys).0
    ensures Thinned(s, t, fin)
  {
    SyntheticStep(s, at, steer, keys);
  }

  lemma KeepWorker(
      c: Config, d: DecodeWorker, w: nat, loc: Places, fin: seq<nat>, t: DecodeSched)
    requires DecodeWorkerOk(c, d, w, loc) && Thinned(d.sched, t, fin)
    requires forall id :: !Located(loc, id, Leaving(w))
    ensures DecodeWorkerOk(c, d.(sched := t), w, Stepped(loc, fin, w))
  {
    var loc' := Stepped(loc, fin, w);
    forall id ensures id in t.running <==> Located(loc', id, AtRunning(w)) {
      assert id in d.sched.running <==> Located(loc, id, AtRunning(w));
    }
    forall id ensures id in d.held <==> Located(loc', id, AtRunning(w)) || Located(loc', id, Leaving(w)) {
      assert id in d.held <==> Located(loc, id, AtRunning(w)) || Located(loc, id, Leaving(w));
    }
    forall id ensures id in d.pending <==> Located(loc', id, AtPending(w)) {
      assert id in d.pending <==> Located(loc, id, AtPending(w));
    }
    BlocksSame(c, d, d.(sched := t));
  }

  lemma StepRetires(
      c: Config, loc: Places, w: nat, fin: seq<nat>, done: seq<RunningSeq>)
    requires forall id | id in fin :: Located(loc, id, AtRunning(w))
    requires |done| == |fin| && Distinct(fin)
    requires forall i | 0 <= i < |fin| :: done[i].id == fin[i] && done[i].emitted == c.osl
    ensures Retiring(c, Stepped(loc, fin, w), w, done)
  {
    forall q | q in done ensures Located(Stepped(loc, fin, w), q.id, Leaving(w)) {
      var i :| 0 <= i < |done| && done[i] == q;
      assert fin[i] in fin;
    }
  }

  lemma StepKeeps(
      c: Config, s: Sim, loc: Places, who: Clients, hand: set<Event>, w: nat, d: DecodeWorker,
      at: real, steer: real, keys: seq<nat>, fin: seq<nat>)
    requires Base(c, s, loc, who, hand) && w < c.decodeWorkers && d == s.decode[w]
    requires Lists(keys, d.sched.running) && fin == FinishingOf(d.sched.running, keys)
    requires forall id :: !Located(loc, id, Leaving(w))
    ensures Base(c, StepBatch(s, w, at, steer, keys), Stepped(loc, fin, w), who, hand)
    ensures Retiring(c, Stepped(loc, fin, w), w, Synthetic(d.sched, at, steer, keys).1)
  {
    var (t, done) := Synthetic(d.sched, at, steer, keys);
    assert DecodeWorkerOk(c, d, w, loc);
    StepSplits(c, d, w, loc, at, steer, keys, fin, done);
    StepWorker(c, d, w, loc, at, steer, keys, fin, t);
    StepRetires(c, loc, w, fin, done);
    SteppedMoves(loc, fin, w);
    SteppedRequests(c, s.reqs, s.now, s.nextId, loc, fin, w);
    WorkerMatched(c, s, loc, who, Events(s.heap) + hand, w, d.(sched := t), Stepped(loc, fin, w));
  }

  // ---------------------------------------------------------------- retiring

  lemma RetireClients(
      c: Config, reqs: map<nat, Request>, who: Clients, evs: set<Event>, id: nat, k: nat)
    requires ClientsOk(c, reqs, who, evs) && id in reqs && k == reqs[id].client
    ensures ClientsOk(c, reqs - {id}, who[k := Waiting], evs + {Arrival(k)})
    ensures Arrival(k) !in evs
  {
  }

  lemma RetireWorker(c: Config, d: DecodeWorker, w: nat, loc: Places, id: nat)
    returns (e: DecodeWorker)
    requires DecodeWorkerOk(c, d, w, loc) && Located(loc, id, Leaving(w))
    ensures id in d.held && e == d.(free := d.free + d.held[id], held := d.held - {id})
    ensures DecodeWorkerOk(c, e, w, loc - {id})
  {
    e := d.(free := d.free + d.held[id], held := d.held - {id});
    var loc' := loc - {id};
    GiveBlocks(d, Reserve(c), c.totalBlocks, c.watermark, id);
    forall x ensures x in e.held <==> Located(loc', x, AtRunning(w)) || Located(loc', x, Leaving(w)) {
      assert x in d.held <==> Located(loc, x, AtRunning(w)) || Located(loc, x, Leaving(w));
    }
    forall x ensures x in e.sched.running <==> Located(loc', x, AtRunning(w)) {
      assert x in d.sched.running <==> Located(loc, x, AtRunning(w));
    }
    forall x ensures x in e.pending <==> Located(loc', x, AtPending(w)) {
      assert x in d.pending <==> Located(loc, x, AtPending(w));
    }
  }

  lemma RetireRequests(
      c: Config, reqs: map<nat, Request>, now: real, next: nat, loc: Places, id: nat)
    requires RequestsOk(c, reqs, now, next, loc)
    ensures RequestsOk(c, reqs - {id}, now, next, loc - {id})
  {
  }

  lemma RetireLedger(
      c: Config, reqs: map<nat, Request>, outcomes: seq<Outcome>, issued: nat, next: nat, id: nat,
      o: Outcome)
    requires LedgerOk(c, |reqs|, outcomes, issued, next) && id in reqs && OutcomeOk(c, o)
    ensures LedgerOk(c, |reqs - {id}|, outcomes + [o], issued, next)
  {
    var rest := reqs - {id};
    assert rest.Keys == reqs.Keys - {id};
    assert |rest.Keys| == |rest| && |reqs.Keys| == |reqs|;
  }

  /** A request that left the batch, scored and off the books, its blocks given back. */
  function Scored(s: Sim, w: nat, q: RunningSeq, d: DecodeWorker, o: Outcome): Sim
    requires w < |s.decode|
  {
    WithDecode(s, w, d).(reqs := s.reqs - {q.id}, outcomes := s.outcomes + [o])
  }

  lemma RetireMatched(
      c: Config, s: Sim, loc: Places, who: Clients, evs: set<Event>, w: nat, q: RunningSeq, k: nat,
      d: DecodeWorker, o: Outcome)
    requires Matched(c, s, loc, who, evs) && w < |s.decode| && Located(loc, q.id, Leaving(w))
    requires q.id in s.reqs && k == s.reqs[q.id].client
    requires DecodeWorkerOk(c, d, w, loc - {q.id}) && d.stepping == s.decode[w].stepping
    ensures Matched(c, Scored(s, w, q, d, o), loc - {q.id}, who[k := Waiting], evs + {Arrival(k)})
    ensures Arrival(k) !in evs
  {
    var loc', evs' := loc - {q.id}, evs + {Arrival(k)};
    RemoveOne(loc, q.id);
    RetireClients(c, s.reqs, who, evs, q.id, k);
    PrefillFrame(c, s.prefill, loc, evs, loc', evs');
    TransfersFrame(c, s.xferBusy, s.xferQueue, loc, evs, loc', evs');
    DecodeUpdate(c, s.decode, loc, evs, w, d, loc', evs');
  }

  lemma RetireIs(
      s: Sim, w: nat, q: RunningSeq, at: real, r: Request, d: DecodeWorker, o: Outcome)
    requires w < |s.decode| && q.id in s.reqs && r == s.reqs[q.id] && q.id in s.decode[w].held
    requires d == s.decode[w].(free := s.decode[w].free + s.decode[w].held[q.id],
                               held := s.decode[w].held - {q.id})
    requires r.first.Some?
    requires o == Outcome(q.id, r.arrival, r.first.value, at, r.promptLen, q.emitted, r.osl)
    ensures Retire(s, w, q, at) == Push(Scored(s, w, q, d, o), at, Arrival(r.client))
  {
  }

  lemma ScoreIsOk(c: Config, now: real, r: Request, id: nat, emitted: nat, at: real)
    requires RequestOk(c, now, r) && r.first.Some? && emitted == c.osl && at >= now
    ensures OutcomeOk(c, Outcome(id, r.arrival, r.first.value, at, r.promptLen, emitted, r.osl))
  {
  }

  lemma RetireKeeps(
      c: Config, s: Sim, loc: Places, who: Clients, w: nat, q: RunningSeq, at: real)
    returns (who': Clients)
    requires Base(c, s, loc, who, {DecodeStep(w)}) && w < c.decodeWorkers && at >= s.now
    requires Located(loc, q.id, Leaving(w)) && q.emitted == c.osl
    ensures Base(c, Retire(s, w, q, at), loc - {q.id}, who', {DecodeStep(w)})
  {
    LeavingKnown(c, s.reqs, s.now, s.nextId, loc, q.id, w);
    var hand, d, r := {DecodeStep(w)}, s.decode[w], s.reqs[q.id];
    WorkerIsOk(c, s, loc, who, hand, w, d);
    var d' := RetireWorker(c, d, w, loc, q.id);
    var o := Outcome(q.id, r.arrival, r.first.value, at, r.promptLen, q.emitted, r.osl);
    ScoreIsOk(c, s.now, r, q.id, q.emitted, at);
    RetireIs(s, w, q, at, r, d', o);
    who' := who[r.client := Waiting];
    ScoredKeeps(c, s, loc, who, w, q, r, d', o, hand, at, who');
  }

  lemma LeavingKnown(
      c: Config, reqs: map<nat, Request>, now: real, next: nat, loc: Places, id: nat, w: nat)
    requires RequestsOk(c, reqs, now, next, loc) && Located(loc, id, Leaving(w))
    ensures id in reqs && RequestOk(c, now, reqs[id]) && reqs[id].first.Some?
  {
  }

  lemma WorkerIsOk(
      c: Config, s: Sim, loc: Places, who: Clients, hand: set<Event>, w: nat, d: DecodeWorker)
    requires Base(c, s, loc, who, hand) && w < c.decodeWorkers && d == s.decode[w]
    ensures DecodeWorkerOk(c, d, w, loc)
  {
  }

  lemma ScoredKeeps(
      c: Config, s: Sim, loc: Places, who: Clients, w: nat, q: RunningSeq, r: Request, d: DecodeWorker,
      o: Outcome, hand: set<Event>, at: real, who': Clients)
    requires Base(c, s, loc, who, hand) && w < c.decodeWorkers && at >= s.now
    requires Located(loc, q.id, Leaving(w)) && q.id in s.reqs && r == s.reqs[q.id]
    requires DecodeWorkerOk(c, d, w, loc - {q.id}) && d.stepping == s.decode[w].stepping
    requires OutcomeOk(c, o) && who' == who[r.client := Waiting]
    ensures Base(c, Push(Scored(s, w, q, d, o), at, Arrival(r.client)), loc - {q.id}, who', hand)
  {
    var evs, e := Events(s.heap) + hand, Arrival(r.client);
    RetireMatched(c, s, loc, who, evs, w, q, r.client, d, o);
    RetireRequests(c, s.reqs, s.now, s.nextId, loc, q.id);
    RetireLedger(c, s.reqs, s.outcomes, s.issued, s.nextId, q.id, o);
    PushHolding(c, Scored(s, w, q, d, o), loc - {q.id}, who', hand, at, e, evs + {e});
  }

  /** Retiring leaves the batch and the queue of the worker alone, and pushes nothing before `at`. */
  ghost predicate OnlyRetires(s: Sim, t: Sim, w: nat, at: real) {
    && OnlyDecode(s, t, w) && w < |s.decode|
    && t.decode[w].stepping == s.decode[w].stepping
    && NothingBefore(t.heap, s.heap, at)
  }

  lemma {:induction false} RetireAllOnly(s: Sim, w: nat, qs: seq<RunningSeq>, at: real)
    requires w < |s.decode|
    ensures OnlyRetires(s, RetireAll(s, w, qs, at), w, at)
    decreases |qs|
  {
    if qs != [] {
      RetireAllOnly(Retire(s, w, qs[0], at), w, qs[1..], at);
    }
  }

  lemma RetiringTail(c: Config, loc: Places, w: nat, qs: seq<RunningSeq>)
    requires qs != [] && Retiring(c, loc, w, qs)
    ensures Located(loc, qs[0].id, Leaving(w)) && qs[0].emitted == c.osl
    ensures Retiring(c, loc - {qs[0].id}, w, qs[1..])
  {
    assert qs[0] in qs;
    forall q | q in qs[1..] ensures q in qs && q.id != qs[0].id {
    }
  }

  lemma RetireOnce(s: Sim, w: nat, qs: seq<RunningSeq>, at: real, t: Sim)
    requires w < |s.decode| && qs != [] && t == Retire(s, w, qs[0], at)
    ensures t.now == s.now && RetireAll(s, w, qs, at) == RetireAll(t, w, qs[1..], at)
  {
  }

  /** Only requests outside `qs` are still between places. */
  ghost predicate Retired(loc: Places, was: Places, qs: seq<RunningSeq>) {
    forall id | id in loc && Unsettled(loc[id]) ::
      Located(was, id, loc[id]) && forall q | q in qs :: q.id != id
  }

  lemma RetiredHead(loc: Places, was: Places, qs: seq<RunningSeq>)
    requires qs != [] && Retired(loc, was - {qs[0].id}, qs[1..])
    ensures Retired(loc, was, qs)
  {
    assert qs == [qs[0]] + qs[1..];
  }

  lemma {:induction false} RetireAllKeeps(
      c: Config, s: Sim, loc: Places, who: Clients, w: nat, qs: seq<RunningSeq>, at: real)
    returns (loc': Places, who': Clients)
    requires Base(c, s, loc, who, {DecodeStep(w)}) && w < c.decodeWorkers && at >= s.now
    requires Retiring(c, loc, w, qs)
    ensures Base(c, RetireAll(s, w, qs, at), loc', who', {DecodeStep(w)})
    ensures Retired(loc', loc, qs)
    decreases |qs|
  {
    if qs == [] {
      loc', who' := loc, who;
    } else {
      var t := Retire(s, w, qs[0], at);
      RetiringTail(c, loc, w, qs);
      var mid := RetireKeeps(c, s, loc, who, w, qs[0], at);
      RetireOnce(s, w, qs, at, t);
      loc', who' := RetireAllKeeps(c, t, loc - {qs[0].id}, mid, w, qs[1..], at);
      RetiredHead(loc', loc, qs);
    }
  }
}
