/** What a prefill worker learns from its batches: a batch takes what the cost curve says, so the estimated
    rate follows the curve and never leaves it behind. */
module SimRates {
  import opened Common
  import opened Cost
  import opened RunningSeqs
  import opened DecodeState
  import opened PrefillState
  import PrefillLaws
  import opened SimState
  import opened SimInvariant
  import opened SimPrefill
  import opened SimTransfer
  import opened SimDecode
  import opened SimHandlers
  import opened SimRuns
  import opened SimProgress
  import opened SimTimes
  import opened SimEffects

  /** What the curve says about the batch that runs on `p`, from when it started. */
  ghost predicate EndsAt(c: Config, p: PrefillWorker, at: real)
    requires c.prefillCurve.Valid()
  {
    && p.batch.Some?
    && at == p.batch.value.1 + c.prefillCurve.BatchMs(p.batch.value.0.total, |p.batch.value.0.chunks|)
  }

  /** Every running batch is due to end when the curve says. */
  ghost predicate EndsAsCosted(c: Config, s: Sim)
    requires c.prefillCurve.Valid()
  {
    forall x | x in s.heap && x.event.PrefillDone? && x.event.worker < |s.prefill| ::
      EndsAt(c, s.prefill[x.event.worker], x.at)
  }

  /** Positive, and no more than the curve's peak. */
  ghost predicate Reachable(c: Config, rate: real) { 0.0 < rate <= c.prefillCurve.Peak() }

  /** Of its tuning a worker changes only the rate, and that stays reachable. */
  ghost predicate Tuned(c: Config, p: PrefillWorker) {
    && p.sched.tuning == c.tuning.(tokensPerMs := p.sched.tuning.tokensPerMs)
    && Reachable(c, p.sched.tuning.tokensPerMs)
  }

  ghost predicate AllTuned(c: Config, s: Sim) { forall p | p in s.prefill :: Tuned(c, p) }

  /** The tuning stays, and so does a batch that runs. */
  ghost predicate Undisturbed(p: PrefillWorker, q: PrefillWorker) {
    q.sched.tuning == p.sched.tuning && (p.busy ==> q.busy && q.batch == p.batch)
  }

  ghost predicate AllUndisturbed(s: Sim, t: Sim) {
    |t.prefill| == |s.prefill| && forall v: nat | v < |s.prefill| :: Undisturbed(s.prefill[v], t.prefill[v])
  }

  // ---------------------------------------------------------------- handlers

  lemma StartUndisturbed(c: Config, s: Sim, w: nat)
    requires w < |s.prefill| && c.prefillCurve.Valid()
    ensures AllUndisturbed(s, StartPrefill(c, s, w))
  {
  }

  lemma ArrivalUndisturbed(c: Config, s: Sim, k: nat, r: Route)
    requires r.prefill < |s.prefill| && c.prefillCurve.Valid()
    ensures AllUndisturbed(s, OnArrival(c, s, k, r))
  {
    var i := Issue(c, s, k, r);
    assert AllUndisturbed(s, i);
    ArrivalIs(c, s, k, r, i);
    StartUndisturbed(c, i, r.prefill);
  }

  lemma KvArrivedUndisturbed(c: Config, s: Sim, id: nat, w: nat)
    requires w < |s.decode|
    ensures OnKvArrived(c, s, id, w).prefill == s.prefill
  {
    var l, at := Lift(s), s.now + c.transferMs;
    var d := Drain(c, l, at);
    KvArrivedIs(c, s, id, w, l, at, d, Queue(d, id, w));
    DrainTimes(c, l, at);
  }

  lemma {:induction false} RetireAllUndisturbed(s: Sim, w: nat, qs: seq<RunningSeq>, at: real)
    requires w < |s.decode|
    ensures RetireAll(s, w, qs, at).prefill == s.prefill
    decreases |qs|
  {
    if qs != [] {
      RetireAllUndisturbed(Retire(s, w, qs[0], at), w, qs[1..], at);
    }
  }

  lemma AfterUndisturbed(c: Config, s: Sim, w: nat, steer: real, keys: seq<nat>)
    requires w < |s.decode|
    ensures AfterAdmission(c, s, w, steer, keys).prefill == s.prefill
  {
    var at := NextStep(c, s, w);
    if |s.decode[w].sched.running| > 0 {
      var done := Synthetic(s.decode[w].sched, at, steer, keys).1;
      RetireAllUndisturbed(StepBatch(s, w, at, steer, keys), w, done, at);
    }
  }

  lemma DecodeStepUndisturbed(c: Config, s: Sim, w: nat, steer: real, keys: seq<nat>)
    requires w < |s.decode|
    ensures OnDecodeStep(c, s, w, steer, keys).prefill == s.prefill
  {
    AdmitAllOnly(c, s, w);
    AfterUndisturbed(c, AdmitAll(c, s, w), w, steer, keys);
  }

  /** The rate of a worker moves from `was` to `rate`, having computed `tokens` in `elapsed`. */
  ghost predicate Learns(t: Tuning, rate: real, tokens: nat, elapsed: real) {
    var was := t.tokensPerMs;
    if elapsed <= 0.0 || tokens == 0 || t.rateAlpha <= 0.0 then rate == was
    else if t.rateAlpha >= 1.0 then rate == tokens as real / elapsed
    else rate - was == t.rateAlpha * (tokens as real / elapsed - was)
  }

  lemma TakeLearns(s: Sim, w: nat, p: PrefillWorker, batch: Batch, started: real, b: Sim)
    requires w < |s.prefill| && p == s.prefill[w] && p.batch == Some((batch, started))
    requires Valid(p.sched) && PrefillLaws.BatchFits(p.sched.queue, batch.chunks)
    requires b == TakeBatch(s, w)
    ensures Learned(s, w, s.now, b)
  {
    PrefillLaws.RateFollows(p.sched, batch, s.now - started);
    TakenIs(s, w, p, batch, started, b);
  }

  lemma TakenIs(s: Sim, w: nat, p: PrefillWorker, batch: Batch, started: real, b: Sim)
    requires w < |s.prefill| && p == s.prefill[w] && p.batch == Some((batch, started))
    requires b == TakeBatch(s, w)
    ensures |b.prefill| == |s.prefill|
    ensures b.prefill[w].sched == AfterComplete(p.sched, batch, s.now - started)
    ensures forall v: nat | v < |s.prefill| && v != w :: b.prefill[v] == s.prefill[v]
  {
  }

  /** The batch of `w` ends: no other worker is disturbed, and `w` learns from what the batch took. */
  ghost predicate Learned(s: Sim, w: nat, now: real, t: Sim)
    requires w < |s.prefill| && s.prefill[w].batch.Some?
  {
    && |t.prefill| == |s.prefill|
    && (forall v: nat | v < |s.prefill| && v != w :: Undisturbed(s.prefill[v], t.prefill[v]))
    && var was, next := s.prefill[w].sched.tuning, t.prefill[w].sched.tuning;
      && next == was.(tokensPerMs := next.tokensPerMs)
      && Learns(was, next.tokensPerMs, s.prefill[w].batch.value.0.total, now - s.prefill[w].batch.value.1)
  }

  lemma PrefillDoneLearns(c: Config, s: Sim, loc: Places, who: Clients, w: nat)
    requires ConfigOk(c) && Base(c, s, loc, who, {PrefillDone(w)})
    ensures w < |s.prefill| && s.prefill[w].batch.Some?
    ensures Learned(s, w, s.now, OnPrefillDone(c, s, w))
  {
    BatchKnown(c, s, loc, who, w);
    assert PrefillWorkerOk(s.prefill[w], w, loc);
    var b, ids, at := TakeBatch(s, w), FinishedBy(s.prefill[w]), s.now + c.transferMs;
    var t := HandOffAll(b, ids);
    var u := Drain(c, t, at);
    PrefillDoneIs(c, s, w, b, ids, t, at, u);
    TakeLearns(s, w, s.prefill[w], s.prefill[w].batch.value.0, s.prefill[w].batch.value.1, b);
    HandOffAllQueues(b, ids);
    DrainTimes(c, t, at);
    StartUndisturbed(c, u, w);
    LearnedAfter(s, w, b, StartPrefill(c, u, w));
  }

  lemma LearnedAfter(s: Sim, w: nat, b: Sim, v: Sim)
    requires w < |s.prefill| && s.prefill[w].batch.Some? && Learned(s, w, s.now, b)
    requires |v.prefill| == |b.prefill|
    requires forall i: nat | i < |b.prefill| :: Undisturbed(b.prefill[i], v.prefill[i])
    ensures Learned(s, w, s.now, v)
  {
    forall i: nat | i < |s.prefill| && i != w ensures Undisturbed(s.prefill[i], v.prefill[i]) {
      assert Undisturbed(s.prefill[i], b.prefill[i]) && Undisturbed(b.prefill[i], v.prefill[i]);
    }
    assert Undisturbed(b.prefill[w], v.prefill[w]);
  }

  // ------------------------------------------------------------------ events

  /** What any event does to the prefill workers. */
  ghost predicate Effect(s: Sim, now: real, e: Event, t: Sim) {
    if e.PrefillDone? then
      e.worker < |s.prefill| && s.prefill[e.worker].batch.Some? && Learned(s, e.worker, now, t)
    else AllUndisturbed(s, t)
  }

  lemma OtherEffect(c: Config, s: Sim, e: Event, x: Choice, t: Sim)
    requires c.prefillCurve.Valid() && InRange(s, e, x) && t == Handle(c, s, e, x) && !e.PrefillDone?
    ensures AllUndisturbed(s, t)
  {
    match e
    case Arrival(k) => ArrivalUndisturbed(c, s, k, x.route);
    case KvArrived(id, w) => KvArrivedUndisturbed(c, s, id, w);
    case DecodeStep(w) => DecodeStepUndisturbed(c, s, w, x.steer, x.keys);
  }

  lemma HandleEffect(c: Config, s: Sim, loc: Places, who: Clients, e: Event, x: Choice, t: Sim)
    requires ConfigOk(c) && Base(c, s, loc, who, {e})
    requires InRange(s, e, x) && t == Handle(c, s, e, x)
    ensures Effect(s, s.now, e, t)
  {
    if e.PrefillDone? {
      PrefillDoneLearns(c, s, loc, who, e.worker);
    } else {
      OtherEffect(c, s, e, x, t);
    }
  }

  /** The pending ends of batches are of busy workers, and none is the event in hand. */
  ghost predicate OthersBusy(s: Sim, heap: set<Scheduled>, e: Event) {
    forall y | y in heap && y.event.PrefillDone? ::
      y.event != e && y.event.worker < |s.prefill| && s.prefill[y.event.worker].busy
  }

  lemma PendingAreBusy(c: Config, s: Sim, loc: Places, who: Clients, e: Event)
    requires Base(c, s, loc, who, {e})
    ensures OthersBusy(s, s.heap, e)
  {
    forall y | y in s.heap && y.event.PrefillDone?
      ensures y.event != e && y.event.worker < |s.prefill| && s.prefill[y.event.worker].busy
    {
      assert y.event in Events(s.heap) + {e};
    }
  }

  lemma FireEffect(c: Config, s: Sim, loc: Places, who: Clients, e: Scheduled, x: Choice, t: Sim)
    requires ConfigOk(c) && Settled(c, s, loc, who) && Fires(c, s, e, x, t)
    ensures Effect(s, e.at, e.event, t) && OthersBusy(s, s.heap - {e}, e.event)
  {
    var p := Popped(s, e);
    PopKeeps(c, s, loc, who, e);
    HandleEffect(c, p, loc, who, e.event, x, t);
    PendingAreBusy(c, p, loc, who, e.event);
    PoppedEffect(s, p, e, t);
  }

  lemma PoppedEffect(s: Sim, p: Sim, e: Scheduled, t: Sim)
    requires p == Popped(s, e) && Effect(p, e.at, e.event, t) && OthersBusy(p, p.heap, e.event)
    ensures Effect(s, e.at, e.event, t) && OthersBusy(s, s.heap - {e}, e.event)
  {
  }

  lemma StillUndisturbed(s: Sim, now: real, e: Event, t: Sim, v: nat)
    requires Effect(s, now, e, t) && v < |s.prefill| && e != PrefillDone(v)
    ensures |t.prefill| == |s.prefill| && Undisturbed(s.prefill[v], t.prefill[v])
  {
  }

  /** Whatever fires, batches stay due when the curve says. */
  lemma FireCosts(c: Config, s: Sim, loc: Places, who: Clients, e: Scheduled, x: Choice, t: Sim)
    requires ConfigOk(c) && Settled(c, s, loc, who) && Fires(c, s, e, x, t) && EndsAsCosted(c, s)
    ensures EndsAsCosted(c, t)
  {
    FireEffect(c, s, loc, who, e, x, t);
    FireMakesDue(c, s, loc, who, e, x, t);
    forall y | y in t.heap && y.event.PrefillDone? && y.event.worker < |t.prefill|
      ensures EndsAt(c, t.prefill[y.event.worker], y.at)
    {
      if y in s.heap - {e} {
        assert EndsAt(c, s.prefill[y.event.worker], y.at);
        StillUndisturbed(s, e.at, e.event, t, y.event.worker);
      } else {
        assert Due(c, s, e.at, e.event, t, y);
      }
    }
  }

  /** When a batch ends, the worker learns exactly the rate that the curve gives a batch of that size. */
  lemma LearnsTheCurve(
      c: Config, s: Sim, loc: Places, who: Clients, e: Scheduled, x: Choice, t: Sim, w: nat)
    requires ConfigOk(c) && Settled(c, s, loc, who) && Fires(c, s, e, x, t) && EndsAsCosted(c, s)
    requires e.event == PrefillDone(w)
    ensures w < |s.prefill| == |t.prefill| && s.prefill[w].batch.Some?
    ensures var was, next := s.prefill[w].sched.tuning, t.prefill[w].sched.tuning;
      var b := s.prefill[w].batch.value.0;
      && next == was.(tokensPerMs := next.tokensPerMs)
      && Learns(was, next.tokensPerMs, b.total, c.prefillCurve.BatchMs(b.total, |b.chunks|))
  {
    FireEffect(c, s, loc, who, e, x, t);
    assert EndsAt(c, s.prefill[w], e.at);
  }

  // ------------------------------------------------------------------- rates

  lemma QuotientPositive(x: real, d: real)
    requires x > 0.0 && d > 0.0
    ensures x / d > 0.0
  {
    ScaleBack(x, d);
    if x / d <= 0.0 {
      ProductNonNegative(-(x / d), d);
    }
  }

  /** No batch computes faster than the peak. */
  lemma SeenReachable(c: Config, tokens: nat, n: nat)
    requires c.prefillCurve.Valid() && tokens > 0
    ensures var ms := c.prefillCurve.BatchMs(tokens, n); ms > 0.0 && Reachable(c, tokens as real / ms)
  {
    var curve, x := c.prefillCurve, tokens as real;
    RateIsPositive(curve, n);
    var rate, ms := curve.RateAt(n), curve.BatchMs(tokens, n);
    QuotientPositive(x, rate);
    QuotientPositive(x, ms);
    ScaleBack(x, rate);
    Scale(rate, x / rate, ms);
    QuotientAtMost(x, ms, rate);
  }

  lemma Between(was: real, seen: real, share: real, peak: real, step: real)
    requires 0.0 < was <= peak && 0.0 < seen <= peak && 0.0 < share < 1.0 && step == seen - was
    ensures 0.0 < was + share * step <= peak
  {
    var part, back := share * step, -step;
    if step >= 0.0 {
      ProductNonNegative(share, step);
      ShareOf(share, step);
    } else {
      ProductNonNegative(share, back);
      ShareOf(share, back);
      assert part == -(share * back);
      assert share * back <= back;
      assert was + part >= was - back;
    }
  }

  lemma ShareOf(share: real, x: real)
    requires share <= 1.0 && x >= 0.0
    ensures share * x <= x
  {
    ProductNonNegative(1.0 - share, x);
    assert (1.0 - share) * x == x - share * x;
  }

  lemma LearnedReachable(c: Config, t: Tuning, rate: real, tokens: nat, n: nat)
    requires c.prefillCurve.Valid() && Reachable(c, t.tokensPerMs)
    requires Learns(t, rate, tokens, c.prefillCurve.BatchMs(tokens, n))
    ensures Reachable(c, rate)
  {
    if tokens > 0 {
      SeenReachable(c, tokens, n);
      if 0.0 < t.rateAlpha < 1.0 {
        var seen := tokens as real / c.prefillCurve.BatchMs(tokens, n);
        Between(t.tokensPerMs, seen, t.rateAlpha, c.prefillCurve.Peak(), seen - t.tokensPerMs);
      }
    }
  }

  lemma FireTunes(c: Config, s: Sim, loc: Places, who: Clients, e: Scheduled, x: Choice, t: Sim)
    requires ConfigOk(c) && Settled(c, s, loc, who) && Fires(c, s, e, x, t)
    requires EndsAsCosted(c, s) && AllTuned(c, s)
    ensures AllTuned(c, t)
  {
    FireEffect(c, s, loc, who, e, x, t);
    forall v: nat | v < |t.prefill| ensures Tuned(c, t.prefill[v]) {
      assert s.prefill[v] in s.prefill;
      if e.event == PrefillDone(v) {
        LearnsTheCurve(c, s, loc, who, e, x, t, v);
        var b := s.prefill[v].batch.value.0;
        LearnedReachable(
          c, s.prefill[v].sched.tuning, t.prefill[v].sched.tuning.tokensPerMs, b.total, |b.chunks|);
      } else {
        StillUndisturbed(s, e.at, e.event, t, v);
      }
    }
  }

  lemma {:induction false} ReleasedCosts(c: Config, n: nat)
    requires c.prefillCurve.Valid() && Reachable(c, c.tuning.tokensPerMs)
    ensures EndsAsCosted(c, Released(c, n)) && AllTuned(c, Released(c, n))
  {
    if n > 0 {
      ReleasedCosts(c, n - 1);
    }
  }

  /** Over every run that starts from a reachable estimate, every batch is due when the curve says, and no
      worker ever believes itself idle or faster than the curve's peak. */
  lemma {:induction false} RatesStayReachable(c: Config, states: seq<Sim>, events: seq<Scheduled>, s: Sim)
    requires ConfigOk(c) && IsTrace(c, states, events) && s == states[|events|]
    requires Reachable(c, c.tuning.tokensPerMs)
    ensures EndsAsCosted(c, s) && AllTuned(c, s)
    decreases |events|
  {
    var n := |events|;
    if n == 0 {
      ReleasedCosts(c, c.clients);
    } else {
      var r, e := states[n - 1], events[n - 1];
      TraceFront(c, states, events, n - 1);
      RatesStayReachable(c, states[..n], events[..n - 1], r);
      NextRates(c, states, events, n, r, e, s);
    }
  }

  lemma NextRates(
      c: Config, states: seq<Sim>, events: seq<Scheduled>, n: nat, r: Sim, e: Scheduled, s: Sim)
    requires ConfigOk(c) && IsTrace(c, states, events) && n == |events| > 0
    requires r == states[n - 1] && e == events[n - 1] && s == states[n]
    requires EndsAsCosted(c, r) && AllTuned(c, r)
    ensures EndsAsCosted(c, s) && AllTuned(c, s)
  {
    var loc, who := BeforeLast(c, states, events, n, r);
    var x := LastFires(c, states, events, n, r, e, s);
    FireCosts(c, r, loc, who, e, x, s);
    FireTunes(c, r, loc, who, e, x, s);
  }
}
