/** What reaches a decode worker leaves it: if its blocks fit, within a bounded number of steps, and
    otherwise never. */
module SimProgress {
  import opened Common
  import opened RunningSeqs
  import ItlControl
  import opened DecodeState
  import opened SimState
  import opened SimInvariant
  import opened SimPrefill
  import opened SimTransfer
  import opened SimDecode
  import opened SimHandlers
  import opened SimRuns

  /** What a request reserves fits into an empty worker, above its watermark. */
  predicate Fits(c: Config) { Reserve(c) + c.watermark <= c.totalBlocks }

  ghost predicate CapOk(d: DecodeWorker) { ItlControl.InBounds(d.sched.controller) }

  ghost predicate CapsOk(decode: seq<DecodeWorker>) { forall w: nat | w < |decode| :: CapOk(decode[w]) }

  /** The controllers start with their caps within bounds. */
  ghost predicate CapsFit(c: Config) { ItlControl.InBounds(c.decode.controller) }

  // --------------------------------------------------------------- admission

  lemma NothingHeld(c: Config, d: DecodeWorker, w: nat, loc: Places)
    requires DecodeWorkerOk(c, d, w, loc) && d.sched.running == map[]
    requires forall id :: !Located(loc, id, Leaving(w))
    ensures d.free == c.totalBlocks
  {
    forall id ensures id !in d.held {
      assert id in d.sched.running <==> Located(loc, id, AtRunning(w));
    }
    assert d.held == map[];
  }

  lemma HeldFits(c: Config, d: DecodeWorker, w: nat, loc: Places)
    requires DecodeWorkerOk(c, d, w, loc) && d.sched.running != map[]
    ensures Fits(c)
  {
    var id :| id in d.sched.running;
    assert Located(loc, id, AtRunning(w));
    assert id in d.held && |d.held| >= 1;
    assert Reserve(c) * |d.held| >= Reserve(c);
  }

  /** An empty batch takes a request exactly when its blocks fit. */
  lemma EmptyBatchAdmitsIff(c: Config, d: DecodeWorker, w: nat, loc: Places, now: real, r: Request)
    requires DecodeWorkerOk(c, d, w, loc) && CapOk(d) && RequestOk(c, now, r)
    requires d.sched.running == map[] && forall id :: !Located(loc, id, Leaving(w))
    ensures Admission(c, r, d).Admit? <==> Fits(c)
  {
    NothingHeld(c, d, w, loc);
  }

  /** An admission pass takes no batch past the cap of its moment: each sequence it admits finds fewer
      running than that. */
  lemma {:induction false} AdmissionStaysBelowCap(c: Config, s: Sim, w: nat)
    requires w < |s.decode|
    ensures var d, e := s.decode[w], AdmitAll(c, s, w).decode[w];
      e.sched.running == d.sched.running || |e.sched.running| as real < d.sched.controller.cap + 1.0
    decreases |s.decode[w].pending|
  {
    var d := s.decode[w];
    if d.pending != [] {
      if d.pending[0] !in s.reqs {
        AdmissionStaysBelowCap(c, WithDecode(s, w, d.(pending := d.pending[1..])), w);
      } else if Admission(c, s.reqs[d.pending[0]], d).Admit? {
        OneMoreRunning(c, s, w, d, d.pending[0]);
        AdmissionStaysBelowCap(c, AdmitHead(c, s, w), w);
      }
    }
  }

  lemma OneMoreRunning(c: Config, s: Sim, w: nat, d: DecodeWorker, id: nat)
    requires w < |s.decode| && d == s.decode[w] && d.pending != [] && id == d.pending[0] && id in s.reqs
    requires Admission(c, s.reqs[id], d).Admit?
    ensures var e := AdmitHead(c, s, w).decode[w];
      && e.sched.controller == d.sched.controller
      && |e.sched.running| as real < d.sched.controller.cap + 1.0
  {
    var e := AdmitHead(c, s, w).decode[w];
    assert e.sched.running.Keys == d.sched.running.Keys + {id};
    assert |e.sched.running.Keys| == |e.sched.running| && |d.sched.running.Keys| == |d.sched.running|;
  }

  // -------------------------------------------------------------- steps to go

  /** The most steps that a request spends in a batch. */
  function Span(c: Config): nat { if c.osl >= 1 then c.osl else 1 }

  /** The most steps that a running sequence has to go. */
  function Left(q: RunningSeq): nat { if q.Remaining() >= 1 then q.Remaining() else 1 }

  ghost predicate BatchWithin(running: map<nat, RunningSeq>, b: nat) {
    forall id | id in running :: Left(running[id]) <= b
  }

  /** `id` is at `i` in the queue: those before it and itself may each take a whole span, once the
      batch, which has at most `b` steps to go, has emptied. */
  ghost predicate QueuedWithin(span: nat, d: DecodeWorker, id: nat, i: nat, b: nat, m: nat) {
    && i < |d.pending| && d.pending[i] == id
    && b <= span && BatchWithin(d.sched.running, b)
    && span * (i + 1) + b <= m
  }

  /** `id` is at the worker with at most `m` steps to go. */
  ghost predicate Within(c: Config, d: DecodeWorker, id: nat, m: nat) {
    || (id in d.sched.running && Left(d.sched.running[id]) <= m)
    || exists i: nat, b: nat :: QueuedWithin(Span(c), d, id, i, b, m)
  }

  lemma BatchWithinSpan(c: Config, d: DecodeWorker, w: nat, loc: Places)
    requires DecodeWorkerOk(c, d, w, loc)
    ensures BatchWithin(d.sched.running, Span(c))
  {
  }

  /** Whatever is at the worker has at most so many steps to go. */
  lemma AtWorkerWithin(c: Config, d: DecodeWorker, id: nat, m: nat)
    requires BatchWithin(d.sched.running, Span(c)) && (id in d.pending || id in d.sched.running)
    requires m == Span(c) * (|d.pending| + 1)
    ensures Within(c, d, id, m)
  {
    SpanTimes(Span(c), 1, |d.pending| + 1);
    if id in d.pending {
      var i: nat :| i < |d.pending| && d.pending[i] == id;
      SpanTimes(Span(c), i + 2, |d.pending| + 1);
      MulSucc(Span(c), i + 1);
      assert QueuedWithin(Span(c), d, id, i, Span(c), m);
    }
  }

  lemma SpanTimes(span: nat, n: nat, k: nat)
    requires n <= k
    ensures span * n <= span * k
  {
  }

  /** Admitting the head leaves every other request no more steps to go, and the head a span. */
  lemma GrownWithin(
      c: Config, d: DecodeWorker, w: nat, loc: Places, q: RunningSeq, now: real, id: nat, m: nat)
    requires DecodeWorkerOk(c, d, w, loc) && d.pending != [] && d.pending[0] == q.id
    requires d.free >= Reserve(c) && q.requested == c.osl && Within(c, d, id, m)
    ensures Within(c, Grown(d, Reserve(c), q, now), id, m)
  {
    var e := Grown(d, Reserve(c), q, now);
    assert d.pending[0] in d.pending;
    assert Located(loc, q.id, AtPending(w)) && q.id !in d.sched.running;
    if !(id in d.sched.running && Left(d.sched.running[id]) <= m) {
      var i: nat, b: nat :| QueuedWithin(Span(c), d, id, i, b, m);
      MulSucc(Span(c), i);
      if i > 0 {
        BatchWithinSpan(c, d, w, loc);
        assert e.pending[i - 1] == id;
        assert QueuedWithin(Span(c), e, id, i - 1, Span(c), m);
      }
    }
  }

  lemma HeadTaken(
      c: Config, s: Sim, loc: Places, who: Clients, hand: set<Event>, w: nat, head: nat, t: Sim,
      id: nat, m: nat)
    requires Base(c, s, loc, who, hand) && w < c.decodeWorkers
    requires s.decode[w].pending != [] && s.decode[w].pending[0] == head && head in s.reqs
    requires Admission(c, s.reqs[head], s.decode[w]).Admit? && t == AdmitHead(c, s, w)
    requires CapOk(s.decode[w]) && Within(c, s.decode[w], id, m)
    ensures CapOk(t.decode[w]) && Within(c, t.decode[w], id, m)
  {
    var q := Entering(head, s.reqs[head], s.now);
    PendingKnown(c, s, loc, who, hand, w);
    AdmitHeadIs(c, s, w, s.decode[w], head, q);
    WorkerIsOk(c, s, loc, who, hand, w, s.decode[w]);
    GrownWithin(c, s.decode[w], w, loc, q, s.now, id, m);
  }

  lemma RefusedIs(c: Config, d: DecodeWorker, v: Decision, id: nat, m: nat)
    requires CapOk(d) && Within(c, d, id, m)
    ensures var e := d.(sched := Note(d.sched, v));
      && CapOk(e) && Within(c, e, id, m)
      && e.sched.running == d.sched.running && e.pending == d.pending
  {
    ItlControl.CapStaysInBounds(d.sched.controller, 0.0, 0);
    var e := d.(sched := Note(d.sched, v));
    if i: nat, b: nat :| QueuedWithin(Span(c), d, id, i, b, m) {
      assert QueuedWithin(Span(c), e, id, i, b, m);
    }
  }

  lemma HeadRefused(
      c: Config, s: Sim, loc: Places, who: Clients, hand: set<Event>, w: nat, head: nat)
    requires Base(c, s, loc, who, hand) && AllSettled(loc) && w < c.decodeWorkers && CapOk(s.decode[w])
    requires s.decode[w].pending != [] && s.decode[w].pending[0] == head && head in s.reqs
    requires !Admission(c, s.reqs[head], s.decode[w]).Admit? && s.decode[w].sched.running == map[]
    ensures !Fits(c)
  {
    NoneLeaving(loc);
    PendingKnown(c, s, loc, who, hand, w);
    WorkerIsOk(c, s, loc, who, hand, w, s.decode[w]);
    EmptyBatchAdmitsIff(c, s.decode[w], w, loc, s.now, s.reqs[head]);
  }

  /** An admission pass brings no request further from its end, and leaves the batch empty only if
      nothing is queued or nothing fits. */
  lemma {:induction false} AdmitAllWithin(
      c: Config, s: Sim, loc: Places, who: Clients, hand: set<Event>, w: nat, id: nat, m: nat)
    returns (loc': Places)
    requires Base(c, s, loc, who, hand) && AllSettled(loc) && w < c.decodeWorkers
    requires CapOk(s.decode[w]) && Within(c, s.decode[w], id, m)
    ensures Base(c, AdmitAll(c, s, w), loc', who, hand) && AllSettled(loc')
    ensures var d := AdmitAll(c, s, w).decode[w];
      && CapOk(d) && Within(c, d, id, m)
      && (d.sched.running == map[] ==> d.pending == [] || !Fits(c))
    decreases |s.decode[w].pending|
  {
    loc' := loc;
    if s.decode[w].pending != [] {
      var head := s.decode[w].pending[0];
      PendingKnown(c, s, loc, who, hand, w);
      if Admission(c, s.reqs[head], s.decode[w]).Admit? {
        var t := AdmitHead(c, s, w);
        var mid := TakeHead(c, s, loc, who, hand, w, head, t);
        AdmitAllTakes(c, s, w, head, t);
        HeadTaken(c, s, loc, who, hand, w, head, t, id, m);
        SettledStays(mid, loc);
        loc' := AdmitAllWithin(c, t, mid, who, hand, w, id, m);
      } else {
        StopsWithin(c, s, loc, who, hand, w, head, id, m);
      }
    }
  }

  lemma StopsWithin(
      c: Config, s: Sim, loc: Places, who: Clients, hand: set<Event>, w: nat, head: nat, id: nat, m: nat)
    requires Base(c, s, loc, who, hand) && AllSettled(loc) && w < c.decodeWorkers
    requires CapOk(s.decode[w]) && Within(c, s.decode[w], id, m)
    requires s.decode[w].pending != [] && s.decode[w].pending[0] == head && head in s.reqs
    requires !Admission(c, s.reqs[head], s.decode[w]).Admit?
    ensures Base(c, AdmitAll(c, s, w), loc, who, hand)
    ensures var d := AdmitAll(c, s, w).decode[w];
      && CapOk(d) && Within(c, d, id, m)
      && (d.sched.running == map[] ==> d.pending == [] || !Fits(c))
  {
    var d := s.decode[w];
    var v := Admission(c, s.reqs[head], d);
    AdmitAllStops(c, s, w, head, d, v);
    RefusedIs(c, d, v, id, m);
    RefuseKeeps(c, s, loc, who, hand, w, d, v);
    if d.sched.running == map[] {
      HeadRefused(c, s, loc, who, hand, w, head);
    }
  }

  // -------------------------------------------------------------- the step

  lemma LeftDrops(q: RunningSeq, now: real, tokens: nat)
    requires tokens >= 1 && !Finishing(q)
    ensures Left(q.Emit(now, tokens)) + 1 <= Left(q)
  {
  }

  /** Every sequence has left at its end or is a step nearer to it. */
  ghost predicate Nearer(was: map<nat, RunningSeq>, now: map<nat, RunningSeq>) {
    && (forall id | id in now :: id in was && Left(now[id]) + 1 <= Left(was[id]))
    && (forall id | id in was :: id in now || Finishing(was[id]))
  }

  lemma StepNears(s: DecodeSched, at: real, steer: real, keys: seq<nat>, t: DecodeSched)
    requires Lists(keys, s.running) && s.tokensPerStep >= 1 && t == Synthetic(s, at, steer, keys).0
    ensures Nearer(s.running, t.running)
  {
    SyntheticStep(s, at, steer, keys);
    forall id | id in t.running ensures id in s.running && Left(t.running[id]) + 1 <= Left(s.running[id]) {
      LeftDrops(s.running[id], at, s.tokensPerStep);
    }
  }

  lemma NearerQueue(span: nat, d: DecodeWorker, e: DecodeWorker, id: nat, i: nat, b: nat, m: nat)
    requires QueuedWithin(span, d, id, i, b, m) && d.sched.running != map[]
    requires e.pending == d.pending && Nearer(d.sched.running, e.sched.running)
    ensures b >= 1 && m >= 1 && QueuedWithin(span, e, id, i, b - 1, m - 1)
  {
    var x :| x in d.sched.running;
    assert 1 <= Left(d.sched.running[x]) <= b;
  }

  /** So a step of the batch brings every request at the worker one step nearer its end. */
  lemma NearerWithin(c: Config, d: DecodeWorker, e: DecodeWorker, id: nat, m: nat)
    requires Within(c, d, id, m) && d.sched.running != map[]
    requires e.pending == d.pending && Nearer(d.sched.running, e.sched.running)
    ensures m >= 1
    ensures (id in d.sched.running && Finishing(d.sched.running[id])) || Within(c, e, id, m - 1)
  {
    if !(id in d.sched.running && Left(d.sched.running[id]) <= m) {
      var i: nat, b: nat :| QueuedWithin(Span(c), d, id, i, b, m);
      NearerQueue(Span(c), d, e, id, i, b, m);
    }
  }

  // ------------------------------------------------------------------ frames

  /** `id` was scored, and is no longer live. */
  ghost predicate Gone(s: Sim, id: nat) {
    && id < s.nextId && id !in s.reqs
    && exists i :: 0 <= i < |s.outcomes| && s.outcomes[i].id == id
  }

  /** Scores stay, and no id is issued twice. */
  ghost predicate Grows(s: Sim, t: Sim) {
    && s.nextId <= t.nextId && s.outcomes <= t.outcomes
    && forall id | id in t.reqs :: id in s.reqs || id >= s.nextId
  }

  lemma GoneStays(s: Sim, t: Sim, id: nat)
    requires Gone(s, id) && Grows(s, t)
    ensures Gone(t, id)
  {
    var i :| 0 <= i < |s.outcomes| && s.outcomes[i].id == id;
    assert t.outcomes[i] == s.outcomes[i];
  }

  lemma GrowsTwice(s: Sim, t: Sim, u: Sim)
    requires Grows(s, t) && Grows(t, u)
    ensures Grows(s, u)
  {
  }

  /** Neither the decode side nor the books change. */
  ghost predicate SameBooks(s: Sim, t: Sim) {
    t.nextId == s.nextId && t.outcomes == s.outcomes && t.reqs.Keys == s.reqs.Keys && t.decode == s.decode
  }

  lemma StartPrefillBooks(c: Config, s: Sim, w: nat)
    requires w < |s.prefill| && c.prefillCurve.Valid()
    ensures SameBooks(s, StartPrefill(c, s, w))
  {
  }

  lemma {:induction false} HandOffAllBooks(s: Sim, ids: seq<nat>)
    ensures SameBooks(s, HandOffAll(s, ids))
    decreases |ids|
  {
    if ids != [] {
      var t := HandOff(s, ids[0]);
      assert t.reqs.Keys == s.reqs.Keys;
      HandOffAllBooks(t, ids[1..]);
    }
  }

  lemma {:induction false} DrainBooks(c: Config, s: Sim, at: real)
    ensures SameBooks(s, Drain(c, s, at))
    decreases |s.xferQueue|
  {
    if s.xferBusy < Buffers(c) && s.xferQueue != [] {
      DrainBooks(c, StartTransfer(s, at), at);
    }
  }

  lemma PrefillDoneBooks(c: Config, s: Sim, w: nat)
    requires w < |s.prefill| && c.prefillCurve.Valid()
    ensures SameBooks(s, OnPrefillDone(c, s, w))
  {
    if s.prefill[w].batch.Some? {
      var b, ids := TakeBatch(s, w), FinishedBy(s.prefill[w]);
      var t := HandOffAll(b, ids);
      HandOffAllBooks(b, ids);
      DrainBooks(c, t, s.now + c.transferMs);
      StartPrefillBooks(c, Drain(c, t, s.now + c.transferMs), w);
    }
  }

  lemma ArrivalBooks(c: Config, s: Sim, k: nat, r: Route)
    requires r.prefill < |s.prefill| && c.prefillCurve.Valid()
    ensures Grows(s, OnArrival(c, s, k, r)) && OnArrival(c, s, k, r).decode == s.decode
    ensures OnArrival(c, s, k, r).outcomes == s.outcomes
  {
    StartPrefillBooks(c, Issue(c, s, k, r), r.prefill);
  }

  /** Nothing leaves the worker's queue or its batch. */
  ghost predicate Later(d: DecodeWorker, e: DecodeWorker) { e.sched == d.sched && d.pending <= e.pending }

  lemma KvArrivedBooks(c: Config, s: Sim, id: nat, v: nat, w: nat)
    requires v < |s.decode| && w < |s.decode|
    ensures var t := OnKvArrived(c, s, id, v);
      Grows(s, t) && t.outcomes == s.outcomes && w < |t.decode| && Later(s.decode[w], t.decode[w])
  {
    DrainBooks(c, Lift(s), s.now + c.transferMs);
  }

  lemma {:induction false} AdmitAllBooks(c: Config, s: Sim, w: nat)
    requires w < |s.decode|
    ensures var t := AdmitAll(c, s, w);
      t.nextId == s.nextId && t.outcomes == s.outcomes && t.reqs == s.reqs
    decreases |s.decode[w].pending|
  {
    var d := s.decode[w];
    if d.pending != [] {
      if d.pending[0] !in s.reqs {
        AdmitAllBooks(c, WithDecode(s, w, d.(pending := d.pending[1..])), w);
      } else if Admission(c, s.reqs[d.pending[0]], d).Admit? {
        AdmitAllBooks(c, AdmitHead(c, s, w), w);
      }
    }
  }

  /** Retiring scores, and leaves the worker's queue and what is left of its batch alone. */
  ghost predicate Scores(s: Sim, t: Sim, w: nat) {
    && Grows(s, t) && t.nextId == s.nextId && (forall id | id in t.reqs :: id in s.reqs)
    && w < |s.decode| == |t.decode|
    && t.decode[w].sched == s.decode[w].sched && t.decode[w].pending == s.decode[w].pending
  }

  lemma ScoresTwice(s: Sim, t: Sim, u: Sim, w: nat)
    requires Scores(s, t, w) && Scores(t, u, w)
    ensures Scores(s, u, w)
  {
  }

  lemma RetireScores(s: Sim, w: nat, q: RunningSeq, at: real)
    requires w < |s.decode|
    ensures Scores(s, Retire(s, w, q, at), w)
  {
  }

  lemma {:induction false} RetireAllScores(s: Sim, w: nat, qs: seq<RunningSeq>, at: real)
    requires w < |s.decode|
    ensures Scores(s, RetireAll(s, w, qs, at), w)
    decreases |qs|
  {
    if qs != [] {
      var t := Retire(s, w, qs[0], at);
      RetireScores(s, w, qs[0], at);
      RetireAllScores(t, w, qs[1..], at);
      ScoresTwice(s, t, RetireAll(t, w, qs[1..], at), w);
    }
  }

  lemma RetireGone(s: Sim, w: nat, q: RunningSeq, at: real, id: nat)
    requires w < |s.decode| && id in s.reqs && id < s.nextId
    ensures var t := Retire(s, w, q, at);
      if id == q.id then Gone(t, id) else id in t.reqs && id < t.nextId
  {
    var t := Retire(s, w, q, at);
    if id == q.id {
      assert t.outcomes[|s.outcomes|].id == id;
    }
  }

  lemma {:induction false} RetiredAreGone(s: Sim, w: nat, qs: seq<RunningSeq>, at: real, id: nat)
    requires w < |s.decode| && id in s.reqs && id < s.nextId && exists q :: q in qs && q.id == id
    ensures Gone(RetireAll(s, w, qs, at), id)
    decreases |qs|
  {
    var t := Retire(s, w, qs[0], at);
    RetireGone(s, w, qs[0], at, id);
    if id == qs[0].id {
      RetireAllScores(t, w, qs[1..], at);
      GoneStays(t, RetireAll(t, w, qs[1..], at), id);
    } else {
      var q :| q in qs && q.id == id;
      assert qs == [qs[0]] + qs[1..] && q in qs[1..];
      RetiredAreGone(t, w, qs[1..], at, id);
    }
  }

  // ------------------------------------------------------------- decode steps

  lemma StepCap(s: DecodeSched, at: real, steer: real, keys: seq<nat>)
    requires ItlControl.InBounds(s.controller)
    ensures ItlControl.InBounds(Synthetic(s, at, steer, keys).0.controller)
  {
    ItlControl.CapStaysInBounds(s.controller, steer, |s.running|);
  }

  /** Only worker `w` changes; its cap stays within bounds. */
  ghost predicate DecodeMoves(s: Sim, t: Sim, w: nat) {
    && OnlyDecode(s, t, w) && Grows(s, t) && w < |s.decode|
    && (CapOk(s.decode[w]) ==> CapOk(t.decode[w]))
  }

  lemma DecodeMovesTwice(s: Sim, t: Sim, u: Sim, w: nat)
    requires DecodeMoves(s, t, w) && DecodeMoves(t, u, w)
    ensures DecodeMoves(s, u, w)
  {
    GrowsTwice(s, t, u);
  }

  lemma {:induction false} AdmitAllCap(c: Config, s: Sim, w: nat)
    requires w < |s.decode| && CapOk(s.decode[w])
    ensures CapOk(AdmitAll(c, s, w).decode[w])
    decreases |s.decode[w].pending|
  {
    var d := s.decode[w];
    if d.pending != [] {
      if d.pending[0] !in s.reqs {
        AdmitAllCap(c, WithDecode(s, w, d.(pending := d.pending[1..])), w);
      } else if Admission(c, s.reqs[d.pending[0]], d).Admit? {
        AdmitAllCap(c, AdmitHead(c, s, w), w);
      } else {
        ItlControl.CapStaysInBounds(d.sched.controller, 0.0, 0);
      }
    }
  }

  lemma AdmitAllMoves(c: Config, s: Sim, w: nat)
    requires w < |s.decode|
    ensures DecodeMoves(s, AdmitAll(c, s, w), w)
  {
    AdmitAllOnly(c, s, w);
    AdmitAllBooks(c, s, w);
    if CapOk(s.decode[w]) {
      AdmitAllCap(c, s, w);
    }
  }

  lemma StepBatchMoves(s: Sim, w: nat, at: real, steer: real, keys: seq<nat>)
    requires w < |s.decode|
    ensures DecodeMoves(s, StepBatch(s, w, at, steer, keys), w)
  {
    if CapOk(s.decode[w]) {
      StepCap(s.decode[w].sched, at, steer, keys);
    }
  }

  lemma StepToMoves(
      s: Sim, w: nat, at: real, steer: real, keys: seq<nat>, done: seq<RunningSeq>, b: Sim, t: Sim)
    requires w < |s.decode| && done == Synthetic(s.decode[w].sched, at, steer, keys).1
    requires b == StepBatch(s, w, at, steer, keys) && w < |b.decode| && t == RetireAll(b, w, done, at)
    ensures DecodeMoves(s, t, w) && StepTo(s, w, at, steer, keys) == Push(t, at, DecodeStep(w))
  {
    StepBatchMoves(s, w, at, steer, keys);
    RetireAllOnly(b, w, done, at);
    RetireAllScores(b, w, done, at);
    DecodeMovesTwice(s, b, t, w);
    StepToIs(s, w, s.decode[w], at, steer, keys, done, b, t);
  }

  lemma AfterAdmissionMoves(c: Config, s: Sim, w: nat, steer: real, keys: seq<nat>)
    requires w < |s.decode|
    ensures DecodeMoves(s, AfterAdmission(c, s, w, steer, keys), w)
  {
    var at := NextStep(c, s, w);
    if |s.decode[w].sched.running| == 0 {
      EmptyIs(c, s, w, steer, keys, at);
    } else {
      RunningIs(c, s, w, steer, keys, at);
      var b, done := StepBatch(s, w, at, steer, keys), Synthetic(s.decode[w].sched, at, steer, keys).1;
      StepToMoves(s, w, at, steer, keys, done, b, RetireAll(b, w, done, at));
    }
  }

  lemma DecodeStepMoves(c: Config, s: Sim, w: nat, steer: real, keys: seq<nat>)
    requires w < |s.decode|
    ensures DecodeMoves(s, OnDecodeStep(c, s, w, steer, keys), w)
  {
    var a := AdmitAll(c, s, w);
    AdmitAllMoves(c, s, w);
    AfterAdmissionMoves(c, a, w, steer, keys);
    DecodeMovesTwice(s, a, AfterAdmission(c, a, w, steer, keys), w);
  }

  /** `id` was served and is gone, or is at worker `w` with at most `m` steps to go. */
  ghost predicate Reached(c: Config, s: Sim, w: nat, id: nat, m: int) {
    Gone(s, id) || (m >= 0 && w < |s.decode| && Within(c, s.decode[w], id, m))
  }

  lemma WithinSame(c: Config, d: DecodeWorker, e: DecodeWorker, id: nat, m: nat)
    requires Within(c, d, id, m) && e.sched.running == d.sched.running && d.pending <= e.pending
    ensures Within(c, e, id, m)
  {
    if i: nat, b: nat :| QueuedWithin(Span(c), d, id, i, b, m) {
      assert QueuedWithin(Span(c), e, id, i, b, m);
    }
  }

  /** A sequence on its last token is among those that leave. */
  lemma FinishedIsDone(
      s: DecodeSched, at: real, steer: real, keys: seq<nat>, done: seq<RunningSeq>, id: nat)
    requires Lists(keys, s.running) && s.tokensPerStep >= 1 && done == Synthetic(s, at, steer, keys).1
    requires forall x | x in s.running :: s.running[x].id == x
    requires id in s.running && Finishing(s.running[id])
    ensures exists q :: q in done && q.id == id
  {
    var fin := FinishingOf(s.running, keys);
    FinishingAre(s.running, keys);
    FinishingSplit(s, at, steer, keys, fin, done);
    var i :| 0 <= i < |fin| && fin[i] == id;
    assert done[i] in done && done[i].id == id;
  }

  lemma LiveKnown(
      c: Config, reqs: map<nat, Request>, now: real, next: nat, loc: Places, id: nat, p: Place)
    requires RequestsOk(c, reqs, now, next, loc) && Located(loc, id, p)
    ensures id in reqs && id < next
  {
  }

  lemma StepAdvances(
      c: Config, s: Sim, w: nat, d: DecodeWorker, at: real, steer: real, keys: seq<nat>, id: nat, m: nat)
    requires w < |s.decode| && d == s.decode[w] && d.sched.running != map[] && d.sched.tokensPerStep >= 1
    requires Lists(keys, d.sched.running) && Within(c, d, id, m)
    requires forall x | x in d.sched.running :: d.sched.running[x].id == x && x in s.reqs && x < s.nextId
    ensures Reached(c, StepTo(s, w, at, steer, keys), w, id, m - 1)
  {
    var (t, done) := Synthetic(d.sched, at, steer, keys);
    var b := StepBatch(s, w, at, steer, keys);
    var u := RetireAll(b, w, done, at);
    StepToMoves(s, w, at, steer, keys, done, b, u);
    StepNears(d.sched, at, steer, keys, t);
    NearerWithin(c, d, d.(sched := t), id, m);
    RetireAllScores(b, w, done, at);
    if id in d.sched.running && Finishing(d.sched.running[id]) {
      FinishedIsDone(d.sched, at, steer, keys, done, id);
      RetiredAreGone(b, w, done, at, id);
      GoneStays(u, Push(u, at, DecodeStep(w)), id);
    } else {
      ReachedAfter(c, u, w, d.(sched := t), at, id, m);
    }
  }

  lemma ReachedAfter(c: Config, u: Sim, w: nat, d: DecodeWorker, at: real, id: nat, m: nat)
    requires w < |u.decode| && u.decode[w].sched.running == d.sched.running
    requires d.pending <= u.decode[w].pending
    requires m >= 1 && Within(c, d, id, m - 1)
    ensures Reached(c, Push(u, at, DecodeStep(w)), w, id, m - 1)
  {
    WithinSame(c, d, u.decode[w], id, m - 1);
  }

  lemma RunningKnown(
      c: Config, s: Sim, loc: Places, who: Clients, hand: set<Event>, w: nat, d: DecodeWorker)
    requires Base(c, s, loc, who, hand) && w < c.decodeWorkers && d == s.decode[w]
    ensures d.sched.tokensPerStep >= 1
    ensures forall x | x in d.sched.running :: d.sched.running[x].id == x && x in s.reqs && x < s.nextId
  {
    WorkerIsOk(c, s, loc, who, hand, w, d);
    forall x | x in d.sched.running ensures x in s.reqs && x < s.nextId {
      assert Located(loc, x, AtRunning(w));
      LiveKnown(c, s.reqs, s.now, s.nextId, loc, x, AtRunning(w));
    }
  }

  /** The worker's step brings every request at it a step nearer, or serves it. */
  lemma DecodeStepAdvances(
      c: Config, s: Sim, loc: Places, who: Clients, w: nat, steer: real, keys: seq<nat>, id: nat, m: nat)
    requires Base(c, s, loc, who, {DecodeStep(w)}) && AllSettled(loc) && w < c.decodeWorkers
    requires Fits(c) && CapOk(s.decode[w]) && Within(c, s.decode[w], id, m)
    requires Lists(keys, AdmitAll(c, s, w).decode[w].sched.running)
    ensures Reached(c, OnDecodeStep(c, s, w, steer, keys), w, id, m - 1)
  {
    var mid := AdmitAllWithin(c, s, loc, who, {DecodeStep(w)}, w, id, m);
    var a := AdmitAll(c, s, w);
    var at := NextStep(c, a, w);
    RunningKnown(c, a, mid, who, {DecodeStep(w)}, w, a.decode[w]);
    assert a.decode[w].sched.running != map[];
    RunningIs(c, a, w, steer, keys, at);
    StepAdvances(c, a, w, a.decode[w], at, steer, keys, id, m);
  }

  // ------------------------------------------------------------------ events

  lemma FireMoves(c: Config, s: Sim, e: Scheduled, x: Choice, t: Sim)
    requires Fires(c, s, e, x, t) && CapsOk(s.decode)
    ensures Grows(s, t) && CapsOk(t.decode)
  {
    var p := Popped(s, e);
    match e.event
    case Arrival(k) => ArrivalBooks(c, p, k, x.route);
    case PrefillDone(v) => PrefillDoneBooks(c, p, v);
    case KvArrived(id, v) =>
      forall w: nat | w < |t.decode| ensures CapOk(t.decode[w]) {
        KvArrivedKeepsSize(c, p, id, v);
        KvArrivedBooks(c, p, id, v, w);
      }
      KvArrivedBooks(c, p, id, v, v);
    case DecodeStep(v) => DecodeStepMoves(c, p, v, x.steer, x.keys);
  }

  lemma KvArrivedKeepsSize(c: Config, s: Sim, id: nat, v: nat)
    requires v < |s.decode|
    ensures |OnKvArrived(c, s, id, v).decode| == |s.decode|
  {
    DrainBooks(c, Lift(s), s.now + c.transferMs);
  }

  lemma OtherEventsKeepWorker(c: Config, s: Sim, e: Scheduled, x: Choice, t: Sim, w: nat)
    requires Fires(c, s, e, x, t) && w < |s.decode| && e.event != DecodeStep(w)
    ensures w < |t.decode| && Later(s.decode[w], t.decode[w])
  {
    var p := Popped(s, e);
    match e.event
    case Arrival(k) => ArrivalBooks(c, p, k, x.route);
    case PrefillDone(v) => PrefillDoneBooks(c, p, v);
    case KvArrived(id, v) => KvArrivedBooks(c, p, id, v, w);
    case DecodeStep(v) => DecodeStepMoves(c, p, v, x.steer, x.keys);
  }

  lemma FireAdvances(
      c: Config, s: Sim, loc: Places, who: Clients, e: Scheduled, x: Choice, t: Sim, w: nat, id: nat,
      m: nat)
    requires Settled(c, s, loc, who) && Fires(c, s, e, x, t)
    requires Fits(c) && w < |s.decode| && CapOk(s.decode[w]) && Within(c, s.decode[w], id, m)
    ensures Reached(c, t, w, id, if e.event == DecodeStep(w) then m - 1 else m)
  {
    if e.event == DecodeStep(w) {
      PopKeeps(c, s, loc, who, e);
      DecodeStepAdvances(c, Popped(s, e), loc, who, w, x.steer, x.keys, id, m);
    } else {
      OtherEventsKeepWorker(c, s, e, x, t, w);
      WithinSame(c, s.decode[w], t.decode[w], id, m);
    }
  }

  // -------------------------------------------------------------------- runs

  ghost predicate FiresSome(c: Config, s: Sim, e: Scheduled, t: Sim) { exists x :: Fires(c, s, e, x, t) }

  ghost predicate FiresAt(c: Config, states: seq<Sim>, events: seq<Scheduled>, i: nat)
    requires |states| == |events| + 1 && i < |events|
  {
    FiresSome(c, states[i], events[i], states[i + 1])
  }

  /** A run with the events that fire in it. */
  ghost predicate IsTrace(c: Config, states: seq<Sim>, events: seq<Scheduled>) {
    && |states| == |events| + 1 && states[0] == SimState.Start(c)
    && forall i: nat | i < |events| :: FiresAt(c, states, events, i)
  }

  /** How many of the events are steps of worker `w`. */
  function StepsOf(events: seq<Scheduled>, w: nat): nat {
    if events == [] then 0
    else
      var n := |events| - 1;
      StepsOf(events[..n], w) + (if events[n].event == DecodeStep(w) then 1 else 0)
  }

  lemma EmptyCaps(c: Config)
    requires CapsFit(c)
    ensures CapsOk(Empty(c).decode)
  {
  }

  lemma {:induction false} ReleasedDecode(c: Config, n: nat)
    ensures Released(c, n).decode == Empty(c).decode && Released(c, n).outcomes == []
  {
    if n > 0 {
      ReleasedDecode(c, n - 1);
    }
  }

  /** The whole invariant, and every cap within its bounds if it started there. */
  ghost predicate Sound(c: Config, s: Sim, loc: Places, who: Clients) {
    Settled(c, s, loc, who) && (CapsFit(c) ==> CapsOk(s.decode))
  }

  lemma StartSound(c: Config)
    requires ConfigOk(c)
    ensures Sound(c, SimState.Start(c), map[], AllWaiting(c.clients))
  {
    StartSettled(c);
    ReleasedDecode(c, c.clients);
    if CapsFit(c) {
      EmptyCaps(c);
    }
  }

  lemma FireSound(c: Config, s: Sim, loc: Places, who: Clients, e: Scheduled, x: Choice, t: Sim)
    returns (loc': Places, who': Clients)
    requires ConfigOk(c) && Sound(c, s, loc, who) && Fires(c, s, e, x, t)
    ensures Sound(c, t, loc', who')
  {
    loc', who' := FireKeeps(c, s, loc, who, e, x, t);
    if CapsFit(c) {
      FireMoves(c, s, e, x, t);
    }
  }

  lemma TraceFront(c: Config, states: seq<Sim>, events: seq<Scheduled>, n: nat)
    requires IsTrace(c, states, events) && n <= |events|
    ensures IsTrace(c, states[..n + 1], events[..n])
  {
    var front, fired := states[..n + 1], events[..n];
    forall i: nat | i < n ensures FiresAt(c, front, fired, i) {
      assert FiresAt(c, states, events, i);
    }
  }

  lemma {:induction false} TraceSound(c: Config, states: seq<Sim>, events: seq<Scheduled>, s: Sim)
    returns (loc: Places, who: Clients)
    requires ConfigOk(c) && IsTrace(c, states, events) && s == states[|events|]
    ensures Sound(c, s, loc, who)
    decreases |events|
  {
    var n := |events|;
    if n == 0 {
      StartSound(c);
      loc, who := map[], AllWaiting(c.clients);
    } else {
      var r, e := states[n - 1], events[n - 1];
      TraceFront(c, states, events, n - 1);
      var loc0, who0 := TraceSound(c, states[..n], events[..n - 1], r);
      var x := LastFires(c, states, events, n, r, e, s);
      loc, who := FireSound(c, r, loc0, who0, e, x, s);
    }
  }

  /** The last event of a trace fires in the last state but one. */
  lemma LastFires(c: Config, states: seq<Sim>, events: seq<Scheduled>, n: nat, s: Sim, e: Scheduled, t: Sim)
    returns (x: Choice)
    requires IsTrace(c, states, events) && n == |events| > 0
    requires s == states[n - 1] && e == events[n - 1] && t == states[n]
    ensures Fires(c, s, e, x, t)
  {
    assert FiresAt(c, states, events, n - 1);
    x :| Fires(c, s, e, x, t);
  }

  lemma BeforeLast(c: Config, states: seq<Sim>, events: seq<Scheduled>, n: nat, s: Sim)
    returns (loc: Places, who: Clients)
    requires ConfigOk(c) && IsTrace(c, states, events) && n == |events| > 0 && s == states[n - 1]
    ensures Sound(c, s, loc, who)
  {
    TraceFront(c, states, events, n - 1);
    loc, who := TraceSound(c, states[..n], events[..n - 1], s);
  }

  lemma NextReached(
      c: Config, s: Sim, loc: Places, who: Clients, e: Scheduled, x: Choice, t: Sim, w: nat, id: nat,
      m: int)
    requires Sound(c, s, loc, who) && Fires(c, s, e, x, t) && CapsFit(c) && Fits(c)
    requires Reached(c, s, w, id, m)
    ensures Reached(c, t, w, id, if e.event == DecodeStep(w) then m - 1 else m)
  {
    if Gone(s, id) {
      FireMoves(c, s, e, x, t);
      GoneStays(s, t, id);
    } else {
      FireAdvances(c, s, loc, who, e, x, t, w, id, m);
    }
  }

  lemma {:induction false} TraceReaches(
      c: Config, states: seq<Sim>, events: seq<Scheduled>, i: nat, w: nat, id: nat, m: int)
    returns (k: int)
    requires ConfigOk(c) && CapsFit(c) && Fits(c)
    requires IsTrace(c, states, events) && i <= |events| && Reached(c, states[i], w, id, m)
    ensures k == m - StepsOf(events[i..], w) && Reached(c, states[|events|], w, id, k)
    decreases |events|
  {
    var n := |events|;
    if i == n {
      k := m;
    } else {
      TraceFront(c, states, events, n - 1);
      k := TraceReaches(c, states[..n], events[..n - 1], i, w, id, m);
      k := NextReachedAt(c, states, events, n, w, id, k);
      LastStep(events, i, w);
    }
  }

  lemma NextReachedAt(
      c: Config, states: seq<Sim>, events: seq<Scheduled>, n: nat, w: nat, id: nat, m: int)
    returns (k: int)
    requires ConfigOk(c) && CapsFit(c) && Fits(c)
    requires IsTrace(c, states, events) && n == |events| > 0 && Reached(c, states[n - 1], w, id, m)
    ensures k == if events[n - 1].event == DecodeStep(w) then m - 1 else m
    ensures Reached(c, states[n], w, id, k)
  {
    var s, e, t := states[n - 1], events[n - 1], states[n];
    var loc, who := BeforeLast(c, states, events, n, s);
    var x := LastFires(c, states, events, n, s, e, t);
    k := if e.event == DecodeStep(w) then m - 1 else m;
    NextReached(c, s, loc, who, e, x, t, w, id, m);
  }

  lemma LastStep(events: seq<Scheduled>, i: nat, w: nat)
    requires i < |events|
    ensures var n := |events| - 1;
      StepsOf(events[i..], w)
        == StepsOf(events[..n][i..], w) + if events[n].event == DecodeStep(w) then 1 else 0
  {
    var n := |events| - 1;
    assert events[i..][..n - i] == events[..n][i..];
  }

  lemma SoundBatch(c: Config, s: Sim, loc: Places, who: Clients, w: nat, d: DecodeWorker)
    requires Sound(c, s, loc, who) && w < |s.decode| && d == s.decode[w]
    ensures BatchWithin(d.sched.running, Span(c))
  {
    assert |s.decode| == c.decodeWorkers;
    WorkerIsOk(c, s, loc, who, {}, w, d);
    BatchWithinSpan(c, d, w, loc);
  }

  lemma NothingToGo(c: Config, s: Sim, w: nat, id: nat, m: int)
    requires Reached(c, s, w, id, m) && m <= 0
    ensures Gone(s, id)
  {
  }

  lemma TraceStarts(
      c: Config, states: seq<Sim>, events: seq<Scheduled>, i: nat, s: Sim, w: nat, id: nat, m: nat)
    requires ConfigOk(c) && IsTrace(c, states, events) && i <= |events| && s == states[i] && w < |s.decode|
    requires id in s.decode[w].pending || id in s.decode[w].sched.running
    requires m == Span(c) * (|s.decode[w].pending| + 1)
    ensures Reached(c, s, w, id, m)
  {
    TraceBatch(c, states, events, i, s, w, s.decode[w]);
    AtWorkerWithin(c, s.decode[w], id, m);
  }

  lemma TraceBatch(
      c: Config, states: seq<Sim>, events: seq<Scheduled>, i: nat, s: Sim, w: nat, d: DecodeWorker)
    requires ConfigOk(c) && IsTrace(c, states, events) && i <= |events| && s == states[i]
    requires w < |s.decode| && d == s.decode[w]
    ensures BatchWithin(d.sched.running, Span(c))
  {
    TraceFront(c, states, events, i);
    var loc, who := TraceSound(c, states[..i + 1], events[..i], s);
    SoundBatch(c, s, loc, who, w, d);
  }

  /** If its blocks fit, a request queued or running at a decode worker has been served in full once the
      worker has taken so many steps for it and for each request queued with it. */
  lemma HandedOffAreServed(
      c: Config, states: seq<Sim>, events: seq<Scheduled>, i: nat, w: nat, id: nat)
    requires ConfigOk(c) && CapsFit(c) && Fits(c)
    requires IsTrace(c, states, events) && i <= |events| && w < |states[i].decode|
    requires id in states[i].decode[w].pending || id in states[i].decode[w].sched.running
    requires StepsOf(events[i..], w) >= Span(c) * (|states[i].decode[w].pending| + 1)
    ensures Gone(states[|events|], id)
  {
    var s := states[i];
    var m := Span(c) * (|s.decode[w].pending| + 1);
    TraceStarts(c, states, events, i, s, w, id, m);
    var k := TraceReaches(c, states, events, i, w, id, m);
    NothingToGo(c, states[|events|], w, id, k);
  }

  // ------------------------------------------------------ what does not fit

  /** An admission pass leaves an empty batch with requests queued exactly when none of them fits, so that
      the worker tries again for ever. */
  lemma RetriesForeverIff(c: Config, s: Sim, loc: Places, who: Clients, hand: set<Event>, w: nat)
    requires Base(c, s, loc, who, hand) && AllSettled(loc) && w < c.decodeWorkers && CapOk(s.decode[w])
    requires AdmitAll(c, s, w).decode[w].sched.running == map[]
    ensures AdmitAll(c, s, w).decode[w].pending != [] <==> s.decode[w].pending != [] && !Fits(c)
  {
    if s.decode[w].pending != [] {
      if Fits(c) {
        AllAdmitted(c, s, loc, who, hand, w, s.decode[w]);
      } else {
        NothingAdmitted(c, s, loc, who, hand, w);
      }
    }
  }

  lemma AllAdmitted(
      c: Config, s: Sim, loc: Places, who: Clients, hand: set<Event>, w: nat, d: DecodeWorker)
    requires Base(c, s, loc, who, hand) && AllSettled(loc) && w < c.decodeWorkers
    requires d == s.decode[w] && CapOk(d) && d.pending != [] && Fits(c)
    requires AdmitAll(c, s, w).decode[w].sched.running == map[]
    ensures AdmitAll(c, s, w).decode[w].pending == []
  {
    var head := d.pending[0];
    var m := HeadWithin(c, s, loc, who, hand, w, d, head);
    var _ := AdmitAllWithin(c, s, loc, who, hand, w, head, m);
  }

  lemma HeadWithin(
      c: Config, s: Sim, loc: Places, who: Clients, hand: set<Event>, w: nat, d: DecodeWorker, head: nat)
    returns (m: nat)
    requires Base(c, s, loc, who, hand) && w < c.decodeWorkers && d == s.decode[w]
    requires d.pending != [] && head == d.pending[0]
    ensures Within(c, d, head, m)
  {
    m := Span(c) * (|d.pending| + 1);
    WorkerIsOk(c, s, loc, who, hand, w, d);
    BatchWithinSpan(c, d, w, loc);
    AtWorkerWithin(c, d, head, m);
  }

  lemma NoRoom(c: Config, d: DecodeWorker, w: nat, loc: Places, now: real, r: Request)
    requires DecodeWorkerOk(c, d, w, loc) && RequestOk(c, now, r) && !Fits(c)
    ensures !Admission(c, r, d).Admit?
  {
    NeverMoreThanAll(d, Reserve(c), c.totalBlocks, c.watermark);
  }

  lemma NeverMoreThanAll(d: DecodeWorker, need: nat, total: nat, low: nat)
    requires Balanced(d, need, total, low)
    ensures d.free <= total
  {
  }

  lemma NothingRuns(c: Config, s: Sim, loc: Places, who: Clients, hand: set<Event>, w: nat)
    requires Base(c, s, loc, who, hand) && w < c.decodeWorkers && !Fits(c)
    ensures s.decode[w].sched.running == map[]
  {
    WorkerIsOk(c, s, loc, who, hand, w, s.decode[w]);
    if s.decode[w].sched.running != map[] {
      HeldFits(c, s.decode[w], w, loc);
    }
  }

  lemma NothingAdmitted(c: Config, s: Sim, loc: Places, who: Clients, hand: set<Event>, w: nat)
    requires Base(c, s, loc, who, hand) && w < c.decodeWorkers && !Fits(c)
    ensures AdmitAll(c, s, w).decode[w].pending == s.decode[w].pending
    ensures AdmitAll(c, s, w).decode[w].sched.running == s.decode[w].sched.running == map[]
  {
    NothingRuns(c, s, loc, who, hand, w);
    var d := s.decode[w];
    if d.pending != [] {
      var head := d.pending[0];
      PendingKnown(c, s, loc, who, hand, w);
      WorkerIsOk(c, s, loc, who, hand, w, d);
      NoRoom(c, d, w, loc, s.now, s.reqs[head]);
      AdmitAllStops(c, s, w, head, d, Admission(c, s.reqs[head], d));
    }
  }

  lemma OversizedStep(
      c: Config, s: Sim, loc: Places, who: Clients, w: nat, steer: real, keys: seq<nat>)
    requires Base(c, s, loc, who, {DecodeStep(w)}) && !Fits(c) && w < |s.decode|
    ensures OnDecodeStep(c, s, w, steer, keys).outcomes == s.outcomes
  {
    StepKnown(c, s, loc, who, w);
    var a := AdmitAll(c, s, w);
    NothingAdmitted(c, s, loc, who, {DecodeStep(w)}, w);
    AdmitAllBooks(c, s, w);
    EmptyIs(c, a, w, steer, keys, NextStep(c, a, w));
  }

  lemma OtherEventsScoreNothing(c: Config, s: Sim, e: Event, x: Choice)
    requires InRange(s, e, x) && c.prefillCurve.Valid() && !e.DecodeStep?
    ensures Handle(c, s, e, x).outcomes == s.outcomes
  {
    match e
    case Arrival(k) => ArrivalBooks(c, s, k, x.route);
    case PrefillDone(v) => PrefillDoneBooks(c, s, v);
    case KvArrived(id, v) => KvArrivedBooks(c, s, id, v, v);
  }

  lemma OversizedFires(c: Config, s: Sim, loc: Places, who: Clients, e: Scheduled, x: Choice, t: Sim)
    requires Settled(c, s, loc, who) && Fires(c, s, e, x, t) && !Fits(c)
    ensures t.outcomes == s.outcomes
  {
    var p := Popped(s, e);
    if e.event.DecodeStep? {
      PopKeeps(c, s, loc, who, e);
      OversizedStep(c, p, loc, who, e.event.worker, x.steer, x.keys);
    } else {
      OtherEventsScoreNothing(c, p, e.event, x);
    }
  }

  /** If a request's blocks do not fit, none is ever served. */
  lemma {:induction false} OversizedNeverServed(c: Config, states: seq<Sim>, events: seq<Scheduled>)
    requires ConfigOk(c) && IsTrace(c, states, events) && !Fits(c)
    ensures states[|events|].outcomes == []
    decreases |events|
  {
    var n := |events|;
    if n == 0 {
      ReleasedDecode(c, c.clients);
    } else {
      TraceFront(c, states, events, n - 1);
      OversizedNeverServed(c, states[..n], events[..n - 1]);
      var s, e, t := states[n - 1], events[n - 1], states[n];
      var loc, who := BeforeLast(c, states, events, n, s);
      var x := LastFires(c, states, events, n, s, e, t);
      OversizedFires(c, s, loc, who, e, x, t);
    }
  }
}
