/** What the controller and the admission test do, in numbers, and over runs. */
module Steering {
  import opened Common
  import Decide
  import opened ItlControl
  import opened RunningSeqs
  import opened DecodeState

  // ---------------------------------------------------------- one observation

  /** The average with one more sample: a tenth of the way towards it. */
  function AverageWith(c: Controller, itl: real): real {
    if c.samples == 0 then itl else c.ewma + (itl - c.ewma) / 10.0
  }

  /** What a hot observation sheds: a tenth of the cap, or of what runs if that is less. */
  function Shed(c: Controller, concurrency: nat): real {
    var base := if concurrency > 0 && concurrency as real < c.cap then concurrency as real else c.cap;
    MaxReal(base - base / 10.0, c.minCap)
  }

  /** A probe of fifteen hot observations in a row has not brought the average down by a fiftieth. */
  predicate ProbeFails(c: Controller, average: real) {
    var (began, count) := if c.mark.Unlimited? then (average, 1) else (c.mark.ms, c.since + 1);
    count >= 15 && average > began - began / 50.0
  }

  /** The first seven observations only average. From then on an average within 90 and 98 percent of the
      target changes nothing; below, steering resumes and a cap that is nine tenths used rises by one; above,
      a controller that has given up stays so, and any other gives up when its probe fails or nothing is
      left to shed, and sheds otherwise. */
  lemma ObservationIs(c: Controller, itl: real, concurrency: nat)
    requires InBounds(c) && c.target >= 0.0
    ensures var d, average := Observe(c, itl, concurrency), AverageWith(c, itl);
      && d.samples == c.samples + 1 && d.ewma == average
      && d.minCap == c.minCap && d.maxCap == c.maxCap && d.target == c.target
      && (d.samples < 8 || c.target * 9.0 / 10.0 <= average <= c.target * 98.0 / 100.0 ==>
            d.cap == c.cap && d.givenUp == c.givenUp)
      && (d.samples >= 8 && average < c.target * 9.0 / 10.0 ==>
            && !d.givenUp
            && d.cap == if concurrency as real >= c.cap * 9.0 / 10.0 then MinReal(c.cap + 1.0, c.maxCap)
                        else c.cap)
      && (d.samples >= 8 && average > c.target * 98.0 / 100.0 ==>
            if c.givenUp then d.cap == c.cap && d.givenUp
            else if ProbeFails(c, average) || Shed(c, concurrency) <= c.minCap * 101.0 / 100.0 then
              d.givenUp && d.cap == c.maxCap
            else !d.givenUp && d.cap == Shed(c, concurrency))
  {
  }

  /** The probe in numbers. It begins with the first hot observation and counts every later one; at fifteen it
      begins again if the average has come down by a fiftieth. Giving up ends it, and so does a cool
      observation that raises the cap or resumes steering; nothing else touches it. */
  lemma ProbeIs(c: Controller, itl: real, concurrency: nat)
    requires InBounds(c) && c.target >= 0.0
    ensures var d, average := Observe(c, itl, concurrency), AverageWith(c, itl);
      var (began, count) := if c.mark.Unlimited? then (average, 1) else (c.mark.ms, c.since + 1);
      var cool := average < c.target * 9.0 / 10.0;
      var hot := average > c.target * 98.0 / 100.0;
      if d.samples >= 8 && (if cool then c.givenUp || concurrency as real >= c.cap * 9.0 / 10.0
                            else hot && d.givenUp && !c.givenUp) then
        d.mark == Unlimited && d.since == 0
      else if d.samples >= 8 && hot && !c.givenUp then
        (d.mark, d.since) == if count >= 15 then (Ms(average), 0) else (Ms(began), count)
      else (d.mark, d.since) == (c.mark, c.since)
  {
  }

  // ---------------------------------------------------------------- whole runs

  /** A distance after a tenth of it has been taken off `n` times. */
  function Shrunk(distance: real, n: nat): real {
    if n == 0 then distance else Shrunk(distance, n - 1) * 9.0 / 10.0
  }

  /** Samples that stay alike draw the average towards them, a tenth of the distance each. */
  lemma {:induction false} AverageApproaches(c: Controller, itl: real, obs: seq<(real, nat)>)
    requires InBounds(c) && c.target >= 0.0 && c.samples >= 1
    requires forall k | 0 <= k < |obs| :: obs[k].0 == itl
    ensures Run(c, obs).ewma - itl == Shrunk(c.ewma - itl, |obs|)
    ensures InBounds(Run(c, obs)) && Run(c, obs).target == c.target && Run(c, obs).samples >= 1
  {
    if obs != [] {
      var n := |obs| - 1;
      RunLast(c, obs, n);
      AverageApproaches(c, itl, obs[..n]);
      ObservationIs(Run(c, obs[..n]), itl, obs[n].1);
      CapStaysInBounds(Run(c, obs[..n]), itl, obs[n].1);
    }
  }

  /** The average that a run leaves. */
  function AverageAfter(c: Controller, obs: seq<(real, nat)>): real { Run(c, obs).ewma }

  /** Along a hot run that has not made the controller give up, the probe counts the observations. */
  lemma {:induction false} ProbeCounts(c: Controller, obs: seq<(real, nat)>)
    requires InBounds(c) && c.target >= 0.0 && !c.givenUp && c.mark.Unlimited? && c.since == 0
    requires obs != [] && |obs| < 15 && StaysHot(c, obs) && StaysSteering(c, obs)
    ensures Run(c, obs).mark == Ms(AverageAfter(c, obs[..1])) && Run(c, obs).since == |obs|
    ensures InBounds(Run(c, obs)) && Run(c, obs).target == c.target
    ensures !Run(c, obs).givenUp && Run(c, obs).minCap == c.minCap
  {
    var n := |obs| - 1;
    var before := Run(c, obs[..n]);
    RunLast(c, obs, n);
    StaysHotPrefix(c, obs, n);
    SteeringPrefix(c, obs, n);
    assert obs[..n + 1] == obs;
    if n == 0 {
      assert obs[..1] == obs && obs[..0] == [];
    } else {
      ProbeCounts(c, obs[..n]);
      assert obs[..n][..1] == obs[..1];
    }
    HotProbe(before, obs[n].0, obs[n].1, Run(c, obs));
  }

  /** The controller has not given up anywhere along the run. */
  ghost predicate StaysSteering(c: Controller, obs: seq<(real, nat)>) {
    forall k: nat | k <= |obs| :: !Run(c, obs[..k]).givenUp
  }

  lemma SteeringPrefix(c: Controller, obs: seq<(real, nat)>, n: nat)
    requires |obs| == n + 1 && StaysSteering(c, obs)
    ensures StaysSteering(c, obs[..n]) && !Run(c, obs).givenUp && !Run(c, obs[..n]).givenUp
  {
    assert obs[..n + 1] == obs;
    forall k: nat | k <= n ensures !Run(c, obs[..n][..k]).givenUp {
      assert obs[..n][..k] == obs[..k];
    }
  }

  lemma HotProbe(c: Controller, itl: real, concurrency: nat, d: Controller)
    requires InBounds(c) && c.target >= 0.0 && !c.givenUp && c.since < 14
    requires d == Observe(c, itl, concurrency) && d.samples >= WARMUP && Hot(d) && !d.givenUp
    ensures (d.mark, d.since) == if c.mark.Unlimited? then (Ms(d.ewma), 1) else (c.mark, c.since + 1)
    ensures InBounds(d) && d.target == c.target && d.minCap == c.minCap
  {
    ProbeIs(c, itl, concurrency);
    ObservationIs(c, itl, concurrency);
    CapStaysInBounds(c, itl, concurrency);
  }

  /** What fifteen hot observations in a row decide, if no earlier one made the controller give up: it does
      now exactly when the average has come down by less than a fiftieth since the first, or nothing is left
      to shed. */
  lemma ProbeDecides(c: Controller, obs: seq<(real, nat)>)
    requires InBounds(c) && c.target >= 0.0 && !c.givenUp && c.mark.Unlimited? && c.since == 0
    requires |obs| == 15 && StaysHot(c, obs) && StaysSteering(c, obs[..14])
    ensures var first, last := AverageAfter(c, obs[..1]), AverageAfter(c, obs);
      Run(c, obs).givenUp <==>
        || last > first - first / 50.0
        || Shed(Run(c, obs[..14]), obs[14].1) <= c.minCap * 101.0 / 100.0
  {
    RunLast(c, obs, 14);
    StaysHotPrefix(c, obs, 14);
    ProbeCounts(c, obs[..14]);
    assert obs[..14][..1] == obs[..1];
    ObservationIs(Run(c, obs[..14]), obs[14].0, obs[14].1);
  }

  /** Every observation finds the controller warm, its average under 90 percent of the target and nine
      tenths of its cap in use. */
  ghost predicate StaysCool(c: Controller, obs: seq<(real, nat)>) {
    forall k: nat | k < |obs| :: CoolAt(Run(c, obs[..k]), obs[k])
  }

  ghost predicate CoolAt(d: Controller, o: (real, nat)) {
    && d.samples >= 7 && AverageWith(d, o.0) < d.target * 9.0 / 10.0
    && o.1 as real >= d.cap * 9.0 / 10.0
  }

  lemma RunLast(c: Controller, obs: seq<(real, nat)>, n: nat)
    requires n == |obs| - 1
    ensures Run(c, obs) == Observe(Run(c, obs[..n]), obs[n].0, obs[n].1)
    ensures forall k | 0 <= k <= n :: obs[..n][..k] == obs[..k]
  {
  }

  /** Recovery: along a cool, utilised run the cap rises by one per observation up to its ceiling, and a
      controller that had given up steers again. */
  lemma {:induction false} CoolRunRaises(c: Controller, obs: seq<(real, nat)>)
    requires InBounds(c) && c.target >= 0.0 && StaysCool(c, obs)
    ensures Run(c, obs).cap == MinReal(c.cap + |obs| as real, c.maxCap)
    ensures obs != [] ==> !Run(c, obs).givenUp
    ensures InBounds(Run(c, obs)) && Run(c, obs).target == c.target && Run(c, obs).maxCap == c.maxCap
  {
    if obs != [] {
      var n := |obs| - 1;
      RunLast(c, obs, n);
      forall k: nat | k < n ensures CoolAt(Run(c, obs[..n][..k]), obs[..n][k]) {
        assert CoolAt(Run(c, obs[..k]), obs[k]);
      }
      CoolRunRaises(c, obs[..n]);
      assert CoolAt(Run(c, obs[..n]), obs[n]);
      ObservationIs(Run(c, obs[..n]), obs[n].0, obs[n].1);
      CapStaysInBounds(Run(c, obs[..n]), obs[n].0, obs[n].1);
    }
  }

  /** The average is in between, or it is low but the cap is not used. */
  ghost predicate QuietAt(d: Controller, o: (real, nat)) {
    var average := AverageWith(d, o.0);
    || d.target * 9.0 / 10.0 <= average <= d.target * 98.0 / 100.0
    || (average < d.target * 9.0 / 10.0 && (o.1 as real) < d.cap * 9.0 / 10.0)
  }

  ghost predicate StaysQuiet(c: Controller, obs: seq<(real, nat)>) {
    forall k: nat | k < |obs| :: QuietAt(Run(c, obs[..k]), obs[k])
  }

  /** Along a quiet run the cap stays where it is. */
  lemma {:induction false} QuietRunRests(c: Controller, obs: seq<(real, nat)>)
    requires InBounds(c) && c.target >= 0.0 && StaysQuiet(c, obs)
    ensures Run(c, obs).cap == c.cap && (!c.givenUp ==> !Run(c, obs).givenUp)
    ensures InBounds(Run(c, obs)) && Run(c, obs).target == c.target
  {
    if obs != [] {
      var n := |obs| - 1;
      RunLast(c, obs, n);
      forall k: nat | k < n ensures QuietAt(Run(c, obs[..n][..k]), obs[..n][k]) {
        assert QuietAt(Run(c, obs[..k]), obs[k]);
      }
      QuietRunRests(c, obs[..n]);
      assert QuietAt(Run(c, obs[..n]), obs[n]);
      ObservationIs(Run(c, obs[..n]), obs[n].0, obs[n].1);
      CapStaysInBounds(Run(c, obs[..n]), obs[n].0, obs[n].1);
    }
  }

  /** A forced back-off takes a tenth off, down to the floor, and nothing else changes. */
  lemma BackOffIs(c: Controller)
    ensures BackOff(c) == c.(cap := MaxReal(c.cap - c.cap / 10.0, c.minCap))
  {
  }

  // ---------------------------------------------------------------- admission

  /** Some running sequence with tokens to go can absorb less than 1.05 times the observed latency. */
  ghost predicate AtRisk(s: DecodeSched) {
    exists id | id in s.running :: s.running[id].Remaining() > 0
      && s.running[id].TolerableItl(s.budget).ms < s.controller.ewma + s.controller.ewma / 20.0
  }

  /** Exactly what admits a sequence, and which refusal is reported otherwise. */
  lemma AdmittedIff(s: DecodeSched, headroom: bool)
    ensures CanAdmit(s, headroom) == Admit <==>
      && headroom && |s.running| as real < s.controller.cap
      && (s.controller.samples >= 8 ==> !AtRisk(s))
    ensures CanAdmit(s, headroom) == NoKvHeadroom <==> !headroom
    ensures CanAdmit(s, headroom) == AtCap <==> headroom && |s.running| as real >= s.controller.cap
    ensures CanAdmit(s, headroom) == WouldSpoilRunning <==>
      headroom && |s.running| as real < s.controller.cap && s.controller.samples >= 8 && AtRisk(s)
  {
    if Spoils(s.running, s.budget, s.controller.ewma) {
      var id :| id in s.running && s.running[id].TolerableItl(s.budget).Ms?
        && s.running[id].TolerableItl(s.budget).ms < Risk(s.controller.ewma);
      assert s.running[id].Remaining() > 0;
    }
    if AtRisk(s) {
      var id :| id in s.running && s.running[id].Remaining() > 0
        && s.running[id].TolerableItl(s.budget).ms < s.controller.ewma + s.controller.ewma / 20.0;
      assert s.running[id].TolerableItl(s.budget).Ms?;
    }
  }

  function NoteAll(s: DecodeSched, ds: seq<Decision>): DecodeSched {
    if ds == [] then s else Note(NoteAll(s, ds[..|ds| - 1]), ds[|ds| - 1])
  }

  function CountOf(ds: seq<Decision>, d: Decision): nat { multiset(ds)[d] }

  /** Every decision is counted once, as admitted or refused, and only those that would spoil a running
      sequence touch the controller. */
  lemma {:induction false} DecisionsAreCounted(s: DecodeSched, ds: seq<Decision>)
    ensures var t := NoteAll(s, ds);
      && t.admitted == s.admitted + CountOf(ds, Admit)
      && t.admitted + t.refused == s.admitted + s.refused + |ds|
      && t.running == s.running
      && (WouldSpoilRunning !in ds ==> t.controller == s.controller)
  {
    if ds != [] {
      var n := |ds| - 1;
      assert ds == ds[..n] + [ds[n]];
      DecisionsAreCounted(s, ds[..n]);
    }
  }

  // ------------------------------------------------------------ running steps

  /** What a run of steps shows the controller: at each, the observed latency and the batch as it stood. */
  function Seen(s: DecodeSched, ins: seq<StepInput>): seq<(real, nat)> {
    if ins == [] then []
    else
      var n := |ins| - 1;
      Seen(s, ins[..n]) + [(ins[n].steer, |Steps(s, ins[..n]).running|)]
  }

  /** Over a run of steps the controller makes one observation a step, with the batch as it stood before it:
      what is proved of runs of observations holds of the scheduler. */
  lemma {:induction false} StepsAreObserved(s: DecodeSched, ins: seq<StepInput>)
    ensures Steps(s, ins).controller == Run(s.controller, Seen(s, ins)) && |Seen(s, ins)| == |ins|
  {
    if ins != [] {
      var n := |ins| - 1;
      StepsAreObserved(s, ins[..n]);
      StepsLast(s, ins, n);
      var seen, before := Seen(s, ins), Steps(s, ins[..n]);
      assert seen == Seen(s, ins[..n]) + [(ins[n].steer, |before.running|)];
      ObservedLast(s.controller, seen, n, before, ins[n]);
    }
  }

  lemma ObservedLast(c: Controller, seen: seq<(real, nat)>, n: nat, s: DecodeSched, i: StepInput)
    requires |seen| == n + 1 && seen[n] == (i.steer, |s.running|) && s.controller == Run(c, seen[..n])
    ensures Synthetic(s, i.now, i.steer, i.keys).0.controller == Run(c, seen)
  {
    RunLast(c, seen, n);
  }

  function IdsOf(done: seq<RunningSeq>): seq<nat> {
    seq(|done|, i requires 0 <= i < |done| => done[i].id)
  }

  /** The table is keyed by id. */
  ghost predicate Keyed(running: map<nat, RunningSeq>) { forall id | id in running :: running[id].id == id }

  lemma {:induction false} DoneIds(running: map<nat, RunningSeq>, ids: seq<nat>)
    requires Keyed(running)
    ensures var done := IdsOf(Done(running, ids));
      Distinct(done) && forall id :: id in done <==> id in ids && id in running
  {
    if ids != [] {
      var n := |ids| - 1;
      DoneIds(running, ids[..n]);
      assert ids == ids[..n] + [ids[n]];
      var front := IdsOf(Done(running, ids[..n]));
      if ids[n] in Dropped(running, ids[..n]) {
        assert IdsOf(Done(running, ids)) == front + [ids[n]];
      } else {
        assert Done(running, ids) == Done(running, ids[..n]);
      }
    }
  }

  lemma {:induction false} BookKeepsIds(running: map<nat, RunningSeq>, ids: seq<nat>, now: real, tokens: nat)
    requires Keyed(running)
    ensures var b := Book(running, ids, now, tokens); b.Keys == running.Keys && Keyed(b)
  {
    if ids != [] {
      BookKeepsIds(running, ids[..|ids| - 1], now, tokens);
    }
  }

  /** Whatever the engine reports, those it names that are running leave, each once; nobody else does; and
      every name that takes nobody out is counted as unknown. */
  lemma ReportsAreCounted(s: DecodeSched, now: real, steer: real, advanced: seq<nat>, finished: seq<nat>)
    requires Keyed(s.running)
    ensures var (t, done) := OnStep(s, now, steer, advanced, finished);
      && Distinct(IdsOf(done))
      && (forall id :: id in IdsOf(done) <==> id in finished && id in s.running)
      && t.running.Keys == s.running.Keys - (set id | id in IdsOf(done))
      && t.unknownFinishes + |done| == s.unknownFinishes + |finished|
  {
    BookKeepsIds(s.running, advanced, now, s.tokensPerStep);
    DoneIds(Book(s.running, advanced, now, s.tokensPerStep), finished);
  }

  /** A sequence enters with the tolerance that the once-per-step decision gives it at that moment: what it
      has waited since its first token counts against it. No other sequence is touched. */
  lemma EntersAsDecided(s: DecodeSched, q: RunningSeq, now: real, budget: real)
    requires q.emitted >= 1 && q.first <= q.last
    ensures var r := AdmitAt(s, q, now).running;
      && q.id in r && r[q.id].admitted == now && r[q.id].first == q.first && r[q.id].last >= q.last
      && r[q.id].emitted == q.emitted && r[q.id].requested == q.requested
      && (q.last <= now ==>
            r[q.id].TolerableItl(budget)
            == Decide.TolerableItl(now, q.first, q.emitted, q.requested, budget))
      && r.Keys == s.running.Keys + {q.id}
      && forall id | id in s.running && id != q.id :: r[id] == s.running[id]
  {
    var r := AdmitAt(s, q, now).running[q.id];
    if q.last <= now {
      DecisionMirrorsTolerance(r, now, budget);
    }
  }
}
