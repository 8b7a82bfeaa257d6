/** Running sequences: what latency they can still take, and how they are scored. */
module RunningSeqs {
  import opened Common
  import Decide

  /** A sequence that is decoding. */
  datatype RunningSeq = RunningSeq(
    id: nat, admitted: real, first: real, last: real, emitted: nat, requested: nat)
  {
    function Remaining(): nat { SatSub(requested, emitted) }

    predicate IsDone() { emitted >= requested }

    function Elapsed(): real { last - first }

    /** The per-token latency it can sustain to its end within a mean of `budget`. */
    function TolerableItl(budget: real): Tolerance {
      if Remaining() == 0 then Unlimited
      else Ms(Room(budget) / Remaining() as real)
    }

    /** What is left of the budget for all gaps. */
    function Room(budget: real): real { budget * SatSub(requested, 1) as real - Elapsed() }

    /** One step that emits `tokens` tokens and ends at `now`. */
    function Emit(now: real, tokens: nat): RunningSeq {
      this.(emitted := MinNat(emitted + tokens, requested), last := now)
    }
  }

  /** A sequence as it enters decode, its first token already sampled at `first`. */
  function Start(id: nat, first: real, requested: nat): RunningSeq {
    RunningSeq(id, first, first, first, 1, requested)
  }

  datatype Outcome = Outcome(
    id: nat, arrival: real, firstToken: real, lastToken: real, promptTokens: nat,
    outputTokens: nat, requestedTokens: nat)
  {
    function Ttft(): real { firstToken - arrival }

    function MeanItl(): real {
      if outputTokens <= 1 then 0.0 else (lastToken - firstToken) / (outputTokens - 1) as real
    }
  }

  datatype Verdict = Good | LateFirstToken | SlowTokens | LateAndSlow | Incomplete

  function Judge(o: Outcome, ttft: real, itl: real): Verdict {
    if o.outputTokens < o.requestedTokens then Incomplete
    else
      var late, slow := o.Ttft() > ttft, o.MeanItl() > itl;
      if late && slow then LateAndSlow else if late then LateFirstToken
      else if slow then SlowTokens else Good
  }

  // ------------------------------------------------------------ the threshold

  function Sum(gaps: seq<real>): real {
    if gaps == [] then 0.0 else gaps[0] + Sum(gaps[1..])
  }

  /** One token per gap. */
  function Play(s: RunningSeq, gaps: seq<real>): RunningSeq
    decreases |gaps|
  {
    if gaps == [] then s else Play(s.Emit(s.last + gaps[0], 1), gaps[1..])
  }

  /** How the sequence is scored when it stops where it stands. */
  function Score(s: RunningSeq, arrival: real, prompt: nat): Outcome {
    Outcome(s.id, arrival, s.first, s.last, prompt, s.emitted, s.requested)
  }

  lemma {:induction false} PlayEnds(s: RunningSeq, gaps: seq<real>)
    requires |gaps| <= s.Remaining()
    ensures Play(s, gaps) == s.(emitted := s.emitted + |gaps|, last := s.last + Sum(gaps))
    decreases |gaps|
  {
    if gaps != [] {
      PlayEnds(s.Emit(s.last + gaps[0], 1), gaps[1..]);
    }
  }

  lemma QuotientAtMost(x: real, n: real, y: real)
    requires n > 0.0
    ensures x / n <= y <==> x <= y * n
  {
    assert x == (x / n) * n;
    if x / n <= y {
      assert (x / n) * n <= y * n;
    } else {
      assert (x / n) * n > y * n;
    }
  }

  /** The tokens after the first came more than `itl` apart on average. */
  predicate Slower(o: Outcome, itl: real) {
    if o.outputTokens <= 1 then itl < 0.0
    else o.lastToken - o.firstToken > itl * (o.outputTokens - 1) as real
  }

  /** The verdict in numbers: nothing short of all the tokens asked for is good, and a request that has them
      is good exactly when its first token took at most `ttft` and the others on average at most `itl`. */
  lemma VerdictIs(o: Outcome, ttft: real, itl: real)
    ensures var late := o.firstToken > o.arrival + ttft;
      var v := Judge(o, ttft, itl);
      && (v == Incomplete <==> o.outputTokens < o.requestedTokens)
      && (v == Good <==> o.outputTokens >= o.requestedTokens && !late && !Slower(o, itl))
      && (v == LateFirstToken <==> o.outputTokens >= o.requestedTokens && late && !Slower(o, itl))
      && (v == SlowTokens <==> o.outputTokens >= o.requestedTokens && !late && Slower(o, itl))
      && (v == LateAndSlow <==> o.outputTokens >= o.requestedTokens && late && Slower(o, itl))
  {
    if o.outputTokens > 1 {
      QuotientAtMost(o.lastToken - o.firstToken, (o.outputTokens - 1) as real, itl);
    }
  }

  lemma ScaleBack(x: real, n: real)
    requires n > 0.0
    ensures (x / n) * n == x
  {
  }

  /** The tolerance is the exact threshold: however the remaining tokens come, the request ends within
      its mean budget if and only if their average gap is at most the tolerance. */
  lemma ToleranceIsThreshold(s: RunningSeq, gaps: seq<real>, budget: real, arrival: real, prompt: nat)
    requires s.emitted >= 1 && |gaps| == s.Remaining() > 0
    ensures Score(Play(s, gaps), arrival, prompt).MeanItl() <= budget
      <==> Sum(gaps) / |gaps| as real <= s.TolerableItl(budget).ms
  {
    PlayEnds(s, gaps);
    var n, total := |gaps| as real, (s.requested - 1) as real;
    ToleranceIs(s, budget, s.Room(budget), n);
    ScoreIs(s, Sum(gaps), |gaps|, total, arrival, prompt);
    Threshold(Sum(gaps), n, s.Elapsed(), total, budget, s.Room(budget));
  }

  lemma ScoreIs(s: RunningSeq, sum: real, n: nat, total: real, arrival: real, prompt: nat)
    requires s.emitted >= 1 && n == s.Remaining() > 0 && total == (s.requested - 1) as real
    ensures Score(s.(emitted := s.emitted + n, last := s.last + sum), arrival, prompt).MeanItl()
      == (s.Elapsed() + sum) / total
  {
  }

  lemma Threshold(sum: real, n: real, elapsed: real, total: real, budget: real, room: real)
    requires n > 0.0 && total > 0.0 && room == budget * total - elapsed
    ensures (elapsed + sum) / total <= budget <==> sum / n <= room / n
  {
    ScaleBack(room, n);
    QuotientAtMost(sum, n, room / n);
    QuotientAtMost(elapsed + sum, total, budget);
  }

  /** No gap exceeds the tolerance the sequence has when the gap begins. */
  ghost predicate WithinTolerance(s: RunningSeq, gaps: seq<real>, budget: real)
    decreases |gaps|
  {
    gaps != [] ==> (
      && Ms(gaps[0]).AtMost(s.TolerableItl(budget))
      && WithinTolerance(s.Emit(s.last + gaps[0], 1), gaps[1..], budget))
  }

  lemma RoomShrinks(s: RunningSeq, gap: real, budget: real)
    requires s.Remaining() > 1
    ensures var t := s.Emit(s.last + gap, 1);
      t.Room(budget) == s.Room(budget) - gap && t.Remaining() == s.Remaining() - 1
  {
  }

  lemma ToleranceIs(s: RunningSeq, budget: real, room: real, n: real)
    requires room == s.Room(budget) && n == s.Remaining() as real > 0.0
    ensures s.TolerableItl(budget) == Ms(room / n)
  {
  }

  /** A gap within the tolerance never lowers it. */
  lemma ToleranceRises(s: RunningSeq, gap: real, budget: real)
    requires s.emitted >= 1 && s.Remaining() > 0 && Ms(gap).AtMost(s.TolerableItl(budget))
    ensures s.TolerableItl(budget).AtMost(s.Emit(s.last + gap, 1).TolerableItl(budget))
  {
    if s.Remaining() > 1 {
      var t := s.Emit(s.last + gap, 1);
      MeanOfRest(s.Room(budget), s.Remaining() as real, gap);
      RoomShrinks(s, gap, budget);
      ToleranceIs(t, budget, s.Room(budget) - gap, s.Remaining() as real - 1.0);
      ToleranceIs(s, budget, s.Room(budget), s.Remaining() as real);
    }
  }

  /** Taking a share no larger than the mean leaves a mean no smaller. */
  lemma MeanOfRest(room: real, n: real, gap: real)
    requires n > 1.0 && gap <= room / n
    ensures room / n <= (room - gap) / (n - 1.0)
  {
    var t := room / n;
    ScaleBack(room, n);
    LessOne(t, n);
    QuotientAtLeast(room - gap, n - 1.0, t);
  }

  lemma LessOne(t: real, n: real)
    ensures t * (n - 1.0) == t * n - t
  {
  }

  lemma QuotientAtLeast(x: real, n: real, y: real)
    requires n > 0.0
    ensures x / n >= y <==> x >= y * n
  {
    QuotientAtMost(-x, n, -y);
    assert (-x) / n == -(x / n);
  }

  /** If no gap exceeds the tolerance of its moment, the tolerance never falls below where it started
      and the finished request is not judged slow. */
  lemma {:induction false} WithinToleranceIsNotSlow(
      s: RunningSeq, gaps: seq<real>, budget: real, arrival: real, prompt: nat, ttft: real)
    requires s.emitted >= 1 && |gaps| == s.Remaining() > 0 && WithinTolerance(s, gaps, budget)
    ensures forall k | 0 <= k <= |gaps| ::
      s.TolerableItl(budget).AtMost(Play(s, gaps[..k]).TolerableItl(budget))
    ensures Judge(Score(Play(s, gaps), arrival, prompt), ttft, budget) in {Good, LateFirstToken}
    decreases |gaps|
  {
    var next := s.Emit(s.last + gaps[0], 1);
    ToleranceRises(s, gaps[0], budget);
    if |gaps| > 1 {
      WithinToleranceIsNotSlow(next, gaps[1..], budget, arrival, prompt, ttft);
    } else {
      ToleranceIsThreshold(s, gaps, budget, arrival, prompt);
      assert gaps[1..] == [];
      assert Sum(gaps) == gaps[0];
      PlayEnds(s, gaps);
    }
    forall k | 0 <= k <= |gaps|
      ensures s.TolerableItl(budget).AtMost(Play(s, gaps[..k]).TolerableItl(budget))
    {
      if k > 0 {
        assert gaps[..k][1..] == gaps[1..][..k - 1];
        assert Play(s, gaps[..k]) == Play(next, gaps[1..][..k - 1]);
        if |gaps| == 1 {
          assert gaps[1..][..k - 1] == [];
        }
      }
    }
  }

  lemma SameTolerance(s: RunningSeq, at: real, now: real, budget: real)
    requires s.emitted >= 1 && at == MaxReal(now, s.first)
    ensures Decide.TolerableItl(now, s.first, s.emitted, s.requested, budget)
      == s.(last := at).TolerableItl(budget)
  {
    if s.Remaining() > 0 {
      var late := s.(last := at);
      assert MaxReal(now - s.first, 0.0) == late.Elapsed();
      assert SatSub(s.requested, 1) - SatSub(s.emitted, 1) == s.Remaining();
      ToleranceIs(late, budget, late.Room(budget), s.Remaining() as real);
      DecidedIs(s, now, budget, late.Room(budget), s.Remaining());
    }
  }

  lemma DecidedIs(s: RunningSeq, now: real, budget: real, room: real, n: nat)
    requires n == SatSub(s.requested, 1) - SatSub(s.emitted, 1) > 0
    requires room == budget * SatSub(s.requested, 1) as real - MaxReal(now - s.first, 0.0)
    ensures Decide.TolerableItl(now, s.first, s.emitted, s.requested, budget) == Ms(room / n as real)
  {
  }

  lemma QuotientsDiffer(x: real, y: real, n: real)
    requires n > 0.0
    ensures x / n == y / n <==> x == y
  {
    ScaleBack(x, n);
    ScaleBack(y, n);
  }

  /** The admission decision, which knows only the clock, computes the tolerance the sequence would
      have if its last token had come now; so the two agree exactly when it has, or nothing is left. */
  lemma DecisionMirrorsTolerance(s: RunningSeq, now: real, budget: real)
    requires s.emitted >= 1
    ensures var decided := Decide.TolerableItl(now, s.first, s.emitted, s.requested, budget);
      && decided == s.(last := MaxReal(now, s.first)).TolerableItl(budget)
      && (decided == s.TolerableItl(budget) <==>
            s.Remaining() == 0 || s.last == MaxReal(now, s.first))
  {
    var at := MaxReal(now, s.first);
    SameTolerance(s, at, now, budget);
    if s.Remaining() > 0 {
      var n := s.Remaining() as real;
      var late := s.(last := at);
      ToleranceIs(s, budget, s.Room(budget), n);
      ToleranceIs(late, budget, late.Room(budget), n);
      QuotientsDiffer(s.Room(budget), late.Room(budget), n);
      assert late.Room(budget) - s.Room(budget) == s.last - at;
    }
  }
}

/** The concurrency controller. */
module ItlControl {
  import opened Common

  const PROBE_WINDOW: nat := 15
  const WARMUP: nat := 8

  function Smoothed(average: real, sample: real): real { (1.0 - 0.1) * average + 0.1 * sample }

  function HighWater(target: real): real { target * 0.98 }

  function LowWater(target: real): real { target * 0.90 }

  /** The average that counts as an improvement on `mark`. */
  function Improvement(mark: real): real { mark * (1.0 - 0.02) }

  function Decreased(cap: real): real { cap * 0.9 }

  /** How many sequences must run before the cap may grow. */
  function Utilised(cap: real): real { cap * 0.9 }

  /** The cap at and below which there is nothing left to shed. */
  function Floor(minCap: real): real { minCap * 1.01 }

  /** `mark` is the average when the probe window began, unlimited when none has. */
  datatype Controller = Controller(
    target: real, ewma: real, cap: real, minCap: real, maxCap: real, samples: nat,
    givenUp: bool, mark: Tolerance, since: nat)

  function Clamp(x: real, lo: real, hi: real): real { MaxReal(lo, MinReal(x, hi)) }

  function New(target: real, cap: real, minCap: real, maxCap: real): Controller {
    Controller(target, 0.0, Clamp(cap, minCap, maxCap), minCap, maxCap, 0, false, Unlimited, 0)
  }

  function Average(c: Controller, itl: real): Controller {
    c.(samples := c.samples + 1,
       ewma := if c.samples == 0 then itl else Smoothed(c.ewma, itl))
  }

  function Unmarked(c: Controller): Controller { c.(mark := Unlimited, since := 0) }

  function GiveUp(c: Controller): Controller { Unmarked(c).(givenUp := true, cap := c.maxCap) }

  predicate Hot(c: Controller) { c.ewma > HighWater(c.target) }

  predicate Cool(c: Controller) { c.ewma < LowWater(c.target) }

  function Lowered(c: Controller, cap: real): Controller {
    c.(cap := MaxReal(Decreased(cap), c.minCap))
  }

  /** One step of the probe window, or `None` when a whole window has bought too little. */
  function Probe(c: Controller): Option<Controller> {
    var m := if c.mark.Unlimited? then c.(mark := Ms(c.ewma), since := 0) else c;
    var p := m.(since := m.since + 1);
    if p.since < PROBE_WINDOW then Some(p)
    else if p.ewma <= Improvement(p.mark.ms) then Some(p.(mark := Ms(p.ewma), since := 0))
    else None
  }

  /** The reaction to an average over the high-water mark. */
  function Throttle(c: Controller, concurrency: nat): Controller {
    match Probe(c)
    case None => GiveUp(c)
    case Some(p) =>
      var low := Lowered(p, if concurrency > 0 then MinReal(p.cap, concurrency as real) else p.cap);
      if low.cap <= Floor(low.minCap) then GiveUp(low) else low
  }

  /** The reaction to an average once warm. */
  function Steer(c: Controller, concurrency: nat): Controller {
    var r := if c.givenUp && Cool(c) then Unmarked(c).(givenUp := false) else c;
    if Hot(r) then if r.givenUp then r else Throttle(r, concurrency)
    else if Cool(r) && concurrency as real >= Utilised(r.cap) then
      Unmarked(r).(cap := MinReal(r.cap + 1.0, r.maxCap))
    else r
  }

  function Observe(c: Controller, itl: real, concurrency: nat): Controller {
    var a := Average(c, itl);
    if a.samples < WARMUP then a else Steer(a, concurrency)
  }

  function BackOff(c: Controller): Controller { Lowered(c, c.cap) }

  // ------------------------------------------------------------------- laws

  ghost predicate InBounds(c: Controller) { 0.0 < c.minCap <= c.cap <= c.maxCap }

  /** The cap never leaves its bounds. */
  lemma CapStaysInBounds(c: Controller, itl: real, concurrency: nat)
    requires InBounds(c)
    ensures InBounds(Observe(c, itl, concurrency)) && InBounds(BackOff(c))
    ensures Observe(c, itl, concurrency).minCap == c.minCap && Observe(c, itl, concurrency).maxCap == c.maxCap
    ensures Observe(c, itl, concurrency).target == c.target
  {
  }

  function Run(c: Controller, obs: seq<(real, nat)>): Controller {
    if obs == [] then c
    else
      var last := obs[|obs| - 1];
      Observe(Run(c, obs[..|obs| - 1]), last.0, last.1)
  }

  /** Every observation leaves the controller warm with its average over the high-water mark. */
  ghost predicate StaysHot(c: Controller, obs: seq<(real, nat)>) {
    forall k | 0 < k <= |obs| :: Run(c, obs[..k]).samples >= WARMUP && Hot(Run(c, obs[..k]))
  }

  /** The cap after `n` decreases. */
  function Decay(cap: real, n: nat): real { if n == 0 then cap else Decreased(Decay(cap, n - 1)) }

  /** After a hot stretch `d` has either given up or sits above the floor and at most at `bound`. */
  ghost predicate Driven(c: Controller, d: Controller, bound: real) {
    && InBounds(d) && d.minCap == c.minCap && d.maxCap == c.maxCap && d.target == c.target
    && (!d.givenUp ==> Floor(c.minCap) < d.cap <= bound)
  }

  /** A hot observation either leaves the controller given up or takes a tenth off the cap. */
  lemma HotObservation(c: Controller, itl: real, concurrency: nat)
    requires InBounds(c) && c.target >= 0.0
    requires var d := Observe(c, itl, concurrency); d.samples >= WARMUP && Hot(d)
    ensures var d := Observe(c, itl, concurrency);
      && (c.givenUp ==> d.givenUp)
      && (!d.givenUp ==> Floor(c.minCap) < d.cap <= Decreased(c.cap))
  {
  }

  lemma DrivenStep(c: Controller, d: Controller, itl: real, concurrency: nat, bound: real)
    requires c.target >= 0.0 && Driven(c, d, bound)
    requires var e := Observe(d, itl, concurrency); e.samples >= WARMUP && Hot(e)
    ensures Driven(c, Observe(d, itl, concurrency), Decreased(bound))
  {
    HotObservation(d, itl, concurrency);
    CapStaysInBounds(d, itl, concurrency);
  }

  /** The first hot observation starts from any cap. */
  lemma DrivenStart(c: Controller, itl: real, concurrency: nat)
    requires InBounds(c) && c.target >= 0.0
    requires var e := Observe(c, itl, concurrency); e.samples >= WARMUP && Hot(e)
    ensures Driven(c, Observe(c, itl, concurrency), Decreased(c.cap))
  {
    HotObservation(c, itl, concurrency);
    CapStaysInBounds(c, itl, concurrency);
  }

  lemma RunStep(c: Controller, obs: seq<(real, nat)>, n: nat)
    requires |obs| == n + 1
    ensures Run(c, obs) == Observe(Run(c, obs[..n]), obs[n].0, obs[n].1)
  {
  }

  lemma StaysHotPrefix(c: Controller, obs: seq<(real, nat)>, n: nat)
    requires |obs| == n + 1 && StaysHot(c, obs)
    ensures StaysHot(c, obs[..n])
    ensures Run(c, obs).samples >= WARMUP && Hot(Run(c, obs))
  {
    assert obs[..n + 1] == obs;
    forall k | 0 < k <= |obs[..n]|
      ensures Run(c, obs[..n][..k]).samples >= WARMUP && Hot(Run(c, obs[..n][..k]))
    {
      assert obs[..n][..k] == obs[..k];
    }
  }

  lemma {:induction false} HotRun(c: Controller, obs: seq<(real, nat)>)
    requires InBounds(c) && c.target >= 0.0 && StaysHot(c, obs) && obs != []
    ensures Driven(c, Run(c, obs), Decay(c.cap, |obs|))
  {
    var n := |obs| - 1;
    StaysHotPrefix(c, obs, n);
    RunStep(c, obs, n);
    if n == 0 {
      assert obs[..0] == [];
      DrivenStart(c, obs[0].0, obs[0].1);
    } else {
      HotRun(c, obs[..n]);
      DrivenStep(c, Run(c, obs[..n]), obs[n].0, obs[n].1, Decay(c.cap, n));
    }
  }

  /** Throttling is bounded: an unbroken hot run long enough to walk the cap down to its floor ends
      with the controller having given up, the cap fully open again. */
  lemma ThrottlingIsBounded(c: Controller, obs: seq<(real, nat)>)
    requires InBounds(c) && c.target >= 0.0 && StaysHot(c, obs) && obs != []
    requires Decay(c.maxCap, |obs|) <= Floor(c.minCap)
    ensures Run(c, obs).givenUp
    ensures OpenWhenGivenUp(c) ==> Run(c, obs).cap == c.maxCap
  {
    HotRun(c, obs);
    DecayMonotone(c.cap, c.maxCap, |obs|);
    if OpenWhenGivenUp(c) {
      ObservationsKeepOpen(c, obs);
    }
  }

  lemma {:induction false} DecayMonotone(x: real, y: real, n: nat)
    requires x <= y
    ensures Decay(x, n) <= Decay(y, n)
  {
    if n > 0 {
      DecayMonotone(x, y, n - 1);
    }
  }

  /** Having given up means that nothing is held back. */
  ghost predicate OpenWhenGivenUp(c: Controller) { c.givenUp ==> c.cap == c.maxCap }

  /** On observations alone a controller that has given up holds nothing back. */
  lemma {:induction false} ObservationsKeepOpen(c: Controller, obs: seq<(real, nat)>)
    requires OpenWhenGivenUp(c)
    ensures OpenWhenGivenUp(Run(c, obs))
  {
    if obs != [] {
      ObservationsKeepOpen(c, obs[..|obs| - 1]);
    }
  }

  /** A forced back-off breaks that exactly when there is anything to hold back. */
  lemma BackOffKeepsOpenIff(c: Controller)
    requires InBounds(c) && c.givenUp && OpenWhenGivenUp(c)
    ensures OpenWhenGivenUp(BackOff(c)) <==> c.minCap == c.maxCap
  {
  }

  /** For example: a controller that has given up at its ceiling of 100 is held to 90 by a back-off. */
  lemma BackOffHoldsBack()
    ensures var c := Controller(10.0, 20.0, 100.0, 8.0, 100.0, 50, true, Unlimited, 0);
      InBounds(c) && OpenWhenGivenUp(c) && BackOff(c).givenUp && BackOff(c).cap == 90.0
  {
  }
}

/** The controller object. */
module ItlControllers {
  import opened Common
  import opened ItlControl

  class ItlController {
    var target: real
    var ewma: real
    var cap: real
    var minCap: real
    var maxCap: real
    var samples: nat
    var givenUp: bool
    var mark: Tolerance
    var since: nat

    function State(): Controller
      reads this
    {
      Controller(target, ewma, cap, minCap, maxCap, samples, givenUp, mark, since)
    }

    constructor (target: real, initialCap: real, minCap: real, maxCap: real)
      requires minCap <= maxCap
      ensures State() == New(target, initialCap, minCap, maxCap)
    {
      this.target, ewma, this.minCap, this.maxCap := target, 0.0, minCap, maxCap;
      cap := Clamp(initialCap, minCap, maxCap);
      samples, givenUp, mark, since := 0, false, Unlimited, 0;
    }

    method Observe(itl: real, concurrency: nat)
      modifies this
      ensures State() == ItlControl.Observe(old(State()), itl, concurrency)
    {
      samples := samples + 1;
      ewma := if samples == 1 then itl else Smoothed(ewma, itl);
      if samples < WARMUP {
        return;
      }
      if givenUp && ewma < LowWater(target) {
        givenUp, mark, since := false, Unlimited, 0;
      }
      if ewma > HighWater(target) {
        if !givenUp {
          Throttle(concurrency);
        }
      } else if ewma < LowWater(target) && concurrency as real >= Utilised(cap) {
        cap := MinReal(cap + 1.0, maxCap);
        mark, since := Unlimited, 0;
      }
    }

    method Throttle(concurrency: nat)
      modifies this
      ensures State() == ItlControl.Throttle(old(State()), concurrency)
    {
      if mark.Unlimited? {
        mark, since := Ms(ewma), 0;
      }
      since := since + 1;
      if since >= PROBE_WINDOW {
        var improved := ewma <= Improvement(mark.ms);
        if !improved {
          GiveUp();
          return;
        }
        mark, since := Ms(ewma), 0;
      }
      var binding := if concurrency > 0 then MinReal(cap, concurrency as real) else cap;
      cap := MaxReal(Decreased(binding), minCap);
      if cap <= Floor(minCap) {
        GiveUp();
      }
    }

    method GiveUp()
      modifies this
      ensures State() == ItlControl.GiveUp(old(State()))
    {
      givenUp, cap, mark, since := true, maxCap, Unlimited, 0;
    }

    method BackOff()
      modifies this
      ensures State() == ItlControl.BackOff(old(State()))
    {
      cap := MaxReal(Decreased(cap), minCap);
    }
  }
}
