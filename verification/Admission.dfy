/** Decode admission and stepping: the state, and what each operation does to it. */
module DecodeState {
  import opened Common
  import opened RunningSeqs
  import opened ItlControl

  datatype Decision = Admit | AtCap | WouldSpoilRunning | NoKvHeadroom

  /** `flagged` are the running sequences already counted in `disagreements`: by our count they are
      done, yet the engine has not reported them finished. */
  datatype DecodeSched = DecodeSched(
    running: map<nat, RunningSeq>, controller: Controller, budget: real, tokensPerStep: nat,
    admitted: nat, refused: nat, flagged: set<nat>, disagreements: nat, unknownFinishes: nat)

  /** What a running sequence must still be able to absorb, per step. */
  function Risk(ewma: real): real { ewma * 1.05 }

  /** Some running sequence can no longer absorb the observed latency. */
  predicate Spoils(running: map<nat, RunningSeq>, budget: real, ewma: real) {
    exists id | id in running ::
      running[id].TolerableItl(budget).Ms? && running[id].TolerableItl(budget).ms < Risk(ewma)
  }

  function CanAdmit(s: DecodeSched, headroom: bool): Decision {
    if !headroom then NoKvHeadroom
    else if |s.running| as real >= s.controller.cap then AtCap
    else if s.controller.samples >= 8 && Spoils(s.running, s.budget, s.controller.ewma) then
      WouldSpoilRunning
    else Admit
  }

  function Note(s: DecodeSched, d: Decision): DecodeSched {
    if d.Admit? then s.(admitted := s.admitted + 1)
    else s.(refused := s.refused + 1,
            controller := if d.WouldSpoilRunning? then BackOff(s.controller) else s.controller)
  }

  function AdmitAt(s: DecodeSched, q: RunningSeq, now: real): DecodeSched {
    s.(running := s.running[q.id := q.(admitted := now, last := MaxReal(q.last, now))])
  }

  /** Books one step's tokens to the sequences that advanced. */
  function Book(running: map<nat, RunningSeq>, ids: seq<nat>, now: real, tokens: nat)
    : map<nat, RunningSeq>
  {
    if ids == [] then running
    else
      var r, id := Book(running, ids[..|ids| - 1], now, tokens), ids[|ids| - 1];
      if id in r then r[id := r[id].Emit(now, tokens)] else r
  }

  function Dropped(running: map<nat, RunningSeq>, ids: seq<nat>): map<nat, RunningSeq> {
    running - (set id | id in ids)
  }

  /** The sequences that leave when `ids` are reported finished, in that order. */
  function Done(running: map<nat, RunningSeq>, ids: seq<nat>): (r: seq<RunningSeq>)
    ensures |r| <= |ids|
  {
    if ids == [] then []
    else
      var front, id := ids[..|ids| - 1], ids[|ids| - 1];
      var left := Dropped(running, front);
      Done(running, front) + (if id in left then [left[id]] else [])
  }

  /** One engine step that advanced some sequences and finished some; `steer` is the latency observed
      before its tokens are booked. */
  function OnStep(s: DecodeSched, now: real, steer: real, advanced: seq<nat>, finished: seq<nat>)
    : (DecodeSched, seq<RunningSeq>)
  {
    var booked := Booked(s, now, steer, advanced);
    (Flagged(WithoutFinished(booked, finished)), Done(booked.running, finished))
  }

  function Booked(s: DecodeSched, now: real, steer: real, advanced: seq<nat>): DecodeSched {
    s.(controller := Observe(s.controller, steer, |s.running|),
       running := Book(s.running, advanced, now, s.tokensPerStep))
  }

  function Reported(ids: seq<nat>, running: map<nat, RunningSeq>): set<nat> {
    set id | id in ids && id in running
  }

  function WithoutFinished(s: DecodeSched, finished: seq<nat>): DecodeSched {
    s.(running := Dropped(s.running, finished),
       flagged := s.flagged - Reported(finished, s.running),
       unknownFinishes := s.unknownFinishes + |finished| - |Done(s.running, finished)|)
  }

  /** The running sequences that our count says are done. */
  function Overdue(running: map<nat, RunningSeq>): set<nat> {
    set id | id in running && running[id].IsDone()
  }

  /** Flags and counts the overdue sequences that are not flagged yet. */
  function Flagged(s: DecodeSched): DecodeSched {
    s.(flagged := s.flagged + Overdue(s.running),
       disagreements := s.disagreements + |Overdue(s.running) - s.flagged|)
  }

  predicate Finishing(q: RunningSeq) { q.emitted + 1 >= q.requested }

  /** Of `keys`, those whose next token reaches their budget. */
  function FinishingOf(running: map<nat, RunningSeq>, keys: seq<nat>): seq<nat> {
    if keys == [] then []
    else
      var id := keys[|keys| - 1];
      FinishingOf(running, keys[..|keys| - 1])
      + (if id in running && Finishing(running[id]) then [id] else [])
  }

  /** `keys` lists the running sequences, each once, in some order. */
  ghost predicate Lists<T>(keys: seq<nat>, running: map<nat, T>) {
    Distinct(keys) && forall id :: id in keys <==> id in running
  }

  /** The step in which every running sequence advances. */
  function Synthetic(s: DecodeSched, now: real, steer: real, keys: seq<nat>)
    : (DecodeSched, seq<RunningSeq>)
  {
    OnStep(s, now, steer, keys, FinishingOf(s.running, keys))
  }

  // ------------------------------------------------------------------- laws

  lemma {:induction false} BookAt(running: map<nat, RunningSeq>, ids: seq<nat>, now: real, tokens: nat)
    requires Distinct(ids)
    ensures var b := Book(running, ids, now, tokens);
      && b.Keys == running.Keys
      && forall id | id in running ::
        b[id] == if id in ids then running[id].Emit(now, tokens) else running[id]
  {
    if ids != [] {
      BookAt(running, ids[..|ids| - 1], now, tokens);
      assert ids == ids[..|ids| - 1] + [ids[|ids| - 1]];
    }
  }

  lemma {:induction false} FinishingAre(running: map<nat, RunningSeq>, keys: seq<nat>)
    requires Distinct(keys)
    ensures forall id :: id in FinishingOf(running, keys) <==>
      id in keys && id in running && Finishing(running[id])
    ensures Distinct(FinishingOf(running, keys))
  {
    if keys != [] {
      FinishingAre(running, keys[..|keys| - 1]);
      assert keys == keys[..|keys| - 1] + [keys[|keys| - 1]];
    }
  }

  lemma {:induction false} DoneAre(running: map<nat, RunningSeq>, ids: seq<nat>)
    requires Distinct(ids) && forall id | id in ids :: id in running
    ensures |Done(running, ids)| == |ids|
    ensures forall i | 0 <= i < |ids| :: Done(running, ids)[i] == running[ids[i]]
  {
    if ids != [] {
      var front := ids[..|ids| - 1];
      assert ids == front + [ids[|ids| - 1]];
      DoneAre(running, front);
    }
  }

  /** A sequence with every token it was asked for. */
  function Completed(q: RunningSeq, now: real): RunningSeq { q.(emitted := q.requested, last := now) }

  /** In a step where all advance, exactly the sequences on their last token leave, each with all the
      tokens it was asked for; every other one stays and is nearer its end. */
  lemma SyntheticStep(s: DecodeSched, now: real, steer: real, keys: seq<nat>)
    requires Lists(keys, s.running) && s.tokensPerStep >= 1
    ensures var (t, done) := Synthetic(s, now, steer, keys);
      var fin := FinishingOf(s.running, keys);
      && (forall id :: id in t.running <==> id in s.running && !Finishing(s.running[id]))
      && (forall id | id in t.running ::
            t.running[id] == s.running[id].Emit(now, s.tokensPerStep)
            && t.running[id].Remaining() < s.running[id].Remaining())
      && Distinct(fin) && (forall id :: id in fin <==> id in s.running && Finishing(s.running[id]))
      && |done| == |fin|
      && forall i | 0 <= i < |fin| ::
           fin[i] in s.running && done[i] == Completed(s.running[fin[i]], now)
  {
    var booked := Book(s.running, keys, now, s.tokensPerStep);
    BatchSplits(s.running, keys, now, s.tokensPerStep, booked, FinishingOf(s.running, keys));
  }

  lemma BatchSplits(
      running: map<nat, RunningSeq>, keys: seq<nat>, now: real, tokens: nat,
      booked: map<nat, RunningSeq>, fin: seq<nat>)
    requires Lists(keys, running) && tokens >= 1
    requires booked == Book(running, keys, now, tokens) && fin == FinishingOf(running, keys)
    ensures var left, done := Dropped(booked, fin), Done(booked, fin);
      && (forall id :: id in left <==> id in running && !Finishing(running[id]))
      && (forall id | id in left ::
            left[id] == running[id].Emit(now, tokens)
            && left[id].Remaining() < running[id].Remaining())
      && Distinct(fin) && (forall id :: id in fin <==> id in running && Finishing(running[id]))
      && |done| == |fin|
      && forall i | 0 <= i < |fin| ::
           fin[i] in running && done[i] == Completed(running[fin[i]], now)
  {
    BookAt(running, keys, now, tokens);
    FinishingAre(running, keys);
    DoneAre(booked, fin);
  }

  /** A sequence still running after the step has nothing left to emit exactly when the step booked
      its last tokens before the last-token rule, which counts one token a step, saw them coming; it
      then leaves at the next step, whenever that comes. */
  lemma SpeculationLingersIff(
      s: DecodeSched, now: real, steer: real, keys: seq<nat>, id: nat,
      later: real, steer': real, keys': seq<nat>)
    requires Lists(keys, s.running) && s.tokensPerStep >= 1
    requires id in s.running && !Finishing(s.running[id])
    requires Lists(keys', Synthetic(s, now, steer, keys).0.running)
    ensures var t := Synthetic(s, now, steer, keys).0;
      && id in t.running
      && (t.running[id].IsDone() <==>
            s.running[id].emitted + s.tokensPerStep >= s.running[id].requested)
      && (t.running[id].IsDone() ==> id !in Synthetic(t, later, steer', keys').0.running)
  {
    SyntheticStep(s, now, steer, keys);
    SyntheticStep(Synthetic(s, now, steer, keys).0, later, steer', keys');
  }

  /** For example: at two tokens a step, a sequence with one of its three tokens is booked to its end
      and yet runs on. */
  lemma BookedToItsEnd(c: Controller, now: real, steer: real)
    ensures var q := RunningSeq(7, 0.0, 0.0, 0.0, 1, 3);
      var s := DecodeSched(map[7 := q], c, 10.0, 2, 0, 0, {}, 0, 0);
      var t := Synthetic(s, now, steer, [7]).0;
      !Finishing(q) && 7 in t.running && t.running[7].emitted == 3 && t.running[7].IsDone()
  {
    var q := RunningSeq(7, 0.0, 0.0, 0.0, 1, 3);
    var s := DecodeSched(map[7 := q], c, 10.0, 2, 0, 0, {}, 0, 0);
    assert Lists([7], s.running);
    SyntheticStep(s, now, steer, [7]);
  }

  lemma {:induction false} BookKeepsOverdue(
      running: map<nat, RunningSeq>, ids: seq<nat>, now: real, tokens: nat)
    ensures var b := Book(running, ids, now, tokens);
      b.Keys == running.Keys && Overdue(running) <= Overdue(b)
  {
    if ids != [] {
      BookKeepsOverdue(running, ids[..|ids| - 1], now, tokens);
    }
  }

  /** Whatever the engine reports, exactly the overdue sequences are flagged after a step, so flags leave
      with their sequences; and each is counted once, when it is first flagged. */
  lemma DisagreementsCountOnce(
      s: DecodeSched, now: real, steer: real, advanced: seq<nat>, finished: seq<nat>)
    requires s.flagged <= Overdue(s.running)
    ensures var t := OnStep(s, now, steer, advanced, finished).0;
      && t.flagged == Overdue(t.running)
      && t.disagreements == s.disagreements + |t.flagged - s.flagged|
  {
    var booked := Book(s.running, advanced, now, s.tokensPerStep);
    BookKeepsOverdue(s.running, advanced, now, s.tokensPerStep);
    var left := Dropped(booked, finished);
    var kept := s.flagged - Reported(finished, booked);
    assert kept <= Overdue(left);
    assert Overdue(left) - kept == Overdue(left) - s.flagged;
  }

  datatype StepInput = StepInput(now: real, steer: real, keys: seq<nat>)

  function Steps(s: DecodeSched, ins: seq<StepInput>): DecodeSched {
    if ins == [] then s
    else
      var last := ins[|ins| - 1];
      Synthetic(Steps(s, ins[..|ins| - 1]), last.now, last.steer, last.keys).0
  }

  ghost predicate ListsAt(s: DecodeSched, ins: seq<StepInput>, k: nat)
    requires k < |ins|
  {
    Lists(ins[k].keys, Steps(s, ins[..k]).running)
  }

  ghost predicate ListsAlong(s: DecodeSched, ins: seq<StepInput>) {
    forall k: nat | k < |ins| :: ListsAt(s, ins, k)
  }

  /** With at least one token a step, a sequence leaves within as many steps as it has tokens to go,
      and at the first step if it has none. */
  lemma {:induction false} SequencesLeave(s: DecodeSched, ins: seq<StepInput>, id: nat)
    requires s.tokensPerStep >= 1 && ListsAlong(s, ins) && id in s.running
    ensures Steps(s, ins).tokensPerStep == s.tokensPerStep
    ensures id in Steps(s, ins).running ==>
      Steps(s, ins).running[id].Remaining() + |ins| <= s.running[id].Remaining()
    ensures ins != [] && |ins| >= s.running[id].Remaining() ==> id !in Steps(s, ins).running
  {
    if ins != [] {
      var n := |ins| - 1;
      ListsFront(s, ins, n);
      SequencesLeave(s, ins[..n], id);
      StepsLast(s, ins, n);
      StepNearer(Steps(s, ins[..n]), ins[n], id, Steps(s, ins));
    }
  }

  lemma ListsFront(s: DecodeSched, ins: seq<StepInput>, n: nat)
    requires |ins| == n + 1 && ListsAlong(s, ins)
    ensures ListsAlong(s, ins[..n]) && Lists(ins[n].keys, Steps(s, ins[..n]).running)
  {
    assert ListsAt(s, ins, n);
    forall k: nat | k < n ensures ListsAt(s, ins[..n], k) {
      assert ListsAt(s, ins, k);
      SameUpTo(s, ins, n, k);
    }
  }

  lemma SameUpTo(s: DecodeSched, ins: seq<StepInput>, n: nat, k: nat)
    requires k < n <= |ins|
    ensures ListsAt(s, ins[..n], k) <==> ListsAt(s, ins, k)
  {
    assert ins[..n][..k] == ins[..k];
  }

  lemma StepsLast(s: DecodeSched, ins: seq<StepInput>, n: nat)
    requires |ins| == n + 1
    ensures Steps(s, ins) == Synthetic(Steps(s, ins[..n]), ins[n].now, ins[n].steer, ins[n].keys).0
  {
  }

  lemma StepNearer(s: DecodeSched, i: StepInput, id: nat, t: DecodeSched)
    requires Lists(i.keys, s.running) && s.tokensPerStep >= 1
    requires t == Synthetic(s, i.now, i.steer, i.keys).0
    ensures t.tokensPerStep == s.tokensPerStep
    ensures id in t.running ==> (
      && id in s.running && !Finishing(s.running[id])
      && t.running[id].Remaining() < s.running[id].Remaining())
  {
    SyntheticStep(s, i.now, i.steer, i.keys);
  }
}

/** The scheduler object. */
module DecodeSchedulers {
  import opened Common
  import opened RunningSeqs
  import opened ItlControl
  import opened DecodeState

  /** What the next finished id takes along. */
  lemma TakeNext(running: map<nat, RunningSeq>, ids: seq<nat>, i: nat)
    requires i < |ids|
    ensures var left, id := Dropped(running, ids[..i]), ids[i];
      && Dropped(running, ids[..i + 1]) == left - {id}
      && Done(running, ids[..i + 1]) == Done(running, ids[..i]) + (if id in left then [left[id]] else [])
      && Reported(ids[..i + 1], running) == Reported(ids[..i], running) + (if id in left then {id} else {})
  {
    assert ids[..i + 1] == ids[..i] + [ids[i]];
    assert ids[..i + 1][..i] == ids[..i];
  }

  /** All but those `left` to look at have been flagged, and nothing else; `count` are new. */
  ghost predicate Midway(
      flagged: set<nat>, count: nat, before: set<nat>, overdue: set<nat>, left: set<nat>)
  {
    && (forall id | id in before :: id in flagged)
    && (forall id | id in flagged :: id in before || id in overdue)
    && (forall id | id in overdue :: id in flagged || id in left)
    && count == |flagged - before|
  }

  lemma NoneFlagged(before: set<nat>, overdue: set<nat>, left: set<nat>)
    requires overdue <= left
    ensures Midway(before, 0, before, overdue, left)
  {
    assert before - before == {};
  }

  lemma FlagNext(
      flagged: set<nat>, count: nat, flagged': set<nat>, count': nat,
      before: set<nat>, overdue: set<nat>, left: set<nat>, id: nat)
    requires Midway(flagged, count, before, overdue, left)
    requires (flagged', count') ==
      if id in overdue && id !in flagged then (flagged + {id}, count + 1) else (flagged, count)
    ensures Midway(flagged', count', before, overdue, left - {id})
  {
    if id in overdue && id !in flagged {
      assert flagged' - before == flagged - before + {id};
    }
  }

  lemma AllFlagged(s: DecodeSched, flagged: set<nat>, count: nat)
    requires Midway(flagged, count, s.flagged, Overdue(s.running), {})
    ensures Flagged(s) == s.(flagged := flagged, disagreements := s.disagreements + count)
  {
    assert flagged - s.flagged == Overdue(s.running) - s.flagged;
    assert flagged == s.flagged + Overdue(s.running);
  }

  class DecodeScheduler {
    var running: map<nat, RunningSeq>
    var controller: Controller
    var budget: real
    var tokensPerStep: nat
    var admitted: nat
    var refused: nat
    var flagged: set<nat>
    var disagreements: nat
    var unknownFinishes: nat

    function State(): DecodeSched
      reads this
    {
      DecodeSched(running, controller, budget, tokensPerStep, admitted, refused,
                  flagged, disagreements, unknownFinishes)
    }

    constructor (budget: real, controller: Controller)
      ensures State() == DecodeSched(map[], controller, budget, 1, 0, 0, {}, 0, 0)
    {
      running, this.controller, this.budget := map[], controller, budget;
      tokensPerStep, admitted, refused := 1, 0, 0;
      flagged, disagreements, unknownFinishes := {}, 0, 0;
    }

    method SetTokensPerStep(tokens: nat)
      modifies this
      ensures State() == old(State()).(tokensPerStep := tokensPerStep)
      ensures tokensPerStep >= 1 && (tokens >= 1 ==> tokensPerStep == tokens)
    {
      tokensPerStep := if tokens >= 1 then tokens else 1;
    }

    /** The least tolerance among the running sequences. */
    method TightestTolerance() returns (t: Tolerance)
      ensures forall id | id in running :: t.AtMost(running[id].TolerableItl(budget))
      ensures t.Ms? ==> exists id | id in running :: running[id].TolerableItl(budget) == t
    {
      t := Unlimited;
      var left := running.Keys;
      while left != {}
        invariant left <= running.Keys
        invariant forall id | id in running && id !in left :: t.AtMost(running[id].TolerableItl(budget))
        invariant t.Ms? ==> exists id | id in running :: running[id].TolerableItl(budget) == t
        decreases left
      {
        var id :| id in left;
        var own := running[id].TolerableItl(budget);
        if own.AtMost(t) {
          t := own;
        }
        left := left - {id};
      }
    }

    method CanAdmit(headroom: bool) returns (d: Decision)
      ensures d == DecodeState.CanAdmit(State(), headroom)
    {
      if !headroom {
        return NoKvHeadroom;
      }
      if |running| as real >= controller.cap {
        return AtCap;
      }
      if controller.samples >= 8 {
        var tightest := TightestTolerance();
        if tightest.Ms? && tightest.ms < Risk(controller.ewma) {
          return WouldSpoilRunning;
        }
      }
      return Admit;
    }

    method Note(d: Decision)
      modifies this
      ensures State() == DecodeState.Note(old(State()), d)
    {
      if d.Admit? {
        admitted := admitted + 1;
      } else {
        refused := refused + 1;
        if d.WouldSpoilRunning? {
          controller := BackOff(controller);
        }
      }
    }

    method AdmitAt(q: RunningSeq, now: real)
      modifies this
      ensures State() == DecodeState.AdmitAt(old(State()), q, now)
    {
      running := running[q.id := q.(admitted := now, last := MaxReal(q.last, now))];
    }

    method OnStep(now: real, steer: real, advanced: seq<nat>, finished: seq<nat>)
      returns (done: seq<RunningSeq>)
      modifies this
      ensures (State(), done) == DecodeState.OnStep(old(State()), now, steer, advanced, finished)
    {
      controller := Observe(controller, steer, |running|);
      BookAdvanced(now, advanced);
      assert State() == Booked(old(State()), now, steer, advanced);
      done := TakeFinished(finished);
      FlagOverdue();
    }

    method BookAdvanced(now: real, ids: seq<nat>)
      modifies this`running
      ensures running == Book(old(running), ids, now, tokensPerStep)
    {
      for i := 0 to |ids|
        invariant running == Book(old(running), ids[..i], now, tokensPerStep)
      {
        assert ids[..i + 1][..i] == ids[..i];
        if ids[i] in running {
          running := running[ids[i] := running[ids[i]].Emit(now, tokensPerStep)];
        }
      }
      assert ids[..|ids|] == ids;
    }

    method TakeFinished(ids: seq<nat>) returns (done: seq<RunningSeq>)
      modifies this`running, this`flagged, this`unknownFinishes
      ensures State() == WithoutFinished(old(State()), ids) && done == Done(old(running), ids)
    {
      done := [];
      for i := 0 to |ids|
        invariant running == Dropped(old(running), ids[..i])
        invariant done == Done(old(running), ids[..i])
        invariant flagged == old(flagged) - Reported(ids[..i], old(running))
        invariant unknownFinishes == old(unknownFinishes) + i - |done|
      {
        TakeNext(old(running), ids, i);
        if ids[i] in running {
          flagged := flagged - {ids[i]};
          done := done + [running[ids[i]]];
          running := running - {ids[i]};
        } else {
          unknownFinishes := unknownFinishes + 1;
        }
      }
      assert ids[..|ids|] == ids;
    }

    method FlagOverdue()
      modifies this`flagged, this`disagreements
      ensures State() == Flagged(old(State()))
    {
      var left := running.Keys;
      ghost var s, count: nat := State(), 0;
      ghost var before, overdue := flagged, Overdue(running);
      NoneFlagged(before, overdue, left);
      while left != {}
        invariant left <= running.Keys && Midway(flagged, count, before, overdue, left)
        invariant disagreements == old(disagreements) + count
        decreases left
      {
        var id :| id in left;
        ghost var flagged0, count0 := flagged, count;
        if running[id].IsDone() && id !in flagged {
          flagged := flagged + {id};
          disagreements, count := disagreements + 1, count + 1;
        }
        FlagNext(flagged0, count0, flagged, count, before, overdue, left, id);
        left := left - {id};
      }
      AllFlagged(s, flagged, count);
    }

    /** The step in which every running sequence advances, taken in whatever order the table yields. */
    method OnStepSynthetic(now: real, steer: real) returns (done: seq<RunningSeq>, ghost keys: seq<nat>)
      modifies this
      ensures Lists(keys, old(running))
      ensures (State(), done) == Synthetic(old(State()), now, steer, keys)
    {
      var advanced: seq<nat> := [];
      var finished: seq<nat> := [];
      var left := running.Keys;
      while left != {}
        invariant left <= running.Keys
        invariant Distinct(advanced) && forall id :: id in advanced <==> id in running && id !in left
        invariant finished == FinishingOf(running, advanced)
        decreases left
      {
        var id :| id in left;
        assert (advanced + [id])[..|advanced|] == advanced;
        advanced := advanced + [id];
        if running[id].emitted + 1 >= running[id].requested {
          finished := finished + [id];
        }
        left := left - {id};
      }
      keys := advanced;
      done := OnStep(now, steer, advanced, finished);
    }
  }
}
