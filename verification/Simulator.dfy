/** The simulator object: a heap of events and handlers that update it in place. */
module Simulators {
  import opened Common
  import opened Cost
  import RunningSeqs
  import opened PrefillState
  import opened DecodeState
  import opened SimState
  import opened SimInvariant
  import opened SimHandlers
  import opened SimRuns

  class Simulator {
    const c: Config
    var now: real
    var heap: set<Scheduled>
    var pushed: nat
    var nextId: nat
    var reqs: map<nat, Request>
    var prefill: seq<PrefillWorker>
    var decode: seq<DecodeWorker>
    var xferBusy: nat
    var xferQueue: seq<(nat, nat)>
    var outcomes: seq<RunningSeqs.Outcome>
    var issued: nat

    function State(): Sim
      reads this
    {
      Sim(now, heap, pushed, nextId, reqs, prefill, decode, xferBusy, xferQueue, outcomes, issued)
    }

    constructor (c: Config)
      ensures this.c == c && State() == Empty(c)
    {
      this.c := c;
      now, heap, pushed, nextId, reqs := 0.0, {}, 0, 0, map[];
      prefill := Empty(c).prefill;
      decode := Empty(c).decode;
      xferBusy, xferQueue, outcomes, issued := 0, [], [], 0;
    }

    method Push(at: real, event: Event)
      modifies this
      ensures State() == SimState.Push(old(State()), at, event)
    {
      pushed := pushed + 1;
      heap := heap + {Scheduled(at, pushed, event)};
    }

    // -------------------------------------------------------------- prefill

    method OnArrival(client: nat, r: Route)
      requires c.prefillCurve.Valid() && r.prefill < |prefill|
      modifies this
      ensures State() == SimState.OnArrival(c, old(State()), client, r)
    {
      var id := nextId;
      nextId := nextId + 1;
      issued := issued + 1;
      reqs := reqs[id := Request(client, now, c.isl, c.osl, r.decode, None)];
      var p := prefill[r.prefill];
      var q := Pending(id, now, now + c.ttft, SatSub(c.isl, r.hit), 0);
      prefill := prefill[r.prefill := p.(sched := Enqueue(p.sched, q))];
      assert State() == Issue(c, old(State()), client, r);
      TryStartPrefill(r.prefill);
    }

    method TryStartPrefill(w: nat)
      requires c.prefillCurve.Valid() && w < |prefill|
      modifies this
      ensures State() == StartPrefill(c, old(State()), w)
    {
      var p := prefill[w];
      if p.busy {
        return;
      }
      var batch := PlanBatch(p.sched, now);
      p := p.(sched := AfterPlan(p.sched, now));
      prefill := prefill[w := p];
      if batch.chunks == [] {
        return;
      }
      var ms := c.prefillCurve.BatchMs(batch.total, |batch.chunks|);
      prefill := prefill[w := p.(busy := true, batch := Some((batch, now)))];
      Push(now + ms, PrefillDone(w));
    }

    method OnPrefillDone(w: nat)
      requires c.prefillCurve.Valid() && w < |prefill|
      modifies this
      ensures State() == SimState.OnPrefillDone(c, old(State()), w)
    {
      if prefill[w].batch.None? {
        return;
      }
      var p := prefill[w];
      var (batch, started) := p.batch.value;
      var finished := Finished(p.sched.queue, batch.chunks);
      prefill := prefill[w := PrefillWorker(AfterComplete(p.sched, batch, now - started), false, None)];
      ghost var taken := State();
      assert taken == TakeBatch(old(State()), w);
      for i := 0 to |finished|
        invariant HandOffAll(State(), finished[i..]) == HandOffAll(taken, finished)
        invariant State() == taken.(reqs := reqs, xferQueue := xferQueue)
      {
        assert finished[i..][1..] == finished[i + 1..];
        ghost var before := State();
        var id := finished[i];
        if id in reqs {
          var r := reqs[id];
          reqs := reqs[id := r.(first := Some(now))];
          xferQueue := xferQueue + [(id, r.decodeWorker)];
        }
        assert State() == HandOff(before, id);
      }
      assert finished[|finished|..] == [];
      DrainXferQueue(c.transferMs);
      TryStartPrefill(w);
    }

    // ------------------------------------------------------------- transfer

    /** Moves the transfer queue into the free buffers, head first, until either runs out. */
    method DrainXferQueue(transfer: real)
      modifies this
      ensures State() == Drain(c, old(State()), old(now) + transfer)
    {
      var cap := Buffers(c);
      ghost var at := now + transfer;
      while xferBusy < cap && xferQueue != []
        invariant now == old(now)
        invariant Drain(c, State(), at) == Drain(c, old(State()), at)
        decreases |xferQueue|
      {
        var (id, w) := xferQueue[0];
        xferQueue := xferQueue[1..];
        xferBusy := xferBusy + 1;
        Push(now + transfer, KvArrived(id, w));
      }
    }

    method OnKvArrived(id: nat, w: nat)
      requires w < |decode|
      modifies this
      ensures State() == SimState.OnKvArrived(c, old(State()), id, w)
    {
      xferBusy := SatSub(xferBusy, 1);
      assert State() == Lift(old(State()));
      DrainXferQueue(c.transferMs);
      ghost var drained := State();
      decode := decode[w := decode[w].(pending := decode[w].pending + [id])];
      assert State() == Queue(drained, id, w);
      if !decode[w].stepping {
        decode := decode[w := decode[w].(stepping := true)];
        Push(now, DecodeStep(w));
      }
    }

    // --------------------------------------------------------------- decode

    method AdmitDecode(w: nat)
      requires w < |decode|
      modifies this
      ensures State() == AdmitAll(c, old(State()), w)
    {
      while decode[w].pending != []
        invariant w < |decode|
        invariant AdmitAll(c, State(), w) == AdmitAll(c, old(State()), w)
        decreases |decode[w].pending|
      {
        var d := decode[w];
        var id := d.pending[0];
        if id !in reqs {
          decode := decode[w := d.(pending := d.pending[1..])];
        } else {
          var r := reqs[id];
          var need := BlocksFor(r.promptLen + r.osl, c.blockSize);
          var headroom := d.free >= need + c.watermark;
          var decision := CanAdmit(d.sched, headroom);
          if !decision.Admit? {
            decode := decode[w := d.(sched := Note(d.sched, decision))];
            return;
          }
          Attach(w, need);
        }
      }
    }

    /** Moves the head of the pending queue, whose blocks are free, into the batch. */
    method Attach(w: nat, need: nat)
      requires w < |decode| && decode[w].pending != [] && decode[w].pending[0] in reqs
      requires Admission(c, reqs[decode[w].pending[0]], decode[w]).Admit?
      requires need == Need(c, reqs[decode[w].pending[0]])
      modifies this
      ensures State() == AdmitHead(c, old(State()), w)
    {
      var d := decode[w];
      var id := d.pending[0];
      var r := reqs[id];
      var first := match r.first case Some(t) => t case None => now;
      var q := RunningSeqs.Start(id, first, r.osl).(last := now);
      decode := decode[w := d.(
        pending := d.pending[1..], free := d.free - need, held := d.held[id := need],
        sched := AdmitAt(Note(d.sched, Admit), q, now))];
    }

    method Retire(w: nat, q: RunningSeqs.RunningSeq, at: real)
      requires w < |decode|
      modifies this
      ensures State() == SimState.Retire(old(State()), w, q, at)
    {
      var d := decode[w];
      if q.id in d.held {
        decode := decode[w := d.(free := d.free + d.held[q.id], held := d.held - {q.id})];
      }
      if q.id !in reqs {
        return;
      }
      var r := reqs[q.id];
      reqs := reqs - {q.id};
      var first := match r.first case Some(t) => t case None => at;
      outcomes := outcomes + [
        RunningSeqs.Outcome(q.id, r.arrival, first, at, r.promptLen, q.emitted, r.osl)];
      Push(at, Arrival(r.client));
    }

    /** The ids of a table, in whatever order it yields them. */
    method KeysOf(table: map<nat, RunningSeqs.RunningSeq>) returns (keys: seq<nat>)
      ensures Lists(keys, table)
    {
      keys := [];
      var left := table.Keys;
      while left != {}
        invariant left <= table.Keys
        invariant Distinct(keys) && forall id :: id in keys <==> id in table && id !in left
        decreases left
      {
        var id :| id in left;
        keys := keys + [id];
        left := left - {id};
      }
    }

    method OnDecodeStep(w: nat) returns (steer: real, keys: seq<nat>)
      requires w < |decode|
      modifies this
      ensures Lists(keys, AdmitAll(c, old(State()), w).decode[w].sched.running)
      ensures State() == SimState.OnDecodeStep(c, old(State()), w, steer, keys)
    {
      AdmitDecode(w);
      steer := *;
      keys := KeysOf(decode[w].sched.running);
      StepOrRest(w, steer, keys);
    }

    method StepOrRest(w: nat, steer: real, keys: seq<nat>)
      requires w < |decode|
      modifies this
      ensures State() == AfterAdmission(c, old(State()), w, steer, keys)
    {
      var concurrency := |decode[w].sched.running|;
      if concurrency == 0 {
        var at := now + c.decodeCurve.StepMs(1);
        NextStepIs(c, State(), w, concurrency);
        EmptyIs(c, State(), w, steer, keys, at);
        Rest(w, at);
      } else {
        var at := now + c.decodeCurve.StepMs(concurrency);
        NextStepIs(c, State(), w, concurrency);
        RunningIs(c, State(), w, steer, keys, at);
        Step(w, at, steer, keys);
      }
    }

    method Rest(w: nat, at: real)
      requires w < |decode|
      modifies this
      ensures State() == RestOrRetry(old(State()), w, at)
    {
      if decode[w].pending == [] {
        decode := decode[w := decode[w].(stepping := false)];
      } else {
        Push(at, DecodeStep(w));
      }
    }

    method Step(w: nat, at: real, steer: real, keys: seq<nat>)
      requires w < |decode|
      modifies this
      ensures State() == StepTo(old(State()), w, at, steer, keys)
    {
      var (sched, done) := Synthetic(decode[w].sched, at, steer, keys);
      decode := decode[w := decode[w].(sched := sched)];
      RetireFinished(w, done, at);
      Push(at, DecodeStep(w));
    }

    method RetireFinished(w: nat, done: seq<RunningSeqs.RunningSeq>, at: real)
      requires w < |decode|
      modifies this
      ensures State() == RetireAll(old(State()), w, done, at)
    {
      for i := 0 to |done|
        invariant w < |decode|
        invariant RetireAll(State(), w, done[i..], at) == RetireAll(old(State()), w, done, at)
      {
        assert done[i..][1..] == done[i + 1..];
        Retire(w, done[i], at);
      }
      assert done[|done|..] == [];
    }

    // -------------------------------------------------------------- the run

    /** Any prefill and decode worker, and any cached prefix that leaves something to compute. */
    method PickRoute() returns (r: Route)
      requires c.prefillWorkers >= 1 && c.decodeWorkers >= 1 && c.isl >= 1
      ensures r.prefill < c.prefillWorkers && r.decode < c.decodeWorkers && r.hit < c.isl
    {
      var pw: nat, dw: nat, hit: nat := *, *, *;
      r := Route(if pw < c.prefillWorkers then pw else 0, if dw < c.decodeWorkers then dw else 0,
                 if hit < c.isl then hit else 0);
    }

    method PopEarliest() returns (e: Scheduled)
      requires heap != {}
      modifies this
      ensures Earliest(e, old(heap))
      ensures State() == old(State()).(heap := old(heap) - {e})
    {
      e :| e in heap;
      var left := heap - {e};
      while left != {}
        invariant left <= heap && e in heap
        invariant forall x | x in heap && x !in left && x != e :: !Before(x, e)
        decreases left
      {
        var x :| x in left;
        if Before(x, e) {
          e := x;
        }
        left := left - {x};
      }
      heap := heap - {e};
    }

    /** Dispatches a popped event to its handler. */
    method Fire(e: Scheduled, ghost s: Sim) returns (ghost x: Choice)
      requires c.prefillCurve.Valid() && c.prefillWorkers >= 1 && c.decodeWorkers >= 1 && c.isl >= 1
      requires |prefill| == c.prefillWorkers && |decode| == c.decodeWorkers
      requires e.event.PrefillDone? ==> e.event.worker < |prefill|
      requires e.event.KvArrived? || e.event.DecodeStep? ==> e.event.worker < |decode|
      requires State() == Popped(s, e) && Earliest(e, s.heap)
      modifies this
      ensures Fires(c, s, e, x, State())
    {
      x := Choice(Route(0, 0, 0), 0.0, []);
      match e.event
      case Arrival(client) =>
        var r := PickRoute();
        x := x.(route := r);
        OnArrival(client, r);
      case PrefillDone(w) => OnPrefillDone(w);
      case KvArrived(id, w) => OnKvArrived(id, w);
      case DecodeStep(w) =>
        var steer, keys := OnDecodeStep(w);
        x := x.(steer := steer, keys := keys);
    }

    method Release()
      requires State() == Empty(c)
      modifies this
      ensures State() == Start(c)
    {
      for client := 0 to c.clients
        invariant State() == Released(c, client)
      {
        Push(0.0, Arrival(client));
      }
    }

    /** One turn of the loop: time moves to a popped event, and its handler runs. */
    method Turn(
        e: Scheduled, ghost s: Sim, ghost loc: Places, ghost who: Clients, ghost edge: real,
        ghost fired: nat)
      returns (ghost loc': Places, ghost who': Clients, ghost edge': real)
      requires ConfigOk(c) && c.isl >= 1 && Underway(c, s, loc, who, edge, fired)
      requires Earliest(e, s.heap) && e.at <= c.horizon && State() == s.(heap := s.heap - {e})
      modifies this
      ensures Underway(c, State(), loc', who', edge', fired + 1)
      ensures Fuel(c, heap, edge') < Fuel(c, s.heap, edge)
    {
      now := e.at;
      PopKnown(c, s, loc, who, edge, fired, e);
      ghost var x := Fire(e, s);
      loc', who', edge' := FireUnderway(c, s, loc, who, edge, fired, e, x, State());
    }

    /** Runs until the next event lies beyond the horizon. It ends, after at most `MostEvents` events;
        with a client it never runs out of events; and what it leaves is conserved. */
    method Run() returns (fired: nat, beyond: Option<Scheduled>, ghost final: Sim)
      requires ConfigOk(c) && c.isl >= 1 && State() == Empty(c)
      modifies this
      ensures fired <= MostEvents(c)
      ensures InOrder(c, final) && Conserved(c, final) && Served(c, final)
      ensures State() == match beyond case None => final case Some(e) => final.(heap := final.heap - {e})
      ensures beyond.None? ==> c.clients == 0 && final.heap == {}
      ensures beyond.Some? ==> Earliest(beyond.value, final.heap) && beyond.value.at > c.horizon
    {
      Release();
      StartUnderway(c);
      ghost var loc: Places, who: Clients, edge := map[], AllWaiting(c.clients), 0.0;
      fired, beyond := 0, None;
      while heap != {}
        invariant Underway(c, State(), loc, who, edge, fired)
        decreases Fuel(c, heap, edge)
      {
        final := State();
        var e := PopEarliest();
        if e.at > c.horizon {
          beyond := Some(e);
          UnderwayConserves(c, final, loc, who, edge, fired);
          return;
        }
        loc, who, edge := Turn(e, final, loc, who, edge, fired);
        fired := fired + 1;
      }
      final := State();
      UnderwayConserves(c, final, loc, who, edge, fired);
    }
  }

  lemma PopKnown(
      c: Config, s: Sim, loc: Places, who: Clients, edge: real, fired: nat, e: Scheduled)
    requires ConfigOk(c) && Underway(c, s, loc, who, edge, fired) && Earliest(e, s.heap)
    ensures |s.prefill| == c.prefillWorkers && |s.decode| == c.decodeWorkers
    ensures e.event.PrefillDone? ==> e.event.worker < |s.prefill|
    ensures e.event.KvArrived? || e.event.DecodeStep? ==> e.event.worker < |s.decode|
  {
    PopKeeps(c, s, loc, who, e);
    WorkersKnown(c, Popped(s, e), loc, who, e.event);
  }
}
