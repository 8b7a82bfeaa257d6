/** The discrete-event simulator: its state, and what each handler does to it. */
module SimState {
  import opened Common
  import opened Cost
  import opened RunningSeqs
  import opened DecodeState
  import opened PrefillState

  datatype Event =
    | Arrival(client: nat)
    | PrefillDone(worker: nat)
    | KvArrived(id: nat, worker: nat)
    | DecodeStep(worker: nat)

  datatype Scheduled = Scheduled(at: real, number: nat, event: Event)

  /** Fires earlier: by time, then by insertion. */
  predicate Before(a: Scheduled, b: Scheduled) {
    a.at < b.at || (a.at == b.at && a.number < b.number)
  }

  ghost predicate Earliest(e: Scheduled, heap: set<Scheduled>) {
    e in heap && forall x | x in heap && x != e :: !Before(x, e)
  }

  datatype Config = Config(
    clients: nat, isl: nat, osl: nat, ttft: real, prefillWorkers: nat, decodeWorkers: nat,
    tuning: Tuning, decode: DecodeSched, prefillCurve: PrefillCurve, decodeCurve: DecodeCurve,
    blockSize: nat, totalBlocks: nat, watermark: nat, xferConcurrency: nat, transferMs: real,
    horizon: real)

  datatype PrefillWorker = PrefillWorker(sched: Scheduler, busy: bool, batch: Option<(Batch, real)>)

  datatype DecodeWorker = DecodeWorker(
    sched: DecodeSched, pending: seq<nat>, stepping: bool, free: nat, held: map<nat, nat>)

  datatype Request = Request(
    client: nat, arrival: real, promptLen: nat, osl: nat, decodeWorker: nat, first: Option<real>)

  datatype Sim = Sim(
    now: real, heap: set<Scheduled>, pushed: nat, nextId: nat, reqs: map<nat, Request>,
    prefill: seq<PrefillWorker>, decode: seq<DecodeWorker>, xferBusy: nat,
    xferQueue: seq<(nat, nat)>, outcomes: seq<Outcome>, issued: nat)

  /** What the router picked: a worker on each side, and the prefix tokens already cached. */
  datatype Route = Route(prefill: nat, decode: nat, hit: nat)

  function Push(s: Sim, at: real, event: Event): Sim {
    s.(pushed := s.pushed + 1, heap := s.heap + {Scheduled(at, s.pushed + 1, event)})
  }

  function WithPrefill(s: Sim, w: nat, p: PrefillWorker): Sim
    requires w < |s.prefill|
  {
    s.(prefill := s.prefill[w := p])
  }

  function WithDecode(s: Sim, w: nat, d: DecodeWorker): Sim
    requires w < |s.decode|
  {
    s.(decode := s.decode[w := d])
  }

  // ------------------------------------------------------------ the start

  function Empty(c: Config): Sim {
    Sim(0.0, {}, 0, 0, map[],
        seq(c.prefillWorkers, i => PrefillWorker(Scheduler(c.tuning, map[], [], {}), false, None)),
        seq(c.decodeWorkers, i => DecodeWorker(c.decode, [], false, c.totalBlocks, map[])),
        0, [], [], 0)
  }

  /** The first `n` clients have been released. */
  function Released(c: Config, n: nat): Sim {
    if n == 0 then Empty(c) else Push(Released(c, n - 1), 0.0, Arrival(n - 1))
  }

  function Start(c: Config): Sim { Released(c, c.clients) }

  // -------------------------------------------------------------- arrivals

  /** Records a client's next request and queues it for prefill. */
  function Issue(c: Config, s: Sim, client: nat, r: Route): (t: Sim)
    requires r.prefill < |s.prefill|
  {
    var id, p := s.nextId, s.prefill[r.prefill];
    WithPrefill(
      s.(nextId := id + 1, issued := s.issued + 1,
         reqs := s.reqs[id := Request(client, s.now, c.isl, c.osl, r.decode, None)]),
      r.prefill,
      p.(sched := Enqueue(p.sched, Pending(id, s.now, s.now + c.ttft, SatSub(c.isl, r.hit), 0))))
  }

  /** Plans a batch on an idle worker and starts it. */
  function StartPrefill(c: Config, s: Sim, w: nat): (t: Sim)
    requires w < |s.prefill| && c.prefillCurve.Valid()
    ensures |t.prefill| == |s.prefill| && |t.decode| == |s.decode|
  {
    var p := s.prefill[w];
    if p.busy then s
    else Launch(c, s, w, AfterPlan(p.sched, s.now), PlanBatch(p.sched, s.now))
  }

  /** Starts a planned batch, if there is anything in it. */
  function Launch(c: Config, s: Sim, w: nat, sched: Scheduler, batch: Batch): (t: Sim)
    requires w < |s.prefill| && c.prefillCurve.Valid()
  {
    var p := s.prefill[w].(sched := sched);
    if batch.chunks == [] then WithPrefill(s, w, p)
    else
      Push(WithPrefill(s, w, p.(busy := true, batch := Some((batch, s.now)))),
           s.now + c.prefillCurve.BatchMs(batch.total, |batch.chunks|), PrefillDone(w))
  }

  function OnArrival(c: Config, s: Sim, client: nat, r: Route): (t: Sim)
    requires r.prefill < |s.prefill| && c.prefillCurve.Valid()
  {
    StartPrefill(c, Issue(c, s, client, r), r.prefill)
  }

  // --------------------------------------------------------------- prefill

  /** The worker gives up its batch, and is idle again. */
  function TakeBatch(s: Sim, w: nat): Sim
    requires w < |s.prefill| && s.prefill[w].batch.Some?
  {
    var p := s.prefill[w];
    var (batch, started) := p.batch.value;
    WithPrefill(s, w, PrefillWorker(AfterComplete(p.sched, batch, s.now - started), false, None))
  }

  /** The requests that the worker's batch finishes. */
  function FinishedBy(p: PrefillWorker): seq<nat>
    requires p.batch.Some?
  {
    Finished(p.sched.queue, p.batch.value.0.chunks)
  }

  /** The first token is out; the KV waits for a transfer buffer. */
  function HandOff(s: Sim, id: nat): Sim {
    if id !in s.reqs then s
    else
      s.(reqs := s.reqs[id := s.reqs[id].(first := Some(s.now))],
         xferQueue := s.xferQueue + [(id, s.reqs[id].decodeWorker)])
  }

  function HandOffAll(s: Sim, ids: seq<nat>): (t: Sim)
    ensures |t.prefill| == |s.prefill| && |t.decode| == |s.decode|
    decreases |ids|
  {
    if ids == [] then s else HandOffAll(HandOff(s, ids[0]), ids[1..])
  }

  function Buffers(c: Config): nat { if c.xferConcurrency >= 1 then c.xferConcurrency else 1 }

  function StartTransfer(s: Sim, at: real): Sim
    requires s.xferQueue != []
  {
    Push(Dequeue(s), at, KvArrived(s.xferQueue[0].0, s.xferQueue[0].1))
  }

  /** The next transfer takes a buffer. */
  function Dequeue(s: Sim): Sim
    requires s.xferQueue != []
  {
    s.(xferBusy := s.xferBusy + 1, xferQueue := s.xferQueue[1..])
  }

  /** Moves the transfer queue into the free buffers, head first; what starts lands at `at`. */
  function Drain(c: Config, s: Sim, at: real): (t: Sim)
    ensures |t.prefill| == |s.prefill| && |t.decode| == |s.decode|
    decreases |s.xferQueue|
  {
    if s.xferBusy >= Buffers(c) || s.xferQueue == [] then s
    else Drain(c, StartTransfer(s, at), at)
  }

  function OnPrefillDone(c: Config, s: Sim, w: nat): Sim
    requires w < |s.prefill| && c.prefillCurve.Valid()
  {
    if s.prefill[w].batch.None? then s
    else
      var handed := HandOffAll(TakeBatch(s, w), FinishedBy(s.prefill[w]));
      StartPrefill(c, Drain(c, handed, s.now + c.transferMs), w)
  }

  // -------------------------------------------------------------- transfer

  function Queue(s: Sim, id: nat, w: nat): Sim
    requires w < |s.decode|
  {
    WithDecode(s, w, s.decode[w].(pending := s.decode[w].pending + [id]))
  }

  function Wake(s: Sim, w: nat): Sim
    requires w < |s.decode|
  {
    if s.decode[w].stepping then s
    else Push(WithDecode(s, w, s.decode[w].(stepping := true)), s.now, DecodeStep(w))
  }

  function OnKvArrived(c: Config, s: Sim, id: nat, w: nat): Sim
    requires w < |s.decode|
  {
    Wake(Queue(Drain(c, Lift(s), s.now + c.transferMs), id, w), w)
  }

  /** A transfer gives its buffer back. */
  function Lift(s: Sim): Sim { s.(xferBusy := SatSub(s.xferBusy, 1)) }

  // ---------------------------------------------------------------- decode

  function BlocksFor(tokens: nat, blockSize: nat): nat {
    var size := if blockSize >= 1 then blockSize else 1;
    if tokens % size == 0 then tokens / size else tokens / size + 1
  }

  function Need(c: Config, r: Request): nat { BlocksFor(r.promptLen + r.osl, c.blockSize) }

  function Admission(c: Config, r: Request, d: DecodeWorker): Decision {
    CanAdmit(d.sched, d.free >= Need(c, r) + c.watermark)
  }

  /** The sequence as decode takes it over: its first token is out, its clock runs from now. */
  function Entering(id: nat, r: Request, now: real): RunningSeq {
    RunningSeqs.Start(id, match r.first case Some(t) => t case None => now, r.osl).(last := now)
  }

  /** Moves the head of the pending queue into the batch. */
  function AdmitHead(c: Config, s: Sim, w: nat): Sim
    requires w < |s.decode| && s.decode[w].pending != [] && s.decode[w].pending[0] in s.reqs
    requires Admission(c, s.reqs[s.decode[w].pending[0]], s.decode[w]).Admit?
  {
    var d := s.decode[w];
    var id := d.pending[0];
    var need := Need(c, s.reqs[id]);
    WithDecode(s, w, d.(
      pending := d.pending[1..], free := d.free - need, held := d.held[id := need],
      sched := AdmitAt(Note(d.sched, Admit), Entering(id, s.reqs[id], s.now), s.now)))
  }

  /** Admits from the head of the pending queue until the scheduler refuses. */
  function AdmitAll(c: Config, s: Sim, w: nat): (t: Sim)
    requires w < |s.decode|
    ensures |t.decode| == |s.decode| && |t.prefill| == |s.prefill|
    decreases |s.decode[w].pending|
  {
    var d := s.decode[w];
    if d.pending == [] then s
    else if d.pending[0] !in s.reqs then
      AdmitAll(c, WithDecode(s, w, d.(pending := d.pending[1..])), w)
    else
      var v := Admission(c, s.reqs[d.pending[0]], d);
      if v.Admit? then AdmitAll(c, AdmitHead(c, s, w), w)
      else WithDecode(s, w, d.(sched := Note(d.sched, v)))
  }

  /** Gives back the blocks, scores the request and releases its client. */
  function Retire(s: Sim, w: nat, q: RunningSeq, at: real): (t: Sim)
    requires w < |s.decode|
    ensures |t.decode| == |s.decode|
  {
    var d := s.decode[w];
    var freed :=
      if q.id in d.held then
        WithDecode(s, w, d.(free := d.free + d.held[q.id], held := d.held - {q.id}))
      else s;
    if q.id !in s.reqs then freed
    else
      var r := s.reqs[q.id];
      Push(
        freed.(reqs := s.reqs - {q.id},
               outcomes := s.outcomes + [
                 Outcome(q.id, r.arrival, match r.first case Some(t) => t case None => at, at,
                         r.promptLen, q.emitted, r.osl)]),
        at, Arrival(r.client))
  }

  function RetireAll(s: Sim, w: nat, qs: seq<RunningSeq>, at: real): (t: Sim)
    requires w < |s.decode|
    ensures |t.decode| == |s.decode|
    decreases |qs|
  {
    if qs == [] then s else RetireAll(Retire(s, w, qs[0], at), w, qs[1..], at)
  }

  /** The batch advances; `steer` is the latency it observed and `keys` the order of its table. */
  function StepBatch(s: Sim, w: nat, at: real, steer: real, keys: seq<nat>): Sim
    requires w < |s.decode|
  {
    WithDecode(s, w, s.decode[w].(sched := Synthetic(s.decode[w].sched, at, steer, keys).0))
  }

  /** A pass over admitted work, or a retry, or rest. */
  function AfterAdmission(c: Config, s: Sim, w: nat, steer: real, keys: seq<nat>): Sim
    requires w < |s.decode|
  {
    StepOrWait(s, w, NextStep(c, s, w), steer, keys)
  }

  /** When a step of the batch would end, or that of a single sequence if there is none. */
  function NextStep(c: Config, s: Sim, w: nat): real
    requires w < |s.decode|
  {
    var n := |s.decode[w].sched.running|;
    s.now + c.decodeCurve.StepMs(if n == 0 then 1 else n)
  }

  /** What the worker does when a step of its batch, or else a retry, would end at `at`. */
  function StepOrWait(s: Sim, w: nat, at: real, steer: real, keys: seq<nat>): Sim
    requires w < |s.decode|
  {
    if |s.decode[w].sched.running| > 0 then StepTo(s, w, at, steer, keys) else RestOrRetry(s, w, at)
  }

  /** An empty batch rests, or tries again at `at` if requests are still queued. */
  function RestOrRetry(s: Sim, w: nat, at: real): Sim
    requires w < |s.decode|
  {
    if s.decode[w].pending == [] then WithDecode(s, w, s.decode[w].(stepping := false))
    else Push(s, at, DecodeStep(w))
  }

  /** A step that ends at `at`: the finished are retired, and the next step is due. */
  function StepTo(s: Sim, w: nat, at: real, steer: real, keys: seq<nat>): Sim
    requires w < |s.decode|
  {
    var done := Synthetic(s.decode[w].sched, at, steer, keys).1;
    Push(RetireAll(StepBatch(s, w, at, steer, keys), w, done, at), at, DecodeStep(w))
  }

  function OnDecodeStep(c: Config, s: Sim, w: nat, steer: real, keys: seq<nat>): Sim
    requires w < |s.decode|
  {
    AfterAdmission(c, AdmitAll(c, s, w), w, steer, keys)
  }

  // ---------------------------------------------------------------- firing

  /** What the model leaves open about one event. */
  datatype Choice = Choice(route: Route, steer: real, keys: seq<nat>)

  ghost predicate InRange(s: Sim, e: Event, x: Choice) {
    match e
    case Arrival(_) => x.route.prefill < |s.prefill| && x.route.decode < |s.decode|
    case PrefillDone(w) => w < |s.prefill|
    case KvArrived(_, w) => w < |s.decode|
    case DecodeStep(w) => w < |s.decode|
  }

  function Popped(s: Sim, e: Scheduled): Sim { s.(now := e.at, heap := s.heap - {e}) }

  function Handle(c: Config, s: Sim, e: Event, x: Choice): Sim
    requires InRange(s, e, x) && c.prefillCurve.Valid()
  {
    match e
    case Arrival(client) => OnArrival(c, s, client, x.route)
    case PrefillDone(w) => OnPrefillDone(c, s, w)
    case KvArrived(id, w) => OnKvArrived(c, s, id, w)
    case DecodeStep(w) => OnDecodeStep(c, s, w, x.steer, x.keys)
  }
}
