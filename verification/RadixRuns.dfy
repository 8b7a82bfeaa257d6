/** The prefix index over whole runs of insertions, forgettings and prunings under a clock that never
    runs backwards. */
module RadixRuns {
  import opened RadixTree
  import opened Radix

  /** The latest time that any of the first `n` calls gave. */
  function Clock(calls: seq<Call>, n: nat): real
    requires n <= |calls|
  {
    if n == 0 then 0.0
    else
      match calls[n - 1]
      case Insertion(_, _, now) => now
      case Pruning(now, _) => now
      case Forgetting(_) => Clock(calls, n - 1)
      case Clearing => Clock(calls, n - 1)
  }

  predicate Timed(call: Call) { call.Insertion? || call.Pruning? }

  predicate OnTime(calls: seq<Call>, i: nat)
    requires i < |calls|
  {
    Timed(calls[i]) ==> Clock(calls, i) <= calls[i].now
  }

  ghost predicate NeverBackwards(calls: seq<Call>) { forall i: nat | i < |calls| :: OnTime(calls, i) }

  ghost predicate Fresh(x: State) { Right(x) && x.t == LONE_ROOT && x.said == {} }

  /** The states that the calls lead through, from a new index on. */
  ghost predicate IsRun(xs: seq<State>, calls: seq<Call>) {
    && |xs| == |calls| + 1 && NeverBackwards(calls) && Fresh(xs[0])
    && forall i: nat | i < |calls| :: StepsAt(xs, calls, i)
  }

  ghost predicate StepsAt(xs: seq<State>, calls: seq<Call>, i: nat)
    requires |xs| == |calls| + 1 && i < |calls|
  {
    Follows(xs[i], calls[i], xs[i + 1])
  }

  ghost predicate Follows(x: State, call: Call, y: State) { Right(x) && Does(x, call, y) }

  /** The clock moves as the call says. */
  predicate Ticks(call: Call, clock: real, next: real) {
    if Timed(call) then clock <= call.now == next else next == clock
  }

  lemma LoneRootIsOrderly(now: real)
    requires now >= 0.0
    ensures IsTree(LONE_ROOT) && Orderly(LONE_ROOT, now)
  {
  }

  ghost predicate InOrder(x: State, now: real) { Right(x) && Orderly(x.t, now) && now >= 0.0 }

  lemma FreshInOrder(x: State)
    requires Fresh(x)
    ensures InOrder(x, 0.0)
  {
    LoneRootIsOrderly(0.0);
  }

  lemma RunStep(xs: seq<State>, calls: seq<Call>, i: nat)
    requires IsRun(xs, calls) && i < |calls|
    ensures Follows(xs[i], calls[i], xs[i + 1])
    ensures Ticks(calls[i], Clock(calls, i), Clock(calls, i + 1))
  {
    assert StepsAt(xs, calls, i);
    assert OnTime(calls, i);
  }

  // --------------------------------------------------------------- freshness

  lemma ViewBounds(t: Tree, now: real)
    requires IsTree(t)
    ensures UsedBy(t, now) <==> forall e | e in View(t) :: e.last <= now
  {
    if forall e | e in View(t) :: e.last <= now {
      forall c | 0 <= c < |t.nodes| ensures t.nodes[c].last <= now {
        assert EntryOf(t, c) in View(t);
      }
    }
  }

  lemma LaterIsOrderly(t: Tree, now: real, later: real)
    requires IsTree(t) && Orderly(t, now) && now <= later
    ensures Orderly(t, later)
  {
  }

  lemma CallKeepsOrder(x: State, call: Call, y: State, clock: real, next: real)
    requires Follows(x, call, y) && InOrder(x, clock) && Ticks(call, clock, next)
    ensures InOrder(y, next)
  {
    LaterIsOrderly(x.t, clock, next);
    match call
    case Insertion(worker, tokens, now) =>
    case Forgetting(worker) =>
    case Pruning(now, ttl) =>
      ViewBounds(x.t, next);
      ViewBounds(y.t, next);
    case Clearing => LoneRootIsOrderly(next);
  }

  /** Over every run no node is ever used after its parent, nor after the clock. */
  lemma {:induction false} RunsStayOrderly(xs: seq<State>, calls: seq<Call>, n: nat)
    requires IsRun(xs, calls) && n <= |calls|
    ensures InOrder(xs[n], Clock(calls, n))
  {
    if n == 0 {
      FreshInOrder(xs[0]);
    } else {
      RunsStayOrderly(xs, calls, n - 1);
      RunStep(xs, calls, n - 1);
      CallKeepsOrder(xs[n - 1], calls[n - 1], xs[n], Clock(calls, n - 1), Clock(calls, n));
    }
  }

  /** So every pruning leaves exactly the root and the nodes used within the time to live. */
  lemma PruningIsExact(xs: seq<State>, calls: seq<Call>, n: nat)
    requires IsRun(xs, calls) && n < |calls| && calls[n].Pruning?
    ensures Right(xs[n]) && Right(xs[n + 1])
    ensures View(xs[n + 1].t) ==
      set e | e in View(xs[n].t) && (e.path == [] || calls[n].now - e.last <= calls[n].ttl)
  {
    RunsStayOrderly(xs, calls, n);
    RunStep(xs, calls, n);
  }

  // ----------------------------------------------------------------- history

  /** An accepted insertion. */
  datatype Record = Record(worker: Worker, tokens: seq<Token>, at: real)

  /** What one call makes of a set of records, if it never expires any. */
  ghost function Noted(x: State, call: Call, h: set<Record>): set<Record> {
    match call
    case Insertion(worker, tokens, now) =>
      if Accepted(x, tokens) then h + {Record(worker, tokens, now)} else h
    case Forgetting(worker) => set r | r in h && r.worker != worker
    case Pruning(_, _) => h
    case Clearing => {}
  }

  /** What it makes of it if a pruning expires what is older than its time to live. */
  ghost function Lasted(x: State, call: Call, h: set<Record>): set<Record> {
    if call.Pruning? then set r | r in h && call.now - r.at <= call.ttl else Noted(x, call, h)
  }

  /** The insertions accepted in the first `n` calls and not forgotten or cleared since. */
  ghost function History(xs: seq<State>, calls: seq<Call>, n: nat): set<Record>
    requires n <= |calls| && |xs| == |calls| + 1
  {
    if n == 0 then {} else Noted(xs[n - 1], calls[n - 1], History(xs, calls, n - 1))
  }

  /** Those that no pruning since has found older than its time to live. */
  ghost function Lasting(xs: seq<State>, calls: seq<Call>, n: nat): set<Record>
    requires n <= |calls| && |xs| == |calls| + 1
  {
    if n == 0 then {} else Lasted(xs[n - 1], calls[n - 1], Lasting(xs, calls, n - 1))
  }

  /** The index still holds what the record says, and has used it no earlier. */
  ghost predicate Holds(x: State, r: Record)
    requires Right(x)
  {
    Since(x.t, r.worker, r.tokens, r.at)
  }

  lemma ForgettingHolds(x: State, worker: Worker, y: State, r: Record)
    requires Right(x) && Does(x, Forgetting(worker), y) && Holds(x, r) && r.worker != worker
    ensures Holds(y, r)
  {
    var t, u := x.t, y.t;
    var c :| 0 <= c < |t.nodes| && r.worker in t.nodes[c].workers && r.tokens <= t.paths[c]
      && r.at <= t.nodes[c].last;
    assert r.worker in u.nodes[c].workers && r.tokens <= u.paths[c] && r.at <= u.nodes[c].last;
  }

  lemma PruningHolds(x: State, now: real, ttl: real, y: State, r: Record)
    requires Right(x) && Does(x, Pruning(now, ttl), y) && Holds(x, r) && now - r.at <= ttl
    ensures Holds(y, r)
  {
    var c :| 0 <= c < |x.t.nodes| && r.worker in x.t.nodes[c].workers && r.tokens <= x.t.paths[c]
      && r.at <= x.t.nodes[c].last;
    var e := EntryOf(x.t, c);
    assert e in View(x.t) && e in View(y.t);
    var d :| 0 <= d < |y.t.nodes| && e == EntryOf(y.t, d);
    assert r.worker in y.t.nodes[d].workers && r.tokens <= y.t.paths[d] && r.at <= y.t.nodes[d].last;
  }

  ghost predicate AllHeld(x: State, h: set<Record>, clock: real) {
    Right(x) && forall r | r in h :: Holds(x, r) && r.at <= clock
  }

  lemma CallHolds(
      x: State, call: Call, y: State, h: set<Record>, k: set<Record>, clock: real, next: real)
    requires Follows(x, call, y) && AllHeld(x, h, clock) && Ticks(call, clock, next)
    requires k == Lasted(x, call, h)
    ensures AllHeld(y, k, next)
  {
    forall r | r in k ensures Holds(y, r) && r.at <= next {
      match call
      case Insertion(worker, tokens, now) =>
      case Forgetting(worker) => ForgettingHolds(x, worker, y, r);
      case Pruning(now, ttl) => PruningHolds(x, now, ttl, y, r);
      case Clearing =>
    }
  }

  /** What is recent enough is never lost. */
  lemma {:induction false} LastingHolds(xs: seq<State>, calls: seq<Call>, n: nat)
    requires IsRun(xs, calls) && n <= |calls|
    ensures AllHeld(xs[n], Lasting(xs, calls, n), Clock(calls, n))
  {
    if n > 0 {
      LastingHolds(xs, calls, n - 1);
      RunStep(xs, calls, n - 1);
      CallHolds(xs[n - 1], calls[n - 1], xs[n], Lasting(xs, calls, n - 1), Lasting(xs, calls, n),
                Clock(calls, n - 1), Clock(calls, n));
    }
  }

  /** Some record is of this worker and starts with `s`. */
  ghost predicate Recorded(h: set<Record>, w: Worker, s: seq<Token>) {
    exists r :: r in h && r.worker == w && s <= r.tokens
  }

  lemma PruningKnowsLess(x: State, now: real, ttl: real, y: State, w: Worker, s: seq<Token>)
    requires Right(x) && Does(x, Pruning(now, ttl), y) && Knows(y.t, w, s)
    ensures Knows(x.t, w, s)
  {
    var d :| 0 <= d < |y.t.nodes| && w in y.t.nodes[d].workers && s <= y.t.paths[d];
    assert EntryOf(y.t, d) in View(y.t) && EntryOf(y.t, d) in View(x.t);
    var c :| 0 <= c < |x.t.nodes| && EntryOf(x.t, c) == EntryOf(y.t, d);
    assert w in x.t.nodes[c].workers && s <= x.t.paths[c];
  }

  ghost predicate OnlyRecorded(x: State, h: set<Record>) {
    Right(x) && forall w, s | Knows(x.t, w, s) :: Recorded(h, w, s)
  }

  lemma CallKnowsRecorded(x: State, call: Call, y: State, h: set<Record>, k: set<Record>)
    requires Follows(x, call, y) && OnlyRecorded(x, h) && k == Noted(x, call, h)
    ensures OnlyRecorded(y, k)
  {
    forall w: Worker, s: seq<Token> | Knows(y.t, w, s) ensures Recorded(k, w, s) {
      assert Said(y.said, w, s);
      match call
      case Insertion(worker, tokens, now) =>
        if Accepted(x, tokens) && w == worker && s <= tokens {
          assert Record(worker, tokens, now) in k;
        } else {
          StillRecorded(x, h, k, w, s);
        }
      case Forgetting(worker) => StillRecorded(x, h, k, w, s);
      case Pruning(now, ttl) => PruningKnowsLess(x, now, ttl, y, w, s);
      case Clearing =>
    }
  }

  lemma StillRecorded(x: State, h: set<Record>, k: set<Record>, w: Worker, s: seq<Token>)
    requires OnlyRecorded(x, h) && Said(x.said, w, s)
    requires forall r | r in h && r.worker == w :: r in k
    ensures Recorded(k, w, s)
  {
    assert Knows(x.t, w, s);
    var r :| r in h && r.worker == w && s <= r.tokens;
    assert r in k;
  }

  /** Nothing is known that was not inserted. */
  lemma {:induction false} KnownWasInserted(xs: seq<State>, calls: seq<Call>, n: nat)
    requires IsRun(xs, calls) && n <= |calls|
    ensures OnlyRecorded(xs[n], History(xs, calls, n))
  {
    if n == 0 {
      NothingKnown(xs[0], History(xs, calls, 0));
    } else {
      KnownWasInserted(xs, calls, n - 1);
      RunStep(xs, calls, n - 1);
      CallKnowsRecorded(xs[n - 1], calls[n - 1], xs[n], History(xs, calls, n - 1), History(xs, calls, n));
    }
  }

  lemma NothingKnown(x: State, h: set<Record>)
    requires Fresh(x)
    ensures OnlyRecorded(x, h)
  {
  }

  lemma {:induction false} LastingAreHistory(xs: seq<State>, calls: seq<Call>, n: nat)
    requires n <= |calls| && |xs| == |calls| + 1
    ensures Lasting(xs, calls, n) <= History(xs, calls, n)
  {
    if n > 0 {
      LastingAreHistory(xs, calls, n - 1);
    }
  }

  // ---------------------------------------------------------------- matching

  /** The longest overlap of `tokens` with any record of `w` is at least `m`; or it is at most `m`. */
  ghost predicate Reaches(h: set<Record>, w: Worker, tokens: seq<Token>, m: nat) {
    exists r :: r in h && r.worker == w && m <= CommonPrefix(r.tokens, tokens)
  }

  ghost predicate Bounds(h: set<Record>, w: Worker, tokens: seq<Token>, m: nat) {
    forall r | r in h && r.worker == w :: CommonPrefix(r.tokens, tokens) <= m
  }

  lemma HeldIsMatched(x: State, r: Record, tokens: seq<Token>, out: map<Worker, nat>)
    requires Right(x) && Holds(x, r) && Reports(x.said, tokens, out)
    ensures r.worker in out && CommonPrefix(r.tokens, tokens) <= out[r.worker]
  {
    assert Knows(x.t, r.worker, r.tokens);
    var y :| (r.worker, y) in x.said && r.tokens <= y;
    CommonPrefixIsLongest(r.tokens, tokens);
    var n := CommonPrefix(r.tokens, tokens);
    assert tokens[..n] == r.tokens[..n] <= y;
    PrefixOverlap(y, tokens, n);
  }

  lemma MatchedIsKnown(x: State, w: Worker, tokens: seq<Token>, out: map<Worker, nat>)
    requires Right(x) && Reports(x.said, tokens, out) && w in out
    ensures out[w] <= |tokens| && Knows(x.t, w, tokens[..out[w]])
  {
    var y :| (w, y) in x.said && CommonPrefix(y, tokens) == out[w];
    CommonPrefixIsLongest(y, tokens);
    assert tokens[..out[w]] <= y;
    assert Said(x.said, w, tokens[..out[w]]);
  }

  lemma MatchIsReached(
      x: State, h: set<Record>, w: Worker, tokens: seq<Token>, out: map<Worker, nat>)
    requires OnlyRecorded(x, h) && Reports(x.said, tokens, out) && w in out
    ensures Reaches(h, w, tokens, out[w])
  {
    MatchedIsKnown(x, w, tokens, out);
    var r :| r in h && r.worker == w && tokens[..out[w]] <= r.tokens;
    PrefixOverlap(r.tokens, tokens, out[w]);
  }

  /** After any run a worker's reported overlap is at least the longest over its lasting insertions and
      at most the longest over all its insertions. */
  lemma RunsMatch(xs: seq<State>, calls: seq<Call>, n: nat, tokens: seq<Token>, out: map<Worker, nat>)
    requires IsRun(xs, calls) && n <= |calls| && Reports(xs[n].said, tokens, out)
    ensures forall r | r in Lasting(xs, calls, n) :: r.worker in out
    ensures forall w | w in out ::
      Bounds(Lasting(xs, calls, n), w, tokens, out[w]) && Reaches(History(xs, calls, n), w, tokens, out[w])
  {
    LastingHolds(xs, calls, n);
    KnownWasInserted(xs, calls, n);
    forall r | r in Lasting(xs, calls, n)
      ensures r.worker in out && CommonPrefix(r.tokens, tokens) <= out[r.worker]
    {
      HeldIsMatched(xs[n], r, tokens, out);
    }
    forall w | w in out ensures Reaches(History(xs, calls, n), w, tokens, out[w]) {
      MatchIsReached(xs[n], History(xs, calls, n), w, tokens, out);
    }
  }

  /** Where nothing of a worker has expired, its reported overlap is exactly the longest over all its
      insertions. */
  lemma RunsMatchExactly(
      xs: seq<State>, calls: seq<Call>, n: nat, tokens: seq<Token>, out: map<Worker, nat>, w: Worker)
    requires IsRun(xs, calls) && n <= |calls| && Reports(xs[n].said, tokens, out)
    requires forall r | r in History(xs, calls, n) && r.worker == w :: r in Lasting(xs, calls, n)
    ensures w in out <==> exists r :: r in History(xs, calls, n) && r.worker == w
    ensures w in out ==>
      Bounds(History(xs, calls, n), w, tokens, out[w]) && Reaches(History(xs, calls, n), w, tokens, out[w])
  {
    RunsMatch(xs, calls, n, tokens, out);
    if w in out {
      assert Reaches(History(xs, calls, n), w, tokens, out[w]);
    }
  }
}
