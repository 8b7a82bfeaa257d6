/** Queue ordering policies for prefill work. */
module Policy {
  import opened Common
  import opened Sorting

  datatype Job = Job(id: nat, arrival: real, deadline: real, service: real)

  datatype PrefillPolicy = Fcfs | Edf | MooreHodgson

  datatype JobOrdering = JobOrdering(onTime: seq<nat>, demoted: seq<nat>)

  datatype Schedule = Schedule(accepted: seq<Job>, demoted: seq<Job>)

  predicate ByArrival(a: Job, b: Job) {
    a.arrival < b.arrival || (a.arrival == b.arrival && a.id <= b.id)
  }

  predicate ByDeadline(a: Job, b: Job) {
    a.deadline < b.deadline || (a.deadline == b.deadline && a.id <= b.id)
  }

  /** The order in which eviction compares jobs: service, then deadline, then id. */
  predicate NoLonger(a: Job, b: Job) {
    || a.service < b.service
    || (a.service == b.service && ByDeadline(a, b))
  }

  function Ids(s: seq<Job>): (r: seq<nat>)
    ensures |r| == |s| && forall i | 0 <= i < |s| :: r[i] == s[i].id
  {
    seq(|s|, i requires 0 <= i < |s| => s[i].id)
  }

  /** Machine time the jobs need together. */
  function Total(s: seq<Job>): real {
    if s == [] then 0.0 else Total(s[..|s| - 1]) + s[|s| - 1].service
  }

  ghost predicate NonNegative(s: seq<Job>) {
    forall j | j in s :: j.service >= 0.0
  }

  /** Run back to back from `now`, every job of `s` completes by its deadline. */
  ghost predicate Feasible(s: seq<Job>, now: real) {
    forall i {:trigger Completion(s, i, now)} | 0 <= i < |s| :: Completion(s, i, now) <= s[i].deadline
  }

  /** When job `i` completes if `s` runs back to back from `now`. */
  function Completion(s: seq<Job>, i: nat, now: real): real
    requires i < |s|
  {
    now + Total(s[..i + 1])
  }

  /** How many jobs of `s`, run back to back from `clock`, complete by their deadline. */
  function OnTime(s: seq<Job>, clock: real): nat {
    if s == [] then 0
    else
      var done := clock + s[0].service;
      (if done <= s[0].deadline then 1 else 0) + OnTime(s[1..], done)
  }

  /** The last of the longest jobs, as an iterator maximum reports it. */
  function Longest(s: seq<Job>): (i: nat)
    requires s != []
    ensures i < |s|
    ensures forall j | j in s :: j.service <= s[i].service
  {
    var n := |s| - 1;
    assert s == s[..n] + [s[n]];
    if n == 0 then 0
    else
      var best := Longest(s[..n]);
      if NoLonger(s[best], s[n]) then n else best
  }

  /** Accepts one more job, evicting the longest when the schedule then runs late. */
  function Take(w: Schedule, job: Job, now: real): Schedule {
    var taken := w.accepted + [job];
    if now + Total(taken) > job.deadline then
      var victim := Longest(taken);
      Schedule(RemoveAt(taken, victim), w.demoted + [taken[victim]])
    else Schedule(taken, w.demoted)
  }

  /** Deadline-ordered jobs, taken one by one. */
  function Walk(s: seq<Job>, now: real): Schedule {
    if s == [] then Schedule([], [])
    else Take(Walk(s[..|s| - 1], now), s[|s| - 1], now)
  }

  function MooreHodgsonSchedule(jobs: seq<Job>, now: real): Schedule {
    var w := Walk(Sort(jobs, ByDeadline), now);
    Schedule(w.accepted, Sort(w.demoted, ByDeadline))
  }

  function Ordering(jobs: seq<Job>, now: real, policy: PrefillPolicy): JobOrdering {
    match policy
    case Fcfs => JobOrdering(Ids(Sort(jobs, ByArrival)), [])
    case Edf => JobOrdering(Ids(Sort(jobs, ByDeadline)), [])
    case MooreHodgson =>
      var s := MooreHodgsonSchedule(jobs, now);
      JobOrdering(Ids(s.accepted), Ids(s.demoted))
  }

  // ---------------------------------------------------------------- the code

  method FindLongest(s: seq<Job>) returns (victim: nat)
    requires s != []
    ensures victim == Longest(s)
  {
    victim := 0;
    for i := 1 to |s|
      invariant victim < i && victim == Longest(s[..i])
    {
      assert s[..i + 1][..i] == s[..i];
      if NoLonger(s[victim], s[i]) {
        victim := i;
      }
    }
    assert s[..|s|] == s;
  }

  method RunMooreHodgson(jobs: seq<Job>, now: real) returns (r: JobOrdering)
    ensures r == Ordering(jobs, now, MooreHodgson)
  {
    var byDeadline := Sort(jobs, ByDeadline);
    var accepted: seq<Job>, demoted: seq<Job> := [], [];
    var clock := now;
    for i := 0 to |byDeadline|
      invariant Schedule(accepted, demoted) == Walk(byDeadline[..i], now)
      invariant clock == now + Total(accepted)
    {
      var job := byDeadline[i];
      TotalAppend(accepted, [job]);
      TotalOne(job);
      WalkStep(byDeadline, i, now);
      accepted := accepted + [job];
      clock := clock + job.service;
      if clock > job.deadline {
        var victim := FindLongest(accepted);
        var removed := accepted[victim];
        TotalRemoveAt(accepted, victim);
        accepted := RemoveAt(accepted, victim);
        clock := clock - removed.service;
        demoted := demoted + [removed];
      }
    }
    assert byDeadline[..|byDeadline|] == byDeadline;
    demoted := Sort(demoted, ByDeadline);
    r := JobOrdering(Ids(accepted), Ids(demoted));
  }

  method OrderJobs(jobs: seq<Job>, now: real, policy: PrefillPolicy) returns (r: JobOrdering)
    ensures r == Ordering(jobs, now, policy)
  {
    match policy
    case Fcfs => r := JobOrdering(Ids(Sort(jobs, ByArrival)), []);
    case Edf => r := JobOrdering(Ids(Sort(jobs, ByDeadline)), []);
    case MooreHodgson => r := RunMooreHodgson(jobs, now);
  }

  // ---------------------------------------------------------- sums and orders

  lemma {:induction false} TotalAppend(a: seq<Job>, b: seq<Job>)
    ensures Total(a + b) == Total(a) + Total(b)
  {
    if b == [] {
      assert a + b == a;
    } else {
      assert (a + b)[..|a + b| - 1] == a + b[..|b| - 1];
      TotalAppend(a, b[..|b| - 1]);
    }
  }

  lemma TotalOne(job: Job)
    ensures Total([job]) == job.service
  {
    assert [job][..0] == [];
  }

  lemma TotalRemoveAt(s: seq<Job>, i: nat)
    requires i < |s|
    ensures Total(RemoveAt(s, i)) == Total(s) - s[i].service
  {
    RemovedSplits(s, i);
    TotalWithout(s[..i], s[i], s[i + 1..]);
  }

  lemma RemovedSplits<T>(s: seq<T>, i: nat)
    requires i < |s|
    ensures s[..i] + [s[i]] + s[i + 1..] == s
    ensures RemoveAt(s, i) == s[..i] + s[i + 1..]
  {
  }

  lemma TotalWithout(a: seq<Job>, job: Job, b: seq<Job>)
    ensures Total(a + [job] + b) == Total(a + b) + job.service
  {
    TotalAppend(a + [job], b);
    TotalAppend(a, [job]);
    TotalAppend(a, b);
    TotalOne(job);
  }

  lemma WalkStep(s: seq<Job>, i: nat, now: real)
    requires i < |s|
    ensures Walk(s[..i + 1], now) == Take(Walk(s[..i], now), s[i], now)
  {
    assert s[..i + 1][..i] == s[..i];
  }

  lemma OrdersArePreorders()
    ensures TotalPreorder(ByArrival) && TotalPreorder(ByDeadline)
  {
  }

  /** Dropping a job from a feasible schedule leaves it feasible. */
  lemma FeasibleRemoveAt(s: seq<Job>, i: nat, now: real)
    requires i < |s| && Feasible(s, now) && NonNegative(s)
    ensures Feasible(RemoveAt(s, i), now)
  {
    var r := RemoveAt(s, i);
    forall k | 0 <= k < |r| ensures Completion(r, k, now) <= r[k].deadline {
      if k < i {
        assert r[..k + 1] == s[..k + 1];
        assert Completion(s, k, now) <= s[k].deadline;
      } else {
        assert r[..k + 1] == RemoveAt(s[..k + 2], i);
        TotalRemoveAt(s[..k + 2], i);
        assert s[i] in s;
        assert Completion(s, k + 1, now) <= s[k + 1].deadline;
      }
    }
  }

  lemma FeasibleAppend(s: seq<Job>, job: Job, now: real)
    requires Feasible(s, now) && now + Total(s) + job.service <= job.deadline
    ensures Feasible(s + [job], now)
  {
    var r := s + [job];
    forall k | 0 <= k < |r| ensures Completion(r, k, now) <= r[k].deadline {
      if k < |s| {
        assert r[..k + 1] == s[..k + 1];
        assert Completion(s, k, now) <= s[k].deadline;
      } else {
        assert r[..k + 1] == r && r[..|r| - 1] == s;
      }
    }
  }

  lemma EndsByLast(s: seq<Job>, now: real)
    requires s != [] && Feasible(s, now)
    ensures now + Total(s) <= s[|s| - 1].deadline
  {
    assert s[..|s|] == s;
    assert Completion(s, |s| - 1, now) <= s[|s| - 1].deadline;
  }

  // -------------------------------------------------- feasibility of the walk

  lemma TakeSplits(w: Schedule, job: Job, now: real)
    ensures var t := Take(w, job, now);
      multiset(t.accepted) + multiset(t.demoted)
      == multiset(w.accepted) + multiset(w.demoted) + multiset{job}
  {
    var taken := w.accepted + [job];
    RemoveAtMultiset(taken, Longest(taken));
  }

  /** The walk splits its input into accepted and demoted jobs. */
  lemma {:induction false} WalkSplits(s: seq<Job>, now: real)
    ensures var w := Walk(s, now); multiset(w.accepted) + multiset(w.demoted) == multiset(s)
  {
    if s != [] {
      WalkSplits(s[..|s| - 1], now);
      FrontLastMultiset(s);
      TakeSplits(Walk(s[..|s| - 1], now), s[|s| - 1], now);
    }
  }

  /** Evicting the longest job after a late arrival leaves a feasible schedule. */
  lemma EvictionRecovers(A: seq<Job>, job: Job, now: real)
    requires Feasible(A, now) && NonNegative(A + [job])
    requires forall x | x in A :: x.deadline <= job.deadline
    requires now + Total(A + [job]) > job.deadline
    ensures Feasible(RemoveAt(A + [job], Longest(A + [job])), now)
  {
    var taken := A + [job];
    var v := Longest(taken);
    assert job in taken;
    if v == |A| {
      assert RemoveAt(taken, v) == A;
    } else {
      assert RemoveAt(taken, v) == RemoveAt(A, v) + [job];
      forall x | x in A ensures x.service >= 0.0 {
        assert x in taken;
      }
      FeasibleRemoveAt(A, v, now);
      TotalRemoveAt(A, v);
      EndsByLast(A, now);
      FeasibleAppend(RemoveAt(A, v), job, now);
    }
  }

  /** The walk keeps the accepted jobs on time. */
  lemma {:induction false} WalkFeasible(s: seq<Job>, now: real)
    requires Sorted(s, ByDeadline) && NonNegative(s)
    ensures Feasible(Walk(s, now).accepted, now)
  {
    if s != [] {
      var n := |s| - 1;
      var job := s[n];
      WalkFeasible(s[..n], now);
      var A := Walk(s[..n], now).accepted;
      AcceptedFrom(s[..n], now);
      forall x | x in A ensures ByDeadline(x, job) && x in s {
        assert x in s[..n];
      }
      assert (A + [job])[..|A|] == A;
      if now + Total(A + [job]) > job.deadline {
        EvictionRecovers(A, job, now);
      } else {
        FeasibleAppend(A, job, now);
      }
    }
  }

  lemma AcceptedFrom(s: seq<Job>, now: real)
    ensures forall x | x in Walk(s, now).accepted :: x in s
  {
    WalkSplits(s, now);
    forall x | x in Walk(s, now).accepted ensures x in s {
      assert x in multiset(Walk(s, now).accepted) + multiset(Walk(s, now).demoted);
    }
  }

  // ------------------------------------------------------------- optimality

  /** Total service of the `r` jobs of `s` left after dropping the longest again and again. */
  function Cheapest(s: seq<Job>, r: nat): real
    requires r <= |s|
    decreases |s|
  {
    if r == |s| then Total(s) else Cheapest(RemoveAt(s, Longest(s)), r)
  }

  /** One more job to choose from never makes the cheapest choice dearer. */
  lemma {:induction false} CheapestGrows(s: seq<Job>, job: Job, r: nat)
    requires r <= |s|
    ensures Cheapest(s + [job], r) <= Cheapest(s, r)
    decreases |s|
  {
    var t := s + [job];
    var u := Longest(t);
    assert t[..|s|] == s;
    if u == |s| {
      assert RemoveAt(t, u) == s;
    } else {
      assert u == Longest(s);
      var rest := RemoveAt(s, u);
      assert RemoveAt(t, u) == rest + [job];
      if r == |s| {
        TotalRemoveAt(s, u);
        TotalAppend(rest, [job]);
        TotalOne(job);
        assert job in t;
      } else {
        CheapestGrows(rest, job, r);
      }
    }
  }

  /** One more of `s` costs at most `p` when nothing in `s` is longer than `p`. */
  lemma {:induction false} CheapestNext(s: seq<Job>, r: nat, p: real)
    requires 1 <= r <= |s| && forall j | j in s :: j.service <= p
    ensures Cheapest(s, r) <= Cheapest(s, r - 1) + p
    decreases |s|
  {
    var u := Longest(s);
    if r == |s| {
      TotalRemoveAt(s, u);
    } else {
      CheapestNext(RemoveAt(s, u), r, p);
    }
  }

  /** The cheapest `r` of `s` plus `job` cost no more than `job` with the cheapest `r - 1` of `s`. */
  lemma {:induction false} CheapestWith(s: seq<Job>, job: Job, r: nat)
    requires 1 <= r <= |s| + 1
    ensures Cheapest(s + [job], r) <= Cheapest(s, r - 1) + job.service
    decreases |s|
  {
    var t := s + [job];
    var u := Longest(t);
    assert t[..|s|] == s;
    if r <= |s| {
      if u == |s| {
        assert RemoveAt(t, u) == s;
        forall j | j in s ensures j.service <= job.service {
          assert j in t;
        }
        CheapestNext(s, r, job.service);
      } else {
        assert RemoveAt(t, u) == RemoveAt(s, u) + [job];
        CheapestWith(RemoveAt(s, u), job, r);
      }
    }
  }

  /** Taking `job` keeps dominating a choice of size `r` and cost `cost` that leaves `job` out. */
  lemma TakeDominatesWithout(w: Schedule, job: Job, now: real, r: nat, cost: real)
    requires r <= |w.accepted| && Cheapest(w.accepted, r) <= cost
    ensures var a := Take(w, job, now).accepted; r <= |a| && Cheapest(a, r) <= cost
  {
    CheapestGrows(w.accepted, job, r);
  }

  /** Taking `job` keeps dominating a choice that consists of `job` and a dominated rest. */
  lemma TakeDominatesWith(w: Schedule, job: Job, now: real, r: nat, cost: real)
    requires 1 <= r <= |w.accepted| + 1 && Cheapest(w.accepted, r - 1) + job.service <= cost
    requires now + cost <= job.deadline
    ensures var a := Take(w, job, now).accepted; r <= |a| && Cheapest(a, r) <= cost
  {
    CheapestWith(w.accepted, job, r);
  }

  /** Against every feasible choice from the jobs walked so far, the accepted set is at least as
      large, and its cheapest part of the same size is at least as cheap. */
  lemma {:induction false} WalkDominates(s: seq<Job>, now: real, other: seq<Job>)
    requires Sorted(s, ByDeadline) && NonNegative(s)
    requires multiset(other) <= multiset(s) && Feasible(other, now)
    ensures var w := Walk(s, now);
      |other| <= |w.accepted| && Cheapest(w.accepted, |other|) <= Total(other)
    decreases |s|
  {
    if s == [] {
      assert |multiset(other)| <= 0;
    } else {
      var n := |s| - 1;
      var job := s[n];
      var w := Walk(s[..n], now);
      if job in other {
        var fewer := WithoutJob(s, now, other);
        WalkDominates(s[..n], now, fewer);
        LastIsLatest(s, now, other);
        TakeDominatesWith(w, job, now, |other|, Total(other));
      } else {
        FrontLastMultiset(s);
        WalkDominates(s[..n], now, other);
        TakeDominatesWithout(w, job, now, |other|, Total(other));
      }
    }
  }

  /** A feasible choice holding the last job, without it: feasible, and drawn from the others. */
  lemma WithoutJob(s: seq<Job>, now: real, other: seq<Job>) returns (fewer: seq<Job>)
    requires s != [] && NonNegative(s) && s[|s| - 1] in other
    requires multiset(other) <= multiset(s) && Feasible(other, now)
    ensures |fewer| == |other| - 1 && Total(fewer) == Total(other) - s[|s| - 1].service
    ensures multiset(fewer) <= multiset(s[..|s| - 1]) && Feasible(fewer, now)
  {
    var n := |s| - 1;
    assert s == s[..n] + [s[n]];
    var i :| 0 <= i < |other| && other[i] == s[n];
    fewer := RemoveAt(other, i);
    RemoveAtMultiset(other, i);
    TotalRemoveAt(other, i);
    forall j | j in other ensures j in s {
      assert j in multiset(other);
    }
    FeasibleRemoveAt(other, i, now);
  }

  /** A feasible schedule ends no later than the latest deadline it draws from. */
  lemma LastIsLatest(s: seq<Job>, now: real, other: seq<Job>)
    requires s != [] && Sorted(s, ByDeadline)
    requires other != [] && multiset(other) <= multiset(s) && Feasible(other, now)
    ensures now + Total(other) <= s[|s| - 1].deadline
  {
    var last := other[|other| - 1];
    EndsByLast(other, now);
    assert last in multiset(other);
    assert last in s;
  }

  /** Keeping only the jobs that end on time gives a feasible schedule of that many jobs. */
  lemma {:induction false} KeepOnTime(s: seq<Job>, clock: real, start: real) returns (kept: seq<Job>)
    requires NonNegative(s) && start <= clock
    ensures |kept| == OnTime(s, clock) && multiset(kept) <= multiset(s) && FeasibleFrom(kept, start)
  {
    if s == [] {
      kept := [];
    } else {
      var done := clock + s[0].service;
      assert s == [s[0]] + s[1..];
      if done <= s[0].deadline {
        var rest := KeepOnTime(s[1..], done, start + s[0].service);
        kept := [s[0]] + rest;
        assert kept[1..] == rest;
      } else {
        kept := KeepOnTime(s[1..], done, start);
      }
    }
  }

  /** `Feasible`, unrolled from the front. */
  ghost predicate FeasibleFrom(s: seq<Job>, start: real) {
    s == [] || (start + s[0].service <= s[0].deadline && FeasibleFrom(s[1..], start + s[0].service))
  }

  lemma {:induction false} FeasibleFromIsFeasible(s: seq<Job>, start: real)
    requires FeasibleFrom(s, start)
    ensures Feasible(s, start)
  {
    if s != [] {
      FeasibleFromIsFeasible(s[1..], start + s[0].service);
      TotalOne(s[0]);
      forall i | 0 <= i < |s| ensures Completion(s, i, start) <= s[i].deadline {
        if i > 0 {
          assert Completion(s[1..], i - 1, start + s[0].service) <= s[1..][i - 1].deadline;
        }
        assert s[..i + 1] == [s[0]] + s[1..][..i];
        TotalAppend([s[0]], s[1..][..i]);
      }
    }
  }

  lemma {:induction false} FeasibleIsOnTime(s: seq<Job>, clock: real)
    requires Feasible(s, clock)
    ensures OnTime(s, clock) == |s|
  {
    if s != [] {
      TotalOne(s[0]);
      assert s[..1] == [s[0]];
      assert Completion(s, 0, clock) == clock + s[0].service;
      var rest := s[1..];
      forall i | 0 <= i < |rest| ensures Completion(rest, i, clock + s[0].service) <= rest[i].deadline {
        assert Completion(s, i + 1, clock) <= s[i + 1].deadline;
        assert s[..i + 2] == [s[0]] + rest[..i + 1];
        TotalAppend([s[0]], rest[..i + 1]);
      }
      FeasibleIsOnTime(rest, clock + s[0].service);
    }
  }

  // ------------------------------------------------------------ main theorems

  /** Every accepted job meets its deadline in the returned order, and no order of any of the jobs
      has more jobs on time. */
  lemma MooreHodgsonOptimal(jobs: seq<Job>, now: real, other: seq<Job>)
    requires NonNegative(jobs) && multiset(other) <= multiset(jobs)
    ensures var a := MooreHodgsonSchedule(jobs, now).accepted;
      Feasible(a, now) && OnTime(a, now) == |a| && OnTime(other, now) <= |a|
  {
    OrdersArePreorders();
    var s := Sort(jobs, ByDeadline);
    SortSorts(jobs, ByDeadline);
    forall j | j in s || j in other ensures j in jobs {
      assert j in multiset(jobs);
    }
    WalkFeasible(s, now);
    FeasibleIsOnTime(Walk(s, now).accepted, now);
    var kept := KeepOnTime(other, now, now);
    FeasibleFromIsFeasible(kept, now);
    WalkDominates(s, now, kept);
  }

  /** When everything is served in the returned order, exactly the accepted jobs are on time: a
      demoted job never makes its deadline behind them. */
  lemma DemotedStayLate(jobs: seq<Job>, now: real)
    requires NonNegative(jobs)
    ensures var m := MooreHodgsonSchedule(jobs, now);
      OnTime(m.accepted + m.demoted, now) == |m.accepted|
  {
    var m := MooreHodgsonSchedule(jobs, now);
    ScheduleIsPermutation(jobs, now);
    MooreHodgsonOptimal(jobs, now, m.accepted + m.demoted);
    OnTimeGrows(m.accepted, m.demoted, now);
  }

  lemma {:induction false} OnTimeGrows(s: seq<Job>, t: seq<Job>, clock: real)
    ensures OnTime(s, clock) <= OnTime(s + t, clock)
  {
    if s != [] {
      assert (s + t)[1..] == s[1..] + t;
      OnTimeGrows(s[1..], t, clock + s[0].service);
    }
  }

  /** Nothing is lost or invented, under any policy. */
  lemma OrderingIsPermutation(jobs: seq<Job>, now: real, policy: PrefillPolicy)
    ensures var o := Ordering(jobs, now, policy);
      multiset(o.onTime + o.demoted) == multiset(Ids(jobs))
  {
    match policy
    case Fcfs => SortKeepsIds(jobs, ByArrival);
    case Edf => SortKeepsIds(jobs, ByDeadline);
    case MooreHodgson =>
      ScheduleIsPermutation(jobs, now);
      var m := MooreHodgsonSchedule(jobs, now);
      IdsMultiset(m.accepted + m.demoted, jobs);
      assert Ids(m.accepted + m.demoted) == Ids(m.accepted) + Ids(m.demoted);
  }

  lemma SortKeepsIds(jobs: seq<Job>, le: (Job, Job) -> bool)
    requires le == ByArrival || le == ByDeadline
    ensures multiset(Ids(Sort(jobs, le)) + []) == multiset(Ids(jobs))
  {
    OrdersArePreorders();
    SortSorts(jobs, le);
    IdsMultiset(Sort(jobs, le), jobs);
    assert Ids(Sort(jobs, le)) + [] == Ids(Sort(jobs, le));
  }

  lemma ScheduleIsPermutation(jobs: seq<Job>, now: real)
    ensures var m := MooreHodgsonSchedule(jobs, now);
      multiset(m.accepted + m.demoted) == multiset(jobs)
  {
    OrdersArePreorders();
    var s := Sort(jobs, ByDeadline);
    SortSorts(jobs, ByDeadline);
    WalkSplits(s, now);
    SortSorts(Walk(s, now).demoted, ByDeadline);
  }

  lemma {:induction false} IdsMultiset(s: seq<Job>, t: seq<Job>)
    requires multiset(s) == multiset(t)
    ensures multiset(Ids(s)) == multiset(Ids(t))
  {
    assert |s| == |multiset(s)| == |multiset(t)| == |t|;
    if s != [] {
      var i := FindIn(t, s[0], s);
      RemoveAtMultiset(t, i);
      HeadTailMultiset(s);
      IdsMultiset(s[1..], RemoveAt(t, i));
      IdsHead(s);
      IdsRemoveAt(t, i);
    }
  }

  lemma FindIn(t: seq<Job>, job: Job, s: seq<Job>) returns (i: nat)
    requires multiset(s) == multiset(t) && job in s
    ensures i < |t| && t[i] == job
  {
    InMultiset(s, job);
    InMultiset(t, job);
    i :| 0 <= i < |t| && t[i] == job;
  }

  lemma IdsRemoveAt(t: seq<Job>, i: nat)
    requires i < |t|
    ensures multiset(Ids(t)) == multiset{t[i].id} + multiset(Ids(RemoveAt(t, i)))
  {
    assert Ids(RemoveAt(t, i)) == RemoveAt(Ids(t), i);
    assert Ids(t) == Ids(t)[..i] + [t[i].id] + Ids(t)[i + 1..];
  }

  lemma IdsHead(s: seq<Job>)
    requires s != []
    ensures multiset(Ids(s)) == multiset{s[0].id} + multiset(Ids(s[1..]))
  {
    assert Ids(s) == [s[0].id] + Ids(s[1..]);
  }

  /** Nothing is demoted exactly when all the jobs can meet their deadlines in some order. */
  lemma DemotesNothingIff(jobs: seq<Job>, now: real)
    requires NonNegative(jobs)
    ensures MooreHodgsonSchedule(jobs, now).demoted == []
      <==> exists order :: multiset(order) == multiset(jobs) && OnTime(order, now) == |jobs|
  {
    OrdersArePreorders();
    var s := Sort(jobs, ByDeadline);
    SortSorts(jobs, ByDeadline);
    forall j | j in s ensures j in jobs {
      assert j in multiset(jobs);
    }
    WalkSplits(s, now);
    var w := Walk(s, now);
    SortSorts(w.demoted, ByDeadline);
    var d := MooreHodgsonSchedule(jobs, now).demoted;
    assert |d| == |multiset(d)| == |multiset(w.demoted)| == |w.demoted|;
    assert |multiset(w.accepted)| + |multiset(w.demoted)| == |multiset(jobs)|;
    if d == [] {
      MooreHodgsonOptimal(jobs, now, []);
      assert multiset(w.accepted) == multiset(jobs) && OnTime(w.accepted, now) == |jobs|;
    }
    if order :| multiset(order) == multiset(jobs) && OnTime(order, now) == |jobs| {
      MooreHodgsonOptimal(jobs, now, order);
    }
  }
}
