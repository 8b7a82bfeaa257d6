/** What the three orderings mean on the fields of the jobs. */
module PolicyOrders {
  import opened Common
  import opened Sorting
  import opened Policy

  ghost predicate DistinctJobs(jobs: seq<Job>) { Distinct(Ids(jobs)) }

  /** `s` lists jobs of `jobs` under the ids `ids`. */
  ghost predicate Reads(s: seq<Job>, ids: seq<nat>, jobs: seq<Job>) {
    Ids(s) == ids && forall j | j in s :: j in jobs
  }

  lemma SameJob(jobs: seq<Job>, a: Job, b: Job)
    requires DistinctJobs(jobs) && a in jobs && b in jobs && a.id == b.id
    ensures a == b
  {
    var i :| 0 <= i < |jobs| && jobs[i] == a;
    var k :| 0 <= k < |jobs| && jobs[k] == b;
    assert Ids(jobs)[i] == Ids(jobs)[k];
  }

  /** With different ids, only one list of jobs reads as given ids. */
  lemma ReadsOnce(s: seq<Job>, t: seq<Job>, jobs: seq<Job>)
    requires DistinctJobs(jobs) && Ids(s) == Ids(t)
    requires (forall j | j in s :: j in jobs) && (forall j | j in t :: j in jobs)
    ensures s == t
  {
    assert |s| == |Ids(s)| == |t|;
    forall i | 0 <= i < |s| ensures s[i] == t[i] {
      assert Ids(s)[i] == Ids(t)[i];
      SameJob(jobs, s[i], t[i]);
    }
  }

  lemma SameMembers(s: seq<Job>, t: seq<Job>)
    requires multiset(s) <= multiset(t)
    ensures forall j | j in s :: j in t
  {
    forall j | j in s ensures j in t {
      assert j in multiset(s);
    }
  }

  lemma SortReads(jobs: seq<Job>, s: seq<Job>, le: (Job, Job) -> bool)
    requires TotalPreorder(le) && DistinctJobs(jobs) && Reads(s, Ids(Sort(jobs, le)), jobs)
    ensures s == Sort(jobs, le) && Sorted(s, le) && multiset(s) == multiset(jobs) && DistinctJobs(s)
  {
    SortSorts(jobs, le);
    SameMembers(Sort(jobs, le), jobs);
    ReadsOnce(s, Sort(jobs, le), jobs);
    IdsMultiset(jobs, s);
    PermutationDistinct(Ids(jobs), Ids(s));
  }

  /** First come, first served: by arrival, ties by id. */
  lemma FcfsByArrival(jobs: seq<Job>, now: real, s: seq<Job>)
    requires DistinctJobs(jobs) && Reads(s, Ordering(jobs, now, Fcfs).onTime, jobs)
    ensures Ordering(jobs, now, Fcfs).demoted == [] && multiset(s) == multiset(jobs)
    ensures forall i, j | 0 <= i < j < |s| ::
      s[i].arrival < s[j].arrival || (s[i].arrival == s[j].arrival && s[i].id < s[j].id)
  {
    OrdersArePreorders();
    SortReads(jobs, s, ByArrival);
    forall i, j | 0 <= i < j < |s|
      ensures s[i].arrival < s[j].arrival || (s[i].arrival == s[j].arrival && s[i].id < s[j].id)
    {
      assert Ids(s)[i] != Ids(s)[j];
      assert ByArrival(s[i], s[j]);
    }
  }

  /** Strictly by deadline, ties by id. */
  ghost predicate ByRawDeadline(s: seq<Job>) {
    forall i, j | 0 <= i < j < |s| ::
      s[i].deadline < s[j].deadline || (s[i].deadline == s[j].deadline && s[i].id < s[j].id)
  }

  lemma SortedByDeadline(s: seq<Job>)
    requires Sorted(s, ByDeadline) && DistinctJobs(s)
    ensures ByRawDeadline(s)
  {
    forall i, j | 0 <= i < j < |s|
      ensures s[i].deadline < s[j].deadline || (s[i].deadline == s[j].deadline && s[i].id < s[j].id)
    {
      assert Ids(s)[i] != Ids(s)[j];
      assert ByDeadline(s[i], s[j]);
    }
  }

  /** Earliest deadline first: by deadline, ties by id. */
  lemma EdfByDeadline(jobs: seq<Job>, now: real, s: seq<Job>)
    requires DistinctJobs(jobs) && Reads(s, Ordering(jobs, now, Edf).onTime, jobs)
    ensures Ordering(jobs, now, Edf).demoted == [] && multiset(s) == multiset(jobs)
    ensures ByRawDeadline(s)
  {
    OrdersArePreorders();
    SortReads(jobs, s, ByDeadline);
    SortedByDeadline(s);
  }

  // ----------------------------------------------------- earliest deadline first

  /** Run back to back from `now`, no job of `s` is later than its deadline by more than `slip`. */
  ghost predicate AtMostLate(s: seq<Job>, now: real, slip: real) {
    forall i {:trigger Completion(s, i, now)} | 0 <= i < |s| :: Completion(s, i, now) <= s[i].deadline + slip
  }

  lemma {:induction false} PartTotal(a: seq<Job>, b: seq<Job>)
    requires multiset(a) <= multiset(b) && NonNegative(b)
    ensures Total(a) <= Total(b)
  {
    if a == [] {
      TotalNonNegative(b);
    } else {
      var last := a[|a| - 1];
      FrontLastMultiset(a);
      InMultiset(a, last);
      InMultiset(b, last);
      var i :| 0 <= i < |b| && b[i] == last;
      RemoveAtMultiset(b, i);
      TotalRemoveAt(b, i);
      forall j | j in RemoveAt(b, i) ensures j in b {
      }
      PartTotal(a[..|a| - 1], RemoveAt(b, i));
    }
  }

  lemma {:induction false} TotalNonNegative(s: seq<Job>)
    requires NonNegative(s)
    ensures Total(s) >= 0.0
  {
    if s != [] {
      assert s == s[..|s| - 1] + [s[|s| - 1]];
      TotalNonNegative(s[..|s| - 1]);
    }
  }

  /** The job of `a` that comes last in `other`. */
  lemma {:induction false} LastOf(a: seq<Job>, other: seq<Job>, n: nat) returns (p: nat)
    requires a != [] && n <= |other| && multiset(a) <= multiset(other[..n])
    ensures p < n && other[p] in a && multiset(a) <= multiset(other[..p + 1])
  {
    InMultiset(a, a[0]);
    InMultiset(other[..n], a[0]);
    p := n - 1;
    assert other[..n] == other[..p] + [other[p]];
    if other[p] !in a {
      WithoutLast(a, other[..p], other[p]);
    }
    if multiset(a) <= multiset(other[..p]) {
      p := LastOf(a, other, p);
    }
  }

  lemma WithoutLast(a: seq<Job>, b: seq<Job>, x: Job)
    requires multiset(a) <= multiset(b + [x]) && x !in a
    ensures multiset(a) <= multiset(b)
  {
    InMultiset(a, x);
  }

  /** Serving by deadline is at most as late as any other order. */
  lemma DeadlineOrderIsLeastLate(s: seq<Job>, other: seq<Job>, now: real, slip: real)
    requires Sorted(s, ByDeadline) && NonNegative(s) && multiset(other) == multiset(s)
    requires AtMostLate(other, now, slip)
    ensures AtMostLate(s, now, slip)
  {
    forall k | 0 <= k < |s| ensures Completion(s, k, now) <= s[k].deadline + slip {
      var p := OverrunBy(s, other, k);
      assert Completion(other, p, now) <= other[p].deadline + slip;
    }
  }

  /** Some job of `other` is due no later than job `k` of `s` and has at least its work before it. */
  lemma OverrunBy(s: seq<Job>, other: seq<Job>, k: nat) returns (p: nat)
    requires Sorted(s, ByDeadline) && NonNegative(s) && multiset(other) == multiset(s) && k < |s|
    ensures p < |other| && other[p].deadline <= s[k].deadline
    ensures Total(s[..k + 1]) <= Total(other[..p + 1])
  {
    var a := s[..k + 1];
    PrefixPart(s, k + 1);
    PrefixPart(other, |other|);
    p := LastOf(a, other, |other|);
    PrefixPart(other, p + 1);
    SameMembers(other[..p + 1], s);
    PartTotal(a, other[..p + 1]);
    DueByLast(s, k, other[p]);
  }

  lemma PrefixPart(s: seq<Job>, n: nat)
    requires n <= |s|
    ensures multiset(s[..n]) <= multiset(s) && s[..|s|] == s
  {
    assert s == s[..n] + s[n..];
  }

  lemma DueByLast(s: seq<Job>, k: nat, x: Job)
    requires Sorted(s, ByDeadline) && k < |s| && x in s[..k + 1]
    ensures x.deadline <= s[k].deadline
  {
    var q :| 0 <= q < k + 1 && s[q] == x;
    assert q == k || ByDeadline(s[q], s[k]);
  }

  /** Earliest deadline first has the least greatest lateness of all orders; with `slip` zero, it is on
      time throughout if any order is. */
  lemma EdfIsLeastLate(jobs: seq<Job>, now: real, s: seq<Job>, other: seq<Job>, slip: real)
    requires DistinctJobs(jobs) && NonNegative(jobs)
    requires Reads(s, Ordering(jobs, now, Edf).onTime, jobs)
    requires multiset(other) == multiset(jobs) && AtMostLate(other, now, slip)
    ensures AtMostLate(s, now, slip)
  {
    OrdersArePreorders();
    SortReads(jobs, s, ByDeadline);
    SameMembers(s, jobs);
    DeadlineOrderIsLeastLate(s, other, now, slip);
  }

  // ------------------------------------------------------------ Moore-Hodgson

  lemma {:induction false} WalkByDeadline(s: seq<Job>, now: real)
    requires Sorted(s, ByDeadline)
    ensures Sorted(Walk(s, now).accepted, ByDeadline)
  {
    if s != [] {
      var n := |s| - 1;
      WalkByDeadline(s[..n], now);
      AcceptedFrom(s[..n], now);
      TakeByDeadline(Walk(s[..n], now), s[n], now);
    }
  }

  lemma TakeByDeadline(w: Schedule, job: Job, now: real)
    requires Sorted(w.accepted, ByDeadline) && forall x | x in w.accepted :: ByDeadline(x, job)
    ensures Sorted(Take(w, job, now).accepted, ByDeadline)
  {
    var taken := w.accepted + [job];
    RemoveKeepsSorted(taken, Longest(taken), ByDeadline);
  }

  lemma RemoveKeepsSorted<T>(s: seq<T>, v: nat, le: (T, T) -> bool)
    requires Sorted(s, le) && v < |s|
    ensures Sorted(RemoveAt(s, v), le)
  {
    var r := RemoveAt(s, v);
    forall i, j | 0 <= i < j < |r| ensures le(r[i], r[j]) {
      assert le(s[if i < v then i else i + 1], s[if j < v then j else j + 1]);
    }
  }

  /** The ordering under Moore-Hodgson, on the jobs themselves: both parts are in deadline order, the
      first is on time throughout, exactly it is on time when both are served, and no order of any of the
      jobs has more on time. */
  lemma MooreHodgsonServes(jobs: seq<Job>, now: real, s: seq<Job>, d: seq<Job>, other: seq<Job>)
    requires DistinctJobs(jobs) && NonNegative(jobs) && multiset(other) <= multiset(jobs)
    requires var o := Ordering(jobs, now, MooreHodgson);
      Reads(s, o.onTime, jobs) && Reads(d, o.demoted, jobs)
    ensures multiset(s + d) == multiset(jobs) && ByRawDeadline(s) && ByRawDeadline(d)
    ensures Feasible(s, now) && OnTime(s + d, now) == |s| && OnTime(other, now) <= |s|
  {
    var m := MooreHodgsonSchedule(jobs, now);
    ScheduleIsPermutation(jobs, now);
    PartsOf(jobs, m.accepted, m.demoted);
    ReadsOnce(s, m.accepted, jobs);
    ReadsOnce(d, m.demoted, jobs);
    MooreHodgsonOptimal(jobs, now, other);
    DemotedStayLate(jobs, now);
    OrdersArePreorders();
    SortSorts(jobs, ByDeadline);
    WalkByDeadline(Sort(jobs, ByDeadline), now);
    SortSorts(Walk(Sort(jobs, ByDeadline), now).demoted, ByDeadline);
    SortedByDeadline(s);
    SortedByDeadline(d);
  }

  lemma PartsOf(jobs: seq<Job>, a: seq<Job>, b: seq<Job>)
    requires DistinctJobs(jobs) && multiset(a + b) == multiset(jobs)
    ensures DistinctJobs(a) && DistinctJobs(b)
    ensures (forall j | j in a :: j in jobs) && (forall j | j in b :: j in jobs)
  {
    IdsMultiset(jobs, a + b);
    PermutationDistinct(Ids(jobs), Ids(a + b));
    assert Ids(a + b) == Ids(a) + Ids(b);
    forall i, j | 0 <= i < j < |b| ensures b[i].id != b[j].id {
      assert Ids(a + b)[|a| + i] == b[i].id && Ids(a + b)[|a| + j] == b[j].id;
    }
    forall i, j | 0 <= i < j < |a| ensures a[i].id != a[j].id {
      assert Ids(a + b)[i] == a[i].id && Ids(a + b)[j] == a[j].id;
    }
    SameMembers(a + b, jobs);
    assert (forall j | j in a :: j in a + b) && forall j | j in b :: j in a + b;
  }

  /** The job that is evicted: none takes longer; of those that take as long none is due later; and of those
      due then too none has a larger id. */
  lemma {:induction false} EvictsTheLongest(s: seq<Job>, job: Job)
    requires job in s
    ensures var v := s[Longest(s)];
      || job.service < v.service
      || (job.service == v.service && job.deadline < v.deadline)
      || (job.service == v.service && job.deadline == v.deadline && job.id <= v.id)
  {
    var n := |s| - 1;
    assert s == s[..n] + [s[n]];
    if n > 0 {
      if job in s[..n] {
        EvictsTheLongest(s[..n], job);
      }
    }
  }
}
