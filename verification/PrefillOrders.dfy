/** In what order a plan offers the queued requests, read off the queue. */
module PrefillOrders {
  import opened Common
  import opened Policy
  import opened PolicyOrders
  import opened PrefillState
  import opened PrefillLaws

  lemma {:induction false} JobsOfAre(s: Scheduler, ids: seq<nat>)
    requires Valid(s) && forall id | id in ids :: id in s.queue
    ensures |JobsOf(s, ids)| == |ids|
    ensures forall i | 0 <= i < |ids| :: IsJobOf(s, ids[i], JobsOf(s, ids)[i])
  {
    if ids != [] {
      JobsOfAre(s, ids[1..]);
      var first := JobsOf(s, ids[..1]);
      assert ids[..1][1..] == [];
      assert JobsOf(s, ids) == [JobsOf(s, ids)[0]] + JobsOf(s, ids[1..]);
      assert forall i | 1 <= i < |ids| :: ids[i] == ids[1..][i - 1];
    }
  }

  ghost predicate IsJobOf(s: Scheduler, id: nat, j: Job) {
    && id in s.queue && j.id == id
    && j.arrival == s.queue[id].arrival && j.deadline == s.queue[id].deadline
    && j.service == s.queue[id].Remaining() as real / Rate(s)
  }

  lemma SameJobsOf(s: Scheduler, ids: seq<nat>, all: seq<nat>)
    requires Valid(s) && (forall id | id in all :: id in s.queue) && forall id | id in ids :: id in all
    ensures Reads(JobsOf(s, ids), ids, JobsOf(s, all))
  {
    JobsOfIds(s, ids);
    JobsOfAre(s, ids);
    JobsOfAre(s, all);
    forall j | j in JobsOf(s, ids) ensures j in JobsOf(s, all) {
      var i :| 0 <= i < |ids| && JobsOf(s, ids)[i] == j;
      assert ids[i] in all;
      var k :| 0 <= k < |all| && all[k] == ids[i];
      assert JobsOf(s, all)[k] == j;
    }
  }

  lemma QueueJobs(s: Scheduler)
    requires Valid(s)
    ensures DistinctJobs(JobsOf(s, s.order)) && NonNegative(JobsOf(s, s.order))
  {
    JobsOfIds(s, s.order);
    JobsOfAre(s, s.order);
    forall j | j in JobsOf(s, s.order) ensures j.service >= 0.0 {
      var i :| 0 <= i < |s.order| && JobsOf(s, s.order)[i] == j;
      assert IsJobOf(s, s.order[i], j);
      QuotientNonNegative(s.queue[s.order[i]].Remaining() as real, Rate(s));
    }
  }

  lemma QuotientNonNegative(x: real, d: real)
    requires x >= 0.0 && d > 0.0
    ensures x / d >= 0.0
  {
  }

  /** Both parts of the ordering as jobs. */
  lemma PartsRead(s: Scheduler, now: real) returns (a: seq<Job>, b: seq<Job>)
    requires Valid(s)
    ensures var o := OrderingOf(s, now);
      && a == JobsOf(s, o.onTime) && b == JobsOf(s, o.demoted)
      && Reads(a, o.onTime, JobsOf(s, s.order)) && Reads(b, o.demoted, JobsOf(s, s.order))
      && (forall id | id in o.onTime || id in o.demoted :: id in s.queue)
  {
    var o := OrderingOf(s, now);
    OrderingCoversQueue(s, now);
    SameJobsOf(s, o.onTime, s.order);
    SameJobsOf(s, o.demoted, s.order);
    a, b := JobsOf(s, o.onTime), JobsOf(s, o.demoted);
  }

  /** The requests are in order of arrival, ties by id. */
  ghost predicate ByQueuedArrival(s: Scheduler, ids: seq<nat>)
    requires forall id | id in ids :: id in s.queue
  {
    forall i, j | 0 <= i < j < |ids| ::
      var p, q := s.queue[ids[i]], s.queue[ids[j]];
      p.arrival < q.arrival || (p.arrival == q.arrival && ids[i] < ids[j])
  }

  /** The requests are in order of deadline, ties by id. */
  ghost predicate ByQueuedDeadline(s: Scheduler, ids: seq<nat>)
    requires forall id | id in ids :: id in s.queue
  {
    forall i, j | 0 <= i < j < |ids| ::
      var p, q := s.queue[ids[i]], s.queue[ids[j]];
      p.deadline < q.deadline || (p.deadline == q.deadline && ids[i] < ids[j])
  }

  lemma DeadlinesRead(s: Scheduler, ids: seq<nat>)
    requires Valid(s) && forall id | id in ids :: id in s.queue
    requires ByRawDeadline(JobsOf(s, ids))
    ensures ByQueuedDeadline(s, ids)
  {
    JobsOfAre(s, ids);
    var jobs := JobsOf(s, ids);
    forall i, j | 0 <= i < j < |ids|
      ensures var p, q := s.queue[ids[i]], s.queue[ids[j]];
        p.deadline < q.deadline || (p.deadline == q.deadline && ids[i] < ids[j])
    {
      assert IsJobOf(s, ids[i], jobs[i]) && IsJobOf(s, ids[j], jobs[j]);
    }
  }

  lemma ArrivalsRead(s: Scheduler, ids: seq<nat>, jobs: seq<Job>)
    requires Valid(s) && (forall id | id in ids :: id in s.queue) && jobs == JobsOf(s, ids)
    requires forall i, j | 0 <= i < j < |jobs| ::
      jobs[i].arrival < jobs[j].arrival || (jobs[i].arrival == jobs[j].arrival && jobs[i].id < jobs[j].id)
    ensures ByQueuedArrival(s, ids)
  {
    JobsOfAre(s, ids);
    forall i, j | 0 <= i < j < |ids|
      ensures var p, q := s.queue[ids[i]], s.queue[ids[j]];
        p.arrival < q.arrival || (p.arrival == q.arrival && ids[i] < ids[j])
    {
      assert IsJobOf(s, ids[i], jobs[i]) && IsJobOf(s, ids[j], jobs[j]);
    }
  }

  /** First come, first served offers by arrival; the other two policies offer each part by deadline; only
      Moore-Hodgson gives anything up. */
  lemma OfferedInOrder(s: Scheduler, now: real)
    requires Valid(s)
    ensures var o := OrderingOf(s, now);
      && (forall id | id in o.onTime || id in o.demoted :: id in s.queue)
      && (if s.tuning.policy.Fcfs? then ByQueuedArrival(s, o.onTime)
          else ByQueuedDeadline(s, o.onTime) && ByQueuedDeadline(s, o.demoted))
      && (o.demoted != [] ==> s.tuning.policy.MooreHodgson?)
  {
    var o, jobs := OrderingOf(s, now), JobsOf(s, s.order);
    var a, b := PartsRead(s, now);
    QueueJobs(s);
    match s.tuning.policy
    case Fcfs =>
      FcfsByArrival(jobs, now, a);
      ArrivalsRead(s, o.onTime, a);
    case Edf =>
      EdfByDeadline(jobs, now, a);
      DeadlinesRead(s, o.onTime);
    case MooreHodgson =>
      MooreHodgsonServes(jobs, now, a, b, []);
      DeadlinesRead(s, o.onTime);
      DeadlinesRead(s, o.demoted);
  }

  /** Of the requests `ids`, computed one after another at the estimated rate behind `used` tokens, how many
      are complete by their deadline. */
  function InTime(s: Scheduler, now: real, ids: seq<nat>, used: nat): nat
    requires forall id | id in ids :: id in s.queue
  {
    if ids == [] then 0
    else
      var p := s.queue[ids[0]];
      var done := used + p.Remaining();
      (if now + done as real / Rate(s) <= p.deadline then 1 else 0) + InTime(s, now, ids[1..], done)
  }

  lemma QuotientSum(a: real, b: real, d: real)
    requires d > 0.0
    ensures (a + b) / d == a / d + b / d
  {
  }

  lemma {:induction false} InTimeIsOnTime(s: Scheduler, now: real, ids: seq<nat>, used: nat, clock: real)
    requires Valid(s) && (forall id | id in ids :: id in s.queue) && clock == now + used as real / Rate(s)
    ensures OnTime(JobsOf(s, ids), clock) == InTime(s, now, ids, used)
  {
    if ids != [] {
      var p := s.queue[ids[0]];
      QuotientSum(used as real, p.Remaining() as real, Rate(s));
      assert JobsOf(s, ids)[1..] == JobsOf(s, ids[1..]);
      InTimeIsOnTime(s, now, ids[1..], used + p.Remaining(), clock + p.Remaining() as real / Rate(s));
    }
  }

  lemma ReadMultiset(s: Scheduler, ids: seq<nat>)
    requires Valid(s) && Distinct(ids) && forall id | id in ids :: id in s.queue
    ensures multiset(JobsOf(s, ids)) <= multiset(JobsOf(s, s.order))
  {
    SameJobsOf(s, ids, s.order);
    QueueJobs(s);
    assert Ids(JobsOf(s, ids)) == ids;
    SubsetOfDistinct(JobsOf(s, ids), JobsOf(s, s.order));
  }

  lemma SubsetOfDistinct(a: seq<Job>, b: seq<Job>)
    requires Distinct(Ids(a)) && forall j | j in a :: j in b
    ensures multiset(a) <= multiset(b)
  {
    assert Distinct(a) by {
      forall i, j | 0 <= i < j < |a| ensures a[i] != a[j] {
        assert Ids(a)[i] != Ids(a)[j];
      }
    }
    DistinctCounts(a);
    forall x ensures multiset(a)[x] <= multiset(b)[x] {
      InMultiset(a, x);
      InMultiset(b, x);
    }
  }

  lemma InTimeFromNow(s: Scheduler, now: real, ids: seq<nat>)
    requires Valid(s) && forall id | id in ids :: id in s.queue
    ensures OnTime(JobsOf(s, ids), now) == InTime(s, now, ids, 0) && |JobsOf(s, ids)| == |ids|
  {
    InTimeIsOnTime(s, now, ids, 0, now);
    JobsOfAre(s, ids);
  }

  lemma KeptServes(s: Scheduler, now: real, jobs: seq<Job>)
    requires Valid(s) && s.tuning.policy.MooreHodgson? && multiset(jobs) <= multiset(JobsOf(s, s.order))
    ensures var kept := OrderingOf(s, now).onTime;
      && (forall id | id in kept :: id in s.queue)
      && OnTime(JobsOf(s, kept), now) == |JobsOf(s, kept)| && OnTime(jobs, now) <= |JobsOf(s, kept)|
  {
    var a, b := PartsRead(s, now);
    QueueJobs(s);
    MooreHodgsonServes(JobsOf(s, s.order), now, a, b, jobs);
    FeasibleIsOnTime(a, now);
  }

  /** Moore-Hodgson gives up as few queued requests as it can: all it keeps are in time by the estimates,
      and whichever requests are computed in whatever order, no more of them are. */
  lemma GivesUpFewest(s: Scheduler, now: real, other: seq<nat>)
    requires Valid(s) && s.tuning.policy.MooreHodgson?
    requires Distinct(other) && forall id | id in other :: id in s.queue
    ensures var kept := OrderingOf(s, now).onTime;
      && (forall id | id in kept :: id in s.queue)
      && InTime(s, now, kept, 0) == |kept| && InTime(s, now, other, 0) <= |kept|
  {
    ReadMultiset(s, other);
    KeptServes(s, now, JobsOf(s, other));
    InTimeFromNow(s, now, OrderingOf(s, now).onTime);
    InTimeFromNow(s, now, other);
  }

  /** Whom a plan records as given up. Unless given-up requests are to be served behind the others, or under
      another policy, nobody; else those without whom all others can be in time, and no fewer would do. */
  lemma RecordsTheGivenUp(s: Scheduler, now: real, other: seq<nat>) returns (kept: seq<nat>)
    requires Valid(s) && s.queue != map[] && Distinct(other) && forall id | id in other :: id in s.queue
    ensures var t := AfterPlan(s, now);
      && t == s.(demoted := t.demoted)
      && (!s.tuning.demoteHopeless || !s.tuning.policy.MooreHodgson? ==> t.demoted == {})
      && (s.tuning.demoteHopeless && s.tuning.policy.MooreHodgson? ==>
            && Distinct(kept) && (forall id :: id in kept <==> id in s.queue && id !in t.demoted)
            && InTime(s, now, kept, 0) == |kept| && InTime(s, now, other, 0) <= |kept|)
  {
    var o := OrderingOf(s, now);
    kept := o.onTime;
    OfferedInOrder(s, now);
    if s.tuning.demoteHopeless && s.tuning.policy.MooreHodgson? {
      OrderingCoversQueue(s, now);
      GivesUpFewest(s, now, other);
      Apart(o.onTime, o.demoted);
    }
  }

  lemma Apart(a: seq<nat>, b: seq<nat>)
    requires Distinct(a + b)
    ensures Distinct(a) && forall x | x in a :: x !in b
  {
    var all := a + b;
    forall i, j | 0 <= i < |a| && 0 <= j < |b| ensures a[i] != b[j] {
      assert all[i] == a[i] && all[|a| + j] == b[j];
    }
    forall i, j | 0 <= i < j < |a| ensures a[i] != a[j] {
      assert all[i] == a[i] && all[j] == a[j];
    }
  }
}
