/** Which requests a planned batch holds, and how much of each, read off the batch itself. */
module PrefillPicks {
  import opened Common
  import opened Policy
  import opened PrefillState
  import opened PrefillLaws

  ghost predicate Has(cs: seq<Chunk>, id: nat) { exists c :: c in cs && c.id == id }

  /** The chunks for requests among `ids`, in the order of the batch. */
  function Ahead(cs: seq<Chunk>, ids: seq<nat>): seq<Chunk> {
    if cs == [] then []
    else
      var n := |cs| - 1;
      Ahead(cs[..n], ids) + (if cs[n].id in ids then [cs[n]] else [])
  }

  /** Behind `ahead` there is room, in both budgets, for a request that has tokens left. */
  predicate Wanted(s: Scheduler, ahead: seq<Chunk>, id: nat) {
    && id in s.queue && s.queue[id].Remaining() > 0
    && |ahead| < s.tuning.maxSeqs && Tokens(ahead) < s.tuning.chunkTokens
  }

  /** What it then takes: all that is left of it, or of the token budget. */
  function Share(s: Scheduler, ahead: seq<Chunk>, p: Pending): nat {
    MinNat(p.Remaining(), SatSub(s.tuning.chunkTokens, Tokens(ahead)))
  }

  /** With it the batch would finish after the deadline of one that still counts: a request of `primary`
      that is in the batch or is this one. */
  ghost predicate TooLate(s: Scheduler, now: real, ahead: seq<Chunk>, primary: seq<nat>, id: nat)
    requires id in s.queue
  {
    && ahead != []
    && exists x | x in primary && x in s.queue && (x == id || Has(ahead, x)) ::
      now + (Tokens(ahead) + Share(s, ahead, s.queue[id])) as real / Rate(s) > s.queue[x].deadline
  }

  /** The `k`-th request offered is wanted but refused for lateness. */
  ghost predicate Refused(
    s: Scheduler, now: real, ids: seq<nat>, primary: seq<nat>, cs: seq<Chunk>, k: nat)
    requires k < |ids|
  {
    var ahead := Ahead(cs, ids[..k]);
    Wanted(s, ahead, ids[k]) && TooLate(s, now, ahead, primary, ids[k])
  }

  /** A given-up request that is refused ends the pass over them. */
  ghost predicate Stops(
    s: Scheduler, now: real, ids: seq<nat>, primary: seq<nat>, cs: seq<Chunk>, k: nat)
    requires k < |ids|
  {
    ids[k] !in primary && Refused(s, now, ids, primary, cs, k)
  }

  /** None of the first `k` has ended it. */
  ghost predicate Running(
    s: Scheduler, now: real, ids: seq<nat>, primary: seq<nat>, cs: seq<Chunk>, k: nat)
    requires k <= |ids|
  {
    forall j: nat | j < k :: !Stops(s, now, ids, primary, cs, j)
  }

  ghost predicate Taken(
    s: Scheduler, now: real, ids: seq<nat>, primary: seq<nat>, cs: seq<Chunk>, k: nat)
    requires k < |ids|
  {
    && Wanted(s, Ahead(cs, ids[..k]), ids[k])
    && !Refused(s, now, ids, primary, cs, k)
    && (ids[k] in primary || Running(s, now, ids, primary, cs, k))
  }

  /** The `k`-th request offered stands behind the chunks of those before it with its whole share, if it
      is taken; otherwise it has no chunk. */
  ghost predicate Settles(
    s: Scheduler, now: real, ids: seq<nat>, primary: seq<nat>, cs: seq<Chunk>, k: nat)
    requires k < |ids|
  {
    var ahead := Ahead(cs, ids[..k]);
    if Taken(s, now, ids, primary, cs, k) then
      var p := s.queue[ids[k]];
      var n := Share(s, ahead, p);
      |ahead| < |cs| && cs[|ahead|] == Chunk(ids[k], p.done, n, n == p.Remaining())
    else !Has(cs, ids[k])
  }

  /** Of the first `m` requests offered, the batch holds exactly those that are taken; `limited` records
      whether any was refused. */
  ghost predicate Assembled(
    s: Scheduler, now: real, ids: seq<nat>, primary: seq<nat>, m: nat, cs: seq<Chunk>, limited: bool)
    requires m <= |ids|
  {
    && (forall c | c in cs :: c.id in ids[..m])
    && (forall k: nat | k < m :: Settles(s, now, ids, primary, cs, k))
    && (limited <==> exists k: nat :: k < m && Refused(s, now, ids, primary, cs, k))
  }

  // ---------------------------------------------------------------- prefixes

  lemma {:induction false} AheadAll(cs: seq<Chunk>, ids: seq<nat>)
    requires forall c | c in cs :: c.id in ids
    ensures Ahead(cs, ids) == cs
  {
    if cs != [] {
      var n := |cs| - 1;
      assert cs == cs[..n] + [cs[n]];
      AheadAll(cs[..n], ids);
    }
  }

  lemma AheadMore(cs: seq<Chunk>, c: Chunk, ids: seq<nat>)
    requires c.id !in ids
    ensures Ahead(cs + [c], ids) == Ahead(cs, ids)
  {
    assert (cs + [c])[..|cs|] == cs;
  }

  lemma NotBefore(ids: seq<nat>, j: nat, k: nat)
    requires Distinct(ids) && j <= k < |ids|
    ensures ids[k] !in ids[..j]
  {
  }

  /** What holds of a request does not change when later ones join the batch. */
  lemma EarlierSame(
      s: Scheduler, now: real, ids: seq<nat>, primary: seq<nat>, cs: seq<Chunk>, c: Chunk, k: nat, j: nat)
    requires Distinct(ids) && j <= k < |ids| && c.id == ids[k]
    ensures Refused(s, now, ids, primary, cs + [c], j) <==> Refused(s, now, ids, primary, cs, j)
    ensures Ahead(cs + [c], ids[..j]) == Ahead(cs, ids[..j])
  {
    NotBefore(ids, j, k);
    AheadMore(cs, c, ids[..j]);
  }

  lemma TakenSame(
      s: Scheduler, now: real, ids: seq<nat>, primary: seq<nat>, cs: seq<Chunk>, c: Chunk, k: nat, j: nat)
    requires Distinct(ids) && j <= k < |ids| && c.id == ids[k]
    ensures Taken(s, now, ids, primary, cs + [c], j) <==> Taken(s, now, ids, primary, cs, j)
  {
    EarlierSame(s, now, ids, primary, cs, c, k, j);
    RunningSame(s, now, ids, primary, cs, c, k, j);
  }

  lemma RunningSame(
      s: Scheduler, now: real, ids: seq<nat>, primary: seq<nat>, cs: seq<Chunk>, c: Chunk, k: nat, j: nat)
    requires Distinct(ids) && j <= k < |ids| && c.id == ids[k]
    ensures Running(s, now, ids, primary, cs + [c], j) <==> Running(s, now, ids, primary, cs, j)
  {
    forall i: nat | i < j
      ensures Stops(s, now, ids, primary, cs + [c], i) <==> Stops(s, now, ids, primary, cs, i)
    {
      EarlierSame(s, now, ids, primary, cs, c, k, i);
    }
  }

  lemma SettlesSame(
      s: Scheduler, now: real, ids: seq<nat>, primary: seq<nat>, cs: seq<Chunk>, c: Chunk, k: nat, j: nat)
    requires Distinct(ids) && j < k < |ids| && c.id == ids[k] && Settles(s, now, ids, primary, cs, j)
    ensures Settles(s, now, ids, primary, cs + [c], j)
  {
    EarlierSame(s, now, ids, primary, cs, c, k, j);
    TakenSame(s, now, ids, primary, cs, c, k, j);
    assert ids[j] != ids[k];
  }

  // ---------------------------------------------------------------- one offer

  /** The earliest deadline among the members that still count. */
  ghost predicate BindingIs(s: Scheduler, d: Draft, primary: seq<nat>) {
    && (forall c | c in d.chunks && c.id in primary ::
          c.id in s.queue && d.binding.At? && d.binding.ms <= s.queue[c.id].deadline)
    && (d.binding.At? ==> exists c | c in d.chunks && c.id in primary && c.id in s.queue ::
          s.queue[c.id].deadline == d.binding.ms)
  }

  ghost predicate DraftOk(
    s: Scheduler, now: real, ids: seq<nat>, primary: seq<nat>, k: nat, d: Draft)
    requires k <= |ids|
  {
    && Assembled(s, now, ids, primary, k, d.chunks, d.limited)
    && d.total == Tokens(d.chunks) && BindingIs(s, d, primary)
  }

  /** The finish time that decides whether `id` is too late. */
  function FinishWith(s: Scheduler, now: real, ahead: seq<Chunk>, p: Pending): real {
    now + (Tokens(ahead) + Share(s, ahead, p)) as real / Rate(s)
  }

  /** The test against the binding deadline is the test against every deadline that counts. */
  lemma LateIff(s: Scheduler, now: real, d: Draft, primary: seq<nat>, id: nat, finish: real)
    requires BindingIs(s, d, primary) && d.chunks != [] && id in s.queue
    requires finish == FinishWith(s, now, d.chunks, s.queue[id])
    ensures TooLate(s, now, d.chunks, primary, id) <==>
      !(if id in primary then d.binding.Tighten(s.queue[id].deadline) else d.binding).Allows(finish)
  {
    if !d.binding.Allows(finish) {
      var c :| c in d.chunks && c.id in primary && c.id in s.queue && s.queue[c.id].deadline == d.binding.ms;
      assert Has(d.chunks, c.id);
    }
  }

  function ChunkOf(s: Scheduler, ahead: seq<Chunk>, id: nat): Chunk
    requires id in s.queue
  {
    var p := s.queue[id];
    var n := Share(s, ahead, p);
    Chunk(id, p.done, n, n == p.Remaining())
  }

  lemma TakeNext(
      s: Scheduler, now: real, ids: seq<nat>, primary: seq<nat>, k: nat, cs: seq<Chunk>, limited: bool,
      c: Chunk, next: seq<Chunk>)
    requires Distinct(ids) && k < |ids| && Assembled(s, now, ids, primary, k, cs, limited)
    requires Taken(s, now, ids, primary, cs, k) && ids[k] in s.queue && c == ChunkOf(s, cs, ids[k])
    requires next == cs + [c]
    ensures Assembled(s, now, ids, primary, k + 1, next, limited)
    ensures !Refused(s, now, ids, primary, next, k)
  {
    AllSettle(s, now, ids, primary, k, cs, c);
    SameRefusals(s, now, ids, primary, k, cs, c);
    forall x | x in next ensures x.id in ids[..k + 1] {
      assert x == c || x.id in ids[..k];
      assert ids[..k + 1] == ids[..k] + [ids[k]];
    }
  }

  lemma AllSettle(
      s: Scheduler, now: real, ids: seq<nat>, primary: seq<nat>, k: nat, cs: seq<Chunk>, c: Chunk)
    requires Distinct(ids) && k < |ids| && forall x | x in cs :: x.id in ids[..k]
    requires forall j: nat | j < k :: Settles(s, now, ids, primary, cs, j)
    requires Taken(s, now, ids, primary, cs, k) && ids[k] in s.queue && c == ChunkOf(s, cs, ids[k])
    ensures forall j: nat | j < k + 1 :: Settles(s, now, ids, primary, cs + [c], j)
  {
    LastSettles(s, now, ids, primary, k, cs, c);
    var next := cs + [c];
    forall j: nat | j < k + 1 ensures Settles(s, now, ids, primary, next, j) {
      if j < k {
        SettlesSame(s, now, ids, primary, cs, c, k, j);
      }
    }
  }

  lemma SameRefusals(
      s: Scheduler, now: real, ids: seq<nat>, primary: seq<nat>, k: nat, cs: seq<Chunk>, c: Chunk)
    requires Distinct(ids) && k < |ids| && c.id == ids[k]
    ensures forall j: nat | j < k + 1 ::
      Refused(s, now, ids, primary, cs + [c], j) <==> Refused(s, now, ids, primary, cs, j)
  {
    var next := cs + [c];
    forall j: nat | j < k + 1
      ensures Refused(s, now, ids, primary, next, j) <==> Refused(s, now, ids, primary, cs, j)
    {
      EarlierSame(s, now, ids, primary, cs, c, k, j);
    }
  }

  lemma LastSettles(
      s: Scheduler, now: real, ids: seq<nat>, primary: seq<nat>, k: nat, cs: seq<Chunk>, c: Chunk)
    requires Distinct(ids) && k < |ids| && forall x | x in cs :: x.id in ids[..k]
    requires Taken(s, now, ids, primary, cs, k) && ids[k] in s.queue && c == ChunkOf(s, cs, ids[k])
    ensures Settles(s, now, ids, primary, cs + [c], k)
  {
    AheadAll(cs, ids[..k]);
    EarlierSame(s, now, ids, primary, cs, c, k, k);
    TakenSame(s, now, ids, primary, cs, c, k, k);
  }

  lemma NewId(ids: seq<nat>, k: nat, j: nat, cs: seq<Chunk>)
    requires Distinct(ids) && k <= j < |ids| && forall c | c in cs :: c.id in ids[..k]
    ensures !Has(cs, ids[j]) && Ahead(cs, ids[..j]) == cs
  {
    assert forall c | c in cs :: c.id in ids[..j];
    AheadAll(cs, ids[..j]);
  }

  lemma SkipNext(
      s: Scheduler, now: real, ids: seq<nat>, primary: seq<nat>, k: nat, cs: seq<Chunk>, limited: bool)
    requires Distinct(ids) && k < |ids| && Assembled(s, now, ids, primary, k, cs, limited)
    requires !Taken(s, now, ids, primary, cs, k)
    ensures Assembled(
      s, now, ids, primary, k + 1, cs, limited || Refused(s, now, ids, primary, cs, k))
  {
    NewId(ids, k, k, cs);
  }

  lemma OfferSkips(s: Scheduler, now: real, second: bool, id: nat, d: Draft)
    requires !Wanted(s, d.chunks, id) && !Full(s, d) && d.total == Tokens(d.chunks)
    ensures Offer(s, now, second, id, d) == Some(d)
  {
  }

  lemma OfferRefuses(s: Scheduler, now: real, primary: seq<nat>, id: nat, d: Draft)
    requires Wanted(s, d.chunks, id) && TooLate(s, now, d.chunks, primary, id)
    requires d.total == Tokens(d.chunks) && BindingIs(s, d, primary)
    ensures Offer(s, now, id !in primary, id, d) ==
      if id in primary then Some(d.(limited := true)) else None
  {
    LateIff(s, now, d, primary, id, FinishWith(s, now, d.chunks, s.queue[id]));
  }

  lemma OfferTakes(s: Scheduler, now: real, primary: seq<nat>, id: nat, d: Draft) returns (binding: Deadline)
    requires Wanted(s, d.chunks, id) && !TooLate(s, now, d.chunks, primary, id)
    requires d.total == Tokens(d.chunks) && BindingIs(s, d, primary)
    ensures binding == if id in primary then d.binding.Tighten(s.queue[id].deadline) else d.binding
    ensures var c := ChunkOf(s, d.chunks, id);
      Offer(s, now, id !in primary, id, d)
        == Some(Draft(d.chunks + [c], d.total + c.tokens, d.limited, binding))
  {
    binding := if id in primary then d.binding.Tighten(s.queue[id].deadline) else d.binding;
    if d.chunks != [] {
      LateIff(s, now, d, primary, id, FinishWith(s, now, d.chunks, s.queue[id]));
    }
  }

  /** What one offer makes of the draft. */
  lemma OfferAssembles(
      s: Scheduler, now: real, ids: seq<nat>, primary: seq<nat>, k: nat, d: Draft, id: nat,
      o: Option<Draft>)
    requires Distinct(ids) && k < |ids| && DraftOk(s, now, ids, primary, k, d) && !Full(s, d)
    requires Running(s, now, ids, primary, d.chunks, k)
    requires id == ids[k] && o == Offer(s, now, id !in primary, id, d)
    ensures o.None? ==> (
      && id !in primary && Refused(s, now, ids, primary, d.chunks, k)
      && Assembled(s, now, ids, primary, k + 1, d.chunks, true))
    ensures o.Some? ==> (
      && DraftOk(s, now, ids, primary, k + 1, o.value)
      && (id !in primary ==> !Refused(s, now, ids, primary, o.value.chunks, k)))
  {
    NewId(ids, k, k, d.chunks);
    if !Wanted(s, d.chunks, id) {
      OfferSkips(s, now, id !in primary, id, d);
      SkipNext(s, now, ids, primary, k, d.chunks, d.limited);
    } else if TooLate(s, now, d.chunks, primary, id) {
      OfferRefuses(s, now, primary, id, d);
      SkipNext(s, now, ids, primary, k, d.chunks, d.limited);
    } else {
      var binding := OfferTakes(s, now, primary, id, d);
      JoinsOk(s, now, ids, primary, k, d, ChunkOf(s, d.chunks, id), o.value);
    }
  }

  lemma JoinsOk(
      s: Scheduler, now: real, ids: seq<nat>, primary: seq<nat>, k: nat, d: Draft, c: Chunk, next: Draft)
    requires Distinct(ids) && k < |ids| && Assembled(s, now, ids, primary, k, d.chunks, d.limited)
    requires d.total == Tokens(d.chunks) && BindingIs(s, d, primary)
    requires Taken(s, now, ids, primary, d.chunks, k)
    requires ids[k] in s.queue && c == ChunkOf(s, d.chunks, ids[k]) && next.limited == d.limited
    requires next.chunks == d.chunks + [c] && next.total == d.total + c.tokens
    requires next.binding ==
      if c.id in primary then d.binding.Tighten(s.queue[c.id].deadline) else d.binding
    ensures DraftOk(s, now, ids, primary, k + 1, next) && !Refused(s, now, ids, primary, next.chunks, k)
  {
    TakeNext(s, now, ids, primary, k, d.chunks, next.limited, c, next.chunks);
    JoinsCounted(s, d, c, primary, next);
  }

  lemma JoinsCounted(s: Scheduler, d: Draft, c: Chunk, primary: seq<nat>, next: Draft)
    requires BindingIs(s, d, primary) && d.total == Tokens(d.chunks) && c.id in s.queue
    requires next.chunks == d.chunks + [c] && next.total == d.total + c.tokens
    requires next.binding ==
      if c.id in primary then d.binding.Tighten(s.queue[c.id].deadline) else d.binding
    ensures BindingIs(s, next, primary) && next.total == Tokens(next.chunks)
  {
    TokensAppend(d.chunks, c);
    BindingNext(s, d, c, primary, next);
  }

  lemma BindingNext(s: Scheduler, d: Draft, c: Chunk, primary: seq<nat>, next: Draft)
    requires BindingIs(s, d, primary) && c.id in s.queue && next.chunks == d.chunks + [c]
    requires next.binding ==
      if c.id in primary then d.binding.Tighten(s.queue[c.id].deadline) else d.binding
    ensures BindingIs(s, next, primary)
  {
    if next.binding.At? {
      if d.binding.At? && next.binding == d.binding {
        var x :| x in d.chunks && x.id in primary && x.id in s.queue
          && s.queue[x.id].deadline == d.binding.ms;
        assert x in next.chunks;
      } else {
        assert c in next.chunks;
      }
    }
  }

  // --------------------------------------------------------------- both passes

  /** Once a budget is used up nothing more is wanted. */
  lemma FullSettles(
      s: Scheduler, now: real, ids: seq<nat>, primary: seq<nat>, k: nat, m: nat, d: Draft)
    requires Distinct(ids) && k <= m <= |ids| && DraftOk(s, now, ids, primary, k, d) && Full(s, d)
    ensures DraftOk(s, now, ids, primary, m, d)
  {
    forall j: nat | k <= j < m
      ensures Settles(s, now, ids, primary, d.chunks, j) && !Refused(s, now, ids, primary, d.chunks, j)
    {
      NewId(ids, k, j, d.chunks);
    }
    forall c | c in d.chunks ensures c.id in ids[..m] {
      assert c.id in ids[..k];
    }
  }

  /** Once a given-up request is refused no further one is taken. */
  lemma StopSettles(
      s: Scheduler, now: real, ids: seq<nat>, primary: seq<nat>, k: nat, m: nat, cs: seq<Chunk>)
    requires Distinct(ids) && k < m <= |ids| && Assembled(s, now, ids, primary, k + 1, cs, true)
    requires Stops(s, now, ids, primary, cs, k) && OnePass(ids, primary, true, k, m)
    requires forall c | c in cs :: c.id in ids[..k]
    ensures Assembled(s, now, ids, primary, m, cs, true)
  {
    forall j: nat | j < m ensures Settles(s, now, ids, primary, cs, j) {
      if j > k {
        StoppedSettles(s, now, ids, primary, k, j, cs);
      }
    }
    forall c | c in cs ensures c.id in ids[..m] {
      assert c.id in ids[..k];
    }
  }

  lemma StoppedSettles(
      s: Scheduler, now: real, ids: seq<nat>, primary: seq<nat>, k: nat, j: nat, cs: seq<Chunk>)
    requires Distinct(ids) && k < j < |ids| && ids[j] !in primary
    requires Stops(s, now, ids, primary, cs, k) && forall c | c in cs :: c.id in ids[..k]
    ensures Settles(s, now, ids, primary, cs, j)
  {
    NewId(ids, k, j, cs);
    assert !Running(s, now, ids, primary, cs, j);
  }

  ghost predicate Joined(cs: seq<Chunk>, next: seq<Chunk>, id: nat) {
    |next| == |cs| + 1 && next[..|cs|] == cs && next[|cs|].id == id
  }

  lemma RunningNext(
      s: Scheduler, now: real, ids: seq<nat>, primary: seq<nat>, cs: seq<Chunk>, next: seq<Chunk>, k: nat)
    requires Distinct(ids) && k < |ids| && Running(s, now, ids, primary, cs, k)
    requires next == cs || Joined(cs, next, ids[k])
    requires !Stops(s, now, ids, primary, next, k)
    ensures Running(s, now, ids, primary, next, k + 1)
  {
    if next != cs {
      var c := next[|cs|];
      assert next == cs + [c];
      RunningSame(s, now, ids, primary, cs, c, k, k);
    }
  }

  lemma OfferGrows(s: Scheduler, now: real, second: bool, id: nat, d: Draft, next: Draft)
    requires Offer(s, now, second, id, d) == Some(next)
    ensures next.chunks == d.chunks || Joined(d.chunks, next.chunks, id)
  {
  }

  /** A pass over the requests from the `k`-th up to the `m`-th. */
  lemma {:induction false} FillAssembles(
      s: Scheduler, now: real, ids: seq<nat>, primary: seq<nat>, second: bool, k: nat, m: nat, d: Draft)
    requires Distinct(ids) && k <= m <= |ids| && DraftOk(s, now, ids, primary, k, d)
    requires OnePass(ids, primary, second, k, m) && Running(s, now, ids, primary, d.chunks, k)
    ensures DraftOk(s, now, ids, primary, m, Fill(s, now, second, ids[k..m], d))
    ensures !second ==> Running(s, now, ids, primary, Fill(s, now, second, ids[k..m], d).chunks, m)
    decreases m - k
  {
    if k < m {
      if Full(s, d) {
        FullSettles(s, now, ids, primary, k, m, d);
        FullRuns(s, now, ids, primary, k, m, d);
      } else {
        var next := NextDraft(s, now, ids, primary, second, k, m, d);
        if next.Some? {
          FillAssembles(s, now, ids, primary, second, k + 1, m, next.value);
        }
      }
    }
  }

  /** All of them are of the same pass. */
  ghost predicate OnePass(ids: seq<nat>, primary: seq<nat>, second: bool, k: nat, m: nat) {
    m <= |ids| && forall j: nat | k <= j < m :: ids[j] in primary <==> !second
  }

  lemma NextDraft(
      s: Scheduler, now: real, ids: seq<nat>, primary: seq<nat>, second: bool, k: nat, m: nat, d: Draft)
    returns (next: Option<Draft>)
    requires Distinct(ids) && k < m <= |ids| && DraftOk(s, now, ids, primary, k, d) && !Full(s, d)
    requires OnePass(ids, primary, second, k, m) && Running(s, now, ids, primary, d.chunks, k)
    ensures OnePass(ids, primary, second, k + 1, m)
    ensures next.Some? ==> (
      && DraftOk(s, now, ids, primary, k + 1, next.value)
      && Running(s, now, ids, primary, next.value.chunks, k + 1)
      && Fill(s, now, second, ids[k..m], d) == Fill(s, now, second, ids[k + 1..m], next.value))
    ensures next.None? ==> (
      && second && Fill(s, now, second, ids[k..m], d) == d.(limited := true)
      && DraftOk(s, now, ids, primary, m, d.(limited := true)))
  {
    next := Offer(s, now, second, ids[k], d);
    OfferAssembles(s, now, ids, primary, k, d, ids[k], next);
    assert ids[k..m][1..] == ids[k + 1..m];
    if next.Some? {
      OfferGrows(s, now, second, ids[k], d, next.value);
      RunningNext(s, now, ids, primary, d.chunks, next.value.chunks, k);
    } else {
      StopSettles(s, now, ids, primary, k, m, d.chunks);
    }
  }

  lemma FullRuns(s: Scheduler, now: real, ids: seq<nat>, primary: seq<nat>, k: nat, m: nat, d: Draft)
    requires Distinct(ids) && k <= m <= |ids| && Full(s, d) && d.total == Tokens(d.chunks)
    requires forall c | c in d.chunks :: c.id in ids[..k]
    requires Running(s, now, ids, primary, d.chunks, k)
    ensures Running(s, now, ids, primary, d.chunks, m)
  {
    forall j: nat | k <= j < m ensures !Refused(s, now, ids, primary, d.chunks, j) {
      NewId(ids, k, j, d.chunks);
    }
  }

  // ------------------------------------------------------------- main theorems

  lemma EmptyAssembled(s: Scheduler, now: real, ids: seq<nat>, primary: seq<nat>)
    ensures DraftOk(s, now, ids, primary, 0, EMPTY_DRAFT) && Running(s, now, ids, primary, [], 0)
  {
  }

  lemma TwoPasses(a: seq<nat>, b: seq<nat>)
    requires Distinct(a) && Distinct(b) && forall x | x in b :: x !in a
    ensures var ids := a + b;
      && Distinct(ids) && ids[0..|a|] == a && ids[|a|..|ids|] == b
      && OnePass(ids, a, false, 0, |a|) && OnePass(ids, a, true, |a|, |ids|)
  {
    var ids := a + b;
    forall j: nat | |a| <= j < |ids| ensures ids[j] !in a {
      assert ids[j] == b[j - |a|] && b[j - |a|] in b;
    }
  }

  lemma Passes(s: Scheduler, now: real)
    requires Valid(s)
    ensures var a, b := OrderingOf(s, now).onTime, Secondary(s, now);
      Distinct(a) && Distinct(b) && forall x | x in b :: x !in a
  {
    OrderingCoversQueue(s, now);
    SplitDistinct(OrderingOf(s, now).onTime, OrderingOf(s, now).demoted);
  }

  /** The planned batch holds exactly the requests that are taken, each with its whole share, and is marked
      limited exactly when one was refused for lateness. */
  lemma PlanAssembles(s: Scheduler, now: real)
    requires Valid(s)
    ensures var b, ids := PlanBatch(s, now), Offered(s, now);
      && Assembled(s, now, ids, OrderingOf(s, now).onTime, |ids|, b.chunks, b.deadlineLimited)
      && DistinctIds(b.chunks) && b.total == Tokens(b.chunks) && b.estService == b.total as real / Rate(s)
  {
    PlanIsFeasible(s, now);
    var ids, primary := Offered(s, now), OrderingOf(s, now).onTime;
    Passes(s, now);
    TwoPasses(primary, Secondary(s, now));
    if s.queue == map[] {
      EmptyQueue(s, now, ids, primary);
    } else {
      EmptyAssembled(s, now, ids, primary);
      FillAssembles(s, now, ids, primary, false, 0, |primary|, EMPTY_DRAFT);
      FillAssembles(s, now, ids, primary, true, |primary|, |ids|, FirstPass(s, now));
    }
  }

  lemma EmptyQueue(s: Scheduler, now: real, ids: seq<nat>, primary: seq<nat>)
    requires s.queue == map[]
    ensures Assembled(s, now, ids, primary, |ids|, [], false)
  {
    forall j: nat | j < |ids|
      ensures Settles(s, now, ids, primary, [], j) && !Refused(s, now, ids, primary, [], j)
    {
      assert !Wanted(s, Ahead([], ids[..j]), ids[j]);
    }
  }

  // --------------------------------------------------------------- uniqueness

  /** The first `n` chunks are those of requests among `ids`. */
  ghost predicate SplitAt(cs: seq<Chunk>, ids: seq<nat>, n: nat) {
    && n <= |cs|
    && (forall i | 0 <= i < n :: cs[i].id in ids)
    && (forall i | n <= i < |cs| :: cs[i].id !in ids)
  }

  lemma {:induction false} AheadOfSplit(cs: seq<Chunk>, ids: seq<nat>, n: nat)
    requires SplitAt(cs, ids, n)
    ensures Ahead(cs, ids) == cs[..n]
  {
    if cs != [] {
      var k := |cs| - 1;
      if n <= k {
        AheadOfSplit(cs[..k], ids, n);
        assert cs[..k][..n] == cs[..n];
      } else {
        AheadOfSplit(cs[..k], ids, k);
        assert cs[..k][..k] + [cs[k]] == cs[..n];
      }
    }
  }

  lemma SplitNext(
      s: Scheduler, now: real, ids: seq<nat>, primary: seq<nat>, cs: seq<Chunk>, k: nat, n: nat)
    returns (m: nat)
    requires k < |ids| && DistinctIds(cs) && SplitAt(cs, ids[..k], n)
    requires Settles(s, now, ids, primary, cs, k)
    ensures m == (if Taken(s, now, ids, primary, cs, k) then n + 1 else n) && SplitAt(cs, ids[..k + 1], m)
    ensures m == n + 1 ==> ids[k] in s.queue && cs[n] == ChunkOf(s, cs[..n], ids[k])
  {
    AheadOfSplit(cs, ids[..k], n);
    assert ids[..k + 1] == ids[..k] + [ids[k]];
    if Taken(s, now, ids, primary, cs, k) {
      m := n + 1;
      forall i | m <= i < |cs| ensures cs[i].id !in ids[..k + 1] {
        assert cs[i].id != cs[n].id;
      }
    } else {
      m := n;
      forall i | n <= i < |cs| ensures cs[i].id !in ids[..k + 1] {
        assert cs[i] in cs;
      }
    }
  }

  lemma {:induction false} Splits(
      s: Scheduler, now: real, ids: seq<nat>, primary: seq<nat>, cs: seq<Chunk>, k: nat)
    returns (n: nat)
    requires k <= |ids| && DistinctIds(cs)
    requires forall j: nat | j < k :: Settles(s, now, ids, primary, cs, j)
    ensures SplitAt(cs, ids[..k], n) && Ahead(cs, ids[..k]) == cs[..n]
  {
    if k == 0 {
      n := 0;
    } else {
      n := Splits(s, now, ids, primary, cs, k - 1);
      n := SplitNext(s, now, ids, primary, cs, k - 1, n);
    }
    AheadOfSplit(cs, ids[..k], n);
  }

  /** The requests before each one are served alike. */
  ghost predicate SameAhead(ids: seq<nat>, cs: seq<Chunk>, ct: seq<Chunk>, k: nat) {
    k <= |ids| && forall j: nat | j <= k :: AlikeAt(ids, cs, ct, j)
  }

  ghost predicate AlikeAt(ids: seq<nat>, cs: seq<Chunk>, ct: seq<Chunk>, j: nat) {
    j <= |ids| && Ahead(cs, ids[..j]) == Ahead(ct, ids[..j])
  }

  lemma SameTaken(
      s: Scheduler, now: real, ids: seq<nat>, primary: seq<nat>, cs: seq<Chunk>, ct: seq<Chunk>, k: nat)
    requires k < |ids| && SameAhead(ids, cs, ct, k)
    ensures Taken(s, now, ids, primary, cs, k) <==> Taken(s, now, ids, primary, ct, k)
    ensures Refused(s, now, ids, primary, cs, k) <==> Refused(s, now, ids, primary, ct, k)
  {
    assert AlikeAt(ids, cs, ct, k);
    forall j: nat | j < k
      ensures Stops(s, now, ids, primary, cs, j) <==> Stops(s, now, ids, primary, ct, j)
    {
      assert AlikeAt(ids, cs, ct, j);
    }
  }

  lemma {:induction false} AllAlike(
      s: Scheduler, now: real, ids: seq<nat>, primary: seq<nat>, cs: seq<Chunk>, ct: seq<Chunk>, k: nat)
    requires k <= |ids| && DistinctIds(cs) && DistinctIds(ct)
    requires forall j: nat | j < k :: Settles(s, now, ids, primary, cs, j)
    requires forall j: nat | j < k :: Settles(s, now, ids, primary, ct, j)
    ensures SameAhead(ids, cs, ct, k)
  {
    if k == 0 {
      AheadOfSplit(cs, ids[..0], 0);
      AheadOfSplit(ct, ids[..0], 0);
    } else {
      AllAlike(s, now, ids, primary, cs, ct, k - 1);
      AlikeNext(s, now, ids, primary, cs, ct, k - 1);
    }
  }

  lemma AlikeNext(
      s: Scheduler, now: real, ids: seq<nat>, primary: seq<nat>, cs: seq<Chunk>, ct: seq<Chunk>, k: nat)
    requires k < |ids| && DistinctIds(cs) && DistinctIds(ct) && SameAhead(ids, cs, ct, k)
    requires forall j: nat | j <= k :: Settles(s, now, ids, primary, cs, j)
    requires forall j: nat | j <= k :: Settles(s, now, ids, primary, ct, j)
    ensures AlikeAt(ids, cs, ct, k + 1)
  {
    var n := Splits(s, now, ids, primary, cs, k);
    var m := Splits(s, now, ids, primary, ct, k);
    assert AlikeAt(ids, cs, ct, k);
    assert n == |cs[..n]| == |ct[..m]| == m;
    SameTaken(s, now, ids, primary, cs, ct, k);
    var n' := SplitNext(s, now, ids, primary, cs, k, n);
    var m' := SplitNext(s, now, ids, primary, ct, k, m);
    AheadOfSplit(cs, ids[..k + 1], n');
    AheadOfSplit(ct, ids[..k + 1], m');
  }

  /** Only one list of chunks is assembled from the requests offered. */
  lemma AssembledOnce(
      s: Scheduler, now: real, ids: seq<nat>, primary: seq<nat>, cs: seq<Chunk>, limited: bool,
      ct: seq<Chunk>, limited': bool)
    requires Assembled(s, now, ids, primary, |ids|, cs, limited) && DistinctIds(cs)
    requires Assembled(s, now, ids, primary, |ids|, ct, limited') && DistinctIds(ct)
    ensures cs == ct && limited == limited'
  {
    AllAlike(s, now, ids, primary, cs, ct, |ids|);
    assert AlikeAt(ids, cs, ct, |ids|);
    assert ids[..|ids|] == ids;
    AheadAll(cs, ids);
    AheadAll(ct, ids);
  }

  /** A batch is the planned one exactly when it holds the requests that are taken. */
  lemma PlanIsTheOnly(s: Scheduler, now: real, cs: seq<Chunk>, limited: bool)
    requires Valid(s)
    ensures var ids, b := Offered(s, now), PlanBatch(s, now);
      Assembled(s, now, ids, OrderingOf(s, now).onTime, |ids|, cs, limited) && DistinctIds(cs)
      <==> cs == b.chunks && limited == b.deadlineLimited
  {
    PlanAssembles(s, now);
    var ids, primary, b := Offered(s, now), OrderingOf(s, now).onTime, PlanBatch(s, now);
    if Assembled(s, now, ids, primary, |ids|, cs, limited) && DistinctIds(cs) {
      AssembledOnce(s, now, ids, primary, cs, limited, b.chunks, b.deadlineLimited);
    }
  }

  // ------------------------------------------------------- order and maximality

  /** Members stand in the order in which they were offered. */
  lemma MembersKeepOrder(s: Scheduler, now: real, a: nat, b: nat)
    requires Valid(s) && a < b < |Offered(s, now)|
    ensures var ids, cs := Offered(s, now), PlanBatch(s, now).chunks;
      forall i, j | 0 <= i < |cs| && 0 <= j < |cs| && cs[i].id == ids[a] && cs[j].id == ids[b] :: i < j
  {
    PlanAssembles(s, now);
    Passes(s, now);
    TwoPasses(OrderingOf(s, now).onTime, Secondary(s, now));
    var ids, cs := Offered(s, now), PlanBatch(s, now).chunks;
    var n := Splits(s, now, ids, OrderingOf(s, now).onTime, cs, b);
    assert ids[..b][a] == ids[a];
    NotBefore(ids, b, b);
  }

  lemma {:induction false} AheadIsPart(cs: seq<Chunk>, ids: seq<nat>)
    ensures |Ahead(cs, ids)| <= |cs| && Tokens(Ahead(cs, ids)) <= Tokens(cs)
    ensures forall c | c in Ahead(cs, ids) :: c in cs
  {
    if cs != [] {
      var n := |cs| - 1;
      AheadIsPart(cs[..n], ids);
      assert cs == cs[..n] + [cs[n]];
      if cs[n].id in ids {
        TokensAppend(Ahead(cs[..n], ids), cs[n]);
      } else {
        assert Ahead(cs, ids) == Ahead(cs[..n], ids);
      }
    }
  }

  /** With as much of the request as the token budget takes, the batch would finish after the deadline of
      `x`. */
  ghost predicate Overruns(s: Scheduler, now: real, b: Batch, id: nat, x: nat) {
    && id in s.queue && x in s.queue
    && now + MinNat(b.total + s.queue[id].Remaining(), s.tuning.chunkTokens) as real / Rate(s)
       > s.queue[x].deadline
  }

  lemma LaterStill(now: real, used: nat, share: nat, most: nat, rate: real, deadline: real)
    requires used + share <= most && rate > 0.0 && now + (used + share) as real / rate > deadline
    ensures now + most as real / rate > deadline
  {
    QuotientGrows((used + share) as real, most as real, rate);
  }

  lemma QuotientGrows(x: real, y: real, rate: real)
    requires x <= y && rate > 0.0
    ensures x / rate <= y / rate
  {
  }

  /** What was too late behind some of the batch is too late behind all of it. */
  lemma RefusedOverruns(
      s: Scheduler, now: real, ids: seq<nat>, primary: seq<nat>, b: Batch, k: nat) returns (x: nat)
    requires k < |ids| && Refused(s, now, ids, primary, b.chunks, k) && b.total == Tokens(b.chunks)
    ensures x in primary && (x == ids[k] || Has(b.chunks, x)) && Overruns(s, now, b, ids[k], x)
    ensures b.chunks != []
  {
    var ahead := Ahead(b.chunks, ids[..k]);
    var p := s.queue[ids[k]];
    AheadIsPart(b.chunks, ids[..k]);
    x :| x in primary && x in s.queue && (x == ids[k] || Has(ahead, x))
      && now + (Tokens(ahead) + Share(s, ahead, p)) as real / Rate(s) > s.queue[x].deadline;
    LaterStill(now, Tokens(ahead), Share(s, ahead, p),
               MinNat(b.total + p.Remaining(), s.tuning.chunkTokens), Rate(s), s.queue[x].deadline);
  }

  /** A budget is used up. */
  predicate UsedUp(s: Scheduler, b: Batch) {
    |b.chunks| == s.tuning.maxSeqs || b.total == s.tuning.chunkTokens
  }

  lemma LeftOut(s: Scheduler, now: real, k: nat) returns (ids: seq<nat>, primary: seq<nat>, b: Batch)
    requires Valid(s) && k < |Offered(s, now)|
    ensures ids == Offered(s, now) && primary == OrderingOf(s, now).onTime && b == PlanBatch(s, now)
    ensures b.total == Tokens(b.chunks)
    ensures ids[k] in s.queue && s.queue[ids[k]].Remaining() > 0 && !Has(b.chunks, ids[k]) ==>
      || UsedUp(s, b) || Refused(s, now, ids, primary, b.chunks, k)
      || (ids[k] !in primary && !Running(s, now, ids, primary, b.chunks, k))
  {
    PlanAssembles(s, now);
    PlanIsFeasible(s, now);
    ids, primary, b := Offered(s, now), OrderingOf(s, now).onTime, PlanBatch(s, now);
    assert Settles(s, now, ids, primary, b.chunks, k);
    AheadIsPart(b.chunks, ids[..k]);
    if Taken(s, now, ids, primary, b.chunks, k) {
      var n := |Ahead(b.chunks, ids[..k])|;
      assert b.chunks[n] in b.chunks && b.chunks[n].id == ids[k];
    }
  }

  /** A batch is as large as it can be: a request that still counts and has tokens left is missing only if a
      budget is used up, or if, with as much of it as the token budget takes, the batch would miss its own
      deadline or that of a member that still counts. */
  lemma PlanIsMaximal(s: Scheduler, now: real, id: nat) returns (x: nat)
    requires Valid(s) && id in OrderingOf(s, now).onTime && id in s.queue && s.queue[id].Remaining() > 0
    requires !Has(PlanBatch(s, now).chunks, id)
    ensures var b := PlanBatch(s, now);
      || UsedUp(s, b)
      || (b.deadlineLimited && b.chunks != [] && x in OrderingOf(s, now).onTime
          && (x == id || Has(b.chunks, x)) && Overruns(s, now, b, id, x))
  {
    var k: nat :| k < |OrderingOf(s, now).onTime| && OrderingOf(s, now).onTime[k] == id;
    assert Offered(s, now)[k] == id;
    var ids, primary, b := LeftOut(s, now, k);
    x := id;
    if !UsedUp(s, b) {
      PlanAssembles(s, now);
      x := RefusedOverruns(s, now, ids, primary, b, k);
    }
  }

  /** The same for a given-up request, one that is offered behind those that still count: its own deadline
      matters no longer, but it, or one offered before it in its pass, would make the batch miss the
      deadline of a member that still counts. */
  lemma GivenUpPassIsMaximal(s: Scheduler, now: real, k: nat) returns (j: nat, x: nat)
    requires Valid(s) && k < |Offered(s, now)|
    requires var id := Offered(s, now)[k];
      && id !in OrderingOf(s, now).onTime && id in s.queue && s.queue[id].Remaining() > 0
      && !Has(PlanBatch(s, now).chunks, id)
    ensures j <= k
    ensures var b, given := PlanBatch(s, now), Offered(s, now)[j];
      || UsedUp(s, b)
      || (b.deadlineLimited && given !in OrderingOf(s, now).onTime && !Has(b.chunks, given)
          && x in OrderingOf(s, now).onTime && Has(b.chunks, x) && Overruns(s, now, b, given, x))
  {
    var ids, primary, b := LeftOut(s, now, k);
    j, x := k, 0;
    if !UsedUp(s, b) {
      j := FirstStop(s, now, ids, primary, b.chunks, k);
      x := StopOverruns(s, now, ids, primary, b, j);
    }
  }

  lemma StopOverruns(
      s: Scheduler, now: real, ids: seq<nat>, primary: seq<nat>, b: Batch, i: nat) returns (x: nat)
    requires Valid(s) && b == PlanBatch(s, now) && ids == Offered(s, now)
    requires primary == OrderingOf(s, now).onTime
    requires i < |ids| && Stops(s, now, ids, primary, b.chunks, i)
    ensures b.deadlineLimited && x in primary && Has(b.chunks, x) && !Has(b.chunks, ids[i])
    ensures Overruns(s, now, b, ids[i], x)
  {
    PlanAssembles(s, now);
    assert Settles(s, now, ids, primary, b.chunks, i);
    x := RefusedOverruns(s, now, ids, primary, b, i);
  }

  lemma FirstStop(
      s: Scheduler, now: real, ids: seq<nat>, primary: seq<nat>, cs: seq<Chunk>, k: nat) returns (i: nat)
    requires k < |ids| && ids[k] !in primary
    requires Refused(s, now, ids, primary, cs, k) || !Running(s, now, ids, primary, cs, k)
    ensures i <= k && Stops(s, now, ids, primary, cs, i)
  {
    if Refused(s, now, ids, primary, cs, k) {
      i := k;
    } else {
      i :| i < k && Stops(s, now, ids, primary, cs, i);
    }
  }
}
