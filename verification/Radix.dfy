/** The router's prefix index. */
module Radix {
  import opened Common
  import opened RadixTree

  /** `w` has inserted some string that starts with `s`. */
  ghost predicate Said(said: set<(Worker, seq<Token>)>, w: Worker, s: seq<Token>) {
    exists t :: (w, t) in said && s <= t
  }

  /** `m` is the longest overlap of `tokens` with anything `w` has inserted. */
  ghost predicate LongestOverlap(
      said: set<(Worker, seq<Token>)>, w: Worker, tokens: seq<Token>, m: nat) {
    && (forall t | (w, t) in said :: CommonPrefix(t, tokens) <= m)
    && (exists t :: (w, t) in said && CommonPrefix(t, tokens) == m)
  }

  lemma {:induction false} CommonPrefixIsLongest(a: seq<Token>, b: seq<Token>)
    ensures var n := CommonPrefix(a, b);
      && n <= |a| && n <= |b| && a[..n] == b[..n]
      && (n < |a| && n < |b| ==> a[n] != b[n])
  {
    if a != [] && b != [] && a[0] == b[0] {
      CommonPrefixIsLongest(a[1..], b[1..]);
      var n := CommonPrefix(a[1..], b[1..]);
      assert a[..n + 1] == [a[0]] + a[1..][..n];
      assert b[..n + 1] == [b[0]] + b[1..][..n];
    }
  }

  lemma PrefixOverlap(a: seq<Token>, b: seq<Token>, k: nat)
    requires k <= |b| && b[..k] <= a
    ensures k <= CommonPrefix(a, b)
  {
    CommonPrefixIsLongest(a, b);
    assert forall i | 0 <= i < k :: a[i] == b[..k][i];
  }

  /** The index with its limits and with what has been inserted since last forgotten or pruned. */
  datatype State = State(t: Tree, said: set<(Worker, seq<Token>)>, minPrefixTokens: nat, maxNodes: nat)

  datatype Call =
    | Insertion(worker: Worker, tokens: seq<Token>, now: real)
    | Forgetting(worker: Worker)
    | Pruning(now: real, ttl: real)
    | Clearing

  /** A lone root that nobody holds. */
  const LONE_ROOT := Tree([Node([], map[], {}, 0.0)], [[]], [0])

  ghost predicate Right(x: State) {
    IsTree(x.t) && forall w, s :: Knows(x.t, w, s) <==> Said(x.said, w, s)
  }

  predicate Accepted(x: State, tokens: seq<Token>) {
    |tokens| >= x.minPrefixTokens && |x.t.nodes| < x.maxNodes
  }

  /** No node was used after its parent, and none after `now`. */
  ghost predicate Orderly(t: Tree, now: real)
    requires |t.nodes| == |t.parent|
  {
    ParentsFresher(t) && UsedBy(t, now)
  }

  /** What one call makes of the index. */
  ghost predicate Does(x: State, call: Call, y: State)
    requires Right(x)
  {
    && Right(y) && y.minPrefixTokens == x.minPrefixTokens && y.maxNodes == x.maxNodes
    && match call
      case Insertion(worker, tokens, now) => DoesInsert(x, worker, tokens, now, y)
      case Forgetting(worker) => DoesForget(x, worker, y)
      case Pruning(now, ttl) => DoesPrune(x, now, ttl, y)
      case Clearing => y.t == LONE_ROOT && y.said == {}
  }

  ghost predicate DoesInsert(x: State, worker: Worker, tokens: seq<Token>, now: real, y: State)
    requires IsTree(x.t) && IsTree(y.t)
  {
    if Accepted(x, tokens) then
      && y.said == x.said + {(worker, tokens)}
      && Keeps(x.t, y.t, now) && Since(y.t, worker, tokens, now)
      && (Orderly(x.t, now) ==> Orderly(y.t, now))
    else y == x
  }

  ghost predicate DoesForget(x: State, worker: Worker, y: State)
    requires IsTree(x.t) && IsTree(y.t)
  {
    && y.said == (set e | e in x.said && e.0 != worker)
    && y.t.paths == x.t.paths && y.t.parent == x.t.parent
    && forall c | 0 <= c < |x.t.nodes| ::
      y.t.nodes[c] == x.t.nodes[c].(workers := x.t.nodes[c].workers - {worker})
  }

  ghost predicate DoesPrune(x: State, now: real, ttl: real, y: State)
    requires IsTree(x.t) && IsTree(y.t)
  {
    && Pruned(x.t, y.t, now, ttl)
    && (ParentsFresher(x.t) ==>
          View(y.t) == set e | e in View(x.t) && (e.path == [] || now - e.last <= ttl))
    && y.said == set e, w | e in View(y.t) && w in e.workers :: (w, e.path)
  }

  class RadixIndex {
    var nodes: seq<Node>
    var minPrefixTokens: nat
    var maxNodes: nat

    ghost var paths: seq<seq<Token>>
    ghost var parent: seq<nat>
    /** Every string inserted and accepted, with its worker, since that worker was last forgotten. */
    ghost var said: set<(Worker, seq<Token>)>

    ghost function T(): Tree
      reads this
    {
      Tree(nodes, paths, parent)
    }

    ghost function Abstract(): State
      reads this
    {
      State(T(), said, minPrefixTokens, maxNodes)
    }

    ghost predicate Valid()
      reads this
    {
      Right(Abstract()) && maxNodes >= 1
    }

    constructor (minPrefixTokens: nat, maxNodes: nat)
      ensures Valid() && said == {} && T() == LONE_ROOT
      ensures this.minPrefixTokens == minPrefixTokens
      ensures this.maxNodes == if maxNodes >= 1 then maxNodes else 1
    {
      nodes := [Node([], map[], {}, 0.0)];
      this.minPrefixTokens := minPrefixTokens;
      this.maxNodes := if maxNodes >= 1 then maxNodes else 1;
      paths, parent, said := [[]], [0], {};
    }

    method Clear()
      requires Valid()
      modifies this
      ensures Valid() && Does(old(Abstract()), Clearing, Abstract())
      ensures minPrefixTokens == old(minPrefixTokens) && maxNodes == old(maxNodes)
    {
      nodes := [Node([], map[], {}, 0.0)];
      paths, parent, said := [[]], [0], {};
    }

    method Touch(c: nat, w: Worker, now: real)
      requires c < |nodes|
      modifies this`nodes
      ensures T() == TouchTree(old(T()), c, w, now)
    {
      nodes := nodes[c := nodes[c].(workers := nodes[c].workers + {w}, last := now)];
    }

    method Split(c: nat, at: nat, now: real)
      requires |nodes| == |paths| == |parent|
      requires c < |nodes| && parent[c] < |nodes| && 0 < at < |nodes[c].edge|
      modifies this`nodes, this`paths, this`parent
      ensures T() == SplitTree(old(T()), c, at, now)
    {
      ghost var u := SplitTree(T(), c, at, now);
      var edge := nodes[c].edge;
      var tail := Node(edge[at..], nodes[c].children, nodes[c].workers, now);
      var id := |nodes|;
      nodes := nodes + [tail];
      nodes := nodes[c := nodes[c].(edge := edge[..at], children := map[edge[at] := id])];
      paths, parent := u.paths, u.parent;
      assert nodes == u.nodes;
    }

    /** Hangs a leaf that holds `edge` below `c`. */
    method Grow(c: nat, edge: seq<Token>, w: Worker, now: real)
      requires IsTree(T()) && c < |nodes| && w in nodes[c].workers
      requires edge != [] && edge[0] !in nodes[c].children
      modifies this`nodes, this`paths, this`parent
      ensures T() == GrowTree(old(T()), c, edge, w, now)
      ensures IsTree(T()) && Learns(old(T()), T(), w, old(paths[c]) + edge)
      ensures Keeps(old(T()), T(), now) && Since(T(), w, old(paths[c]) + edge, now)
      ensures old(Orderly(T(), now) && nodes[c].last == now) ==> Orderly(T(), now)
    {
      ghost var t := T();
      ghost var u := GrowTree(t, c, edge, w, now);
      GrowKeepsTree(t, c, edge, w, now);
      GrowKeepsUse(t, c, edge, w, now);
      forall v, s { GrowAddsKnowledge(t, c, edge, w, now, v, s); }
      var id := |nodes|;
      nodes := nodes + [Node(edge, map[], {w}, now)];
      nodes := nodes[c := nodes[c].(children := nodes[c].children[edge[0] := id])];
      paths, parent := u.paths, u.parent;
      assert nodes == u.nodes;
    }

    /** Moves from `cur` into the child that `rest` leads to, splitting its edge where `rest` leaves it. */
    method Descend(cur: nat, rest: seq<Token>, worker: Worker, now: real) returns (child: nat, common: nat)
      requires IsTree(T()) && cur < |nodes| && worker in nodes[cur].workers
      requires rest != [] && rest[0] in nodes[cur].children
      modifies this`nodes, this`paths, this`parent
      ensures IsTree(T()) && child < |nodes| && 0 < common <= |rest|
      ensures paths[child] == old(paths[cur]) + rest[..common] && worker in nodes[child].workers
      ensures Learns(old(T()), T(), worker, paths[child])
      ensures Keeps(old(T()), T(), now) && nodes[child].last == now
      ensures |nodes| == |old(nodes)| ||
        (|nodes| == |old(nodes)| + 1 && (common < |rest| ==> rest[common] !in nodes[child].children))
      ensures old(Orderly(T(), now) && nodes[cur].last == now) ==> Orderly(T(), now)
    {
      ghost var t := T();
      assert Linked(t, cur, rest[0]);
      child := nodes[cur].children[rest[0]];
      assert Hangs(t, child);
      common := CommonPrefix(nodes[child].edge, rest);
      CommonPrefixIsLongest(nodes[child].edge, rest);
      DescendLearns(t, child, common, worker, now);
      if common < |nodes[child].edge| {
        Split(child, common, now);
      }
      Touch(child, worker, now);
    }

    /** Hangs what is left of `tokens` below `cur`, which ends the insertion begun at `t`. */
    method GrowRest(cur: nat, i: nat, worker: Worker, tokens: seq<Token>, now: real, ghost t: Tree)
      requires IsTree(T()) && |t.nodes| == |t.paths| && maxNodes >= 1
      requires cur < |nodes| && worker in nodes[cur].workers
      requires i < |tokens| && tokens[i] !in nodes[cur].children && paths[cur] == tokens[..i]
      requires Learns(t, T(), worker, tokens[..i]) && Keeps(t, T(), now)
      requires forall w, s :: Knows(t, w, s) <==> Said(said, w, s)
      modifies this`nodes, this`paths, this`parent, this`said
      ensures Valid() && said == old(said) + {(worker, tokens)} && |nodes| == |old(nodes)| + 1
      ensures Keeps(t, T(), now) && Since(T(), worker, tokens, now)
      ensures old(Orderly(T(), now) && nodes[cur].last == now) ==> Orderly(T(), now)
    {
      var rest := tokens[i..];
      ghost var u := T();
      Grow(cur, rest, worker, now);
      assert tokens[..i] + rest == tokens;
      LearnsMore(t, u, T(), worker, tokens[..i], tokens);
      KeepsTwice(t, u, T(), now);
      AddSaid(t, T(), said, worker, tokens);
      said := said + {(worker, tokens)};
    }

    /** An accepted insertion adds exactly this string for this worker and at most two nodes. */
    method Insert(worker: Worker, tokens: seq<Token>, now: real)
      requires Valid()
      modifies this`nodes, this`paths, this`parent, this`said
      ensures Valid() && Does(old(Abstract()), Insertion(worker, tokens, now), Abstract())
      ensures |nodes| <= |old(nodes)| + 2
      ensures old(|nodes| <= maxNodes + 1) ==> |nodes| <= maxNodes + 1
    {
      if |tokens| < minPrefixTokens || |nodes| >= maxNodes {
        return;
      }
      ghost var t := T();
      var cur: nat, i: nat := 0, 0;
      TouchKeepsTree(t, 0, worker, now);
      TouchKeepsUse(t, 0, worker, now);
      forall w, s { TouchAddsKnowledge(t, 0, worker, now, w, s); }
      Touch(0, worker, now);
      while i < |tokens|
        invariant 0 <= i <= |tokens| && cur < |nodes| && IsTree(T()) && said == old(said)
        invariant paths[cur] == tokens[..i] && worker in nodes[cur].workers
        invariant Learns(t, T(), worker, tokens[..i])
        invariant Keeps(t, T(), now) && nodes[cur].last == now
        invariant |t.nodes| <= |nodes| <= |t.nodes| + 1
        invariant |nodes| == |t.nodes| + 1 && i < |tokens| ==> tokens[i] !in nodes[cur].children
        invariant Orderly(t, now) ==> Orderly(T(), now)
      {
        var rest := tokens[i..];
        ghost var u := T();
        if rest[0] !in nodes[cur].children {
          GrowRest(cur, i, worker, tokens, now, t);
          return;
        }
        var child, common := Descend(cur, rest, worker, now);
        assert tokens[..i + common] == tokens[..i] + rest[..common];
        LearnsMore(t, u, T(), worker, tokens[..i], tokens[..i + common]);
        KeepsTwice(t, u, T(), now);
        i := i + common;
        cur := child;
      }
      assert tokens[..i] == tokens;
      UsedHere(T(), cur, worker, now);
      AddSaid(t, T(), said, worker, tokens);
      said := said + {(worker, tokens)};
    }

    /** Walks down along `tokens`, recording every worker met. */
    method WalkDown(tokens: seq<Token>) returns (out: map<Worker, nat>)
      requires IsTree(T())
      ensures AllLongest(T(), tokens, out)
    {
      ghost var t := T();
      var cur: nat, matched: nat := 0, 0;
      out := map w | w in nodes[0].workers :: 0;
      while true
        invariant At(t, cur, tokens, matched)
        invariant Covered(t, cur, tokens, matched, out)
        decreases |tokens| - matched
      {
        if matched >= |tokens| || tokens[matched] !in nodes[cur].children {
          StopHere(t, cur, tokens, matched, out);
          break;
        }
        ghost var to, agree := StepFacts(t, cur, tokens, matched);
        var child := nodes[cur].children[tokens[matched]];
        var common := CommonPrefix(nodes[child].edge, tokens[matched..]);
        CoverChild(t, cur, child, tokens, matched, matched + common, out);
        matched := matched + common;
        out := out + (map w | w in nodes[child].workers :: matched);
        if common < |nodes[child].edge| {
          StopInside(t, child, tokens, matched, out);
          break;
        }
        cur := child;
      }
    }

    /** For every worker that has inserted anything, its longest overlap with `tokens`; a worker
        whose strings share nothing with `tokens` is reported with zero. */
    method MatchWorkers(tokens: seq<Token>) returns (out: map<Worker, nat>)
      requires Valid()
      ensures Reports(said, tokens, out)
    {
      out := WalkDown(tokens);
      Report(T(), said, tokens, out);
    }

    method MatchWorker(worker: Worker, tokens: seq<Token>) returns (m: nat)
      requires Valid()
      ensures (exists t :: (worker, t) in said) ==> LongestOverlap(said, worker, tokens, m)
      ensures !(exists t :: (worker, t) in said) ==> m == 0
    {
      var out := MatchWorkers(tokens);
      m := if worker in out then out[worker] else 0;
    }

    /** Drops every string of `worker` and nothing else. */
    method ForgetWorker(worker: Worker)
      requires Valid()
      modifies this`nodes, this`said
      ensures Valid() && Does(old(Abstract()), Forgetting(worker), Abstract())
    {
      ghost var t := T();
      for i := 0 to |nodes|
        invariant |nodes| == |t.nodes| && said == old(said)
        invariant forall c | 0 <= c < i :: nodes[c] == t.nodes[c].(workers := t.nodes[c].workers - {worker})
        invariant forall c | i <= c < |nodes| :: nodes[c] == t.nodes[c]
      {
        nodes := nodes[i := nodes[i].(workers := nodes[i].workers - {worker})];
      }
      ForgetKeepsTree(t, T(), worker);
      said := set e | e in said && e.0 != worker;
      ForgetSaid(t, T(), old(said), said, worker);
    }

    /** The node and key under which `node` hangs, if any. */
    method FindParent(node: nat) returns (r: Option<(nat, Token)>)
      ensures r.Some? ==> (
        && r.value.0 < |nodes| && r.value.1 in nodes[r.value.0].children
        && nodes[r.value.0].children[r.value.1] == node)
      ensures r.None? ==> forall i, k | 0 <= i < |nodes| && k in nodes[i].children ::
        nodes[i].children[k] != node
    {
      for i := 0 to |nodes|
        invariant forall j, k | 0 <= j < i && k in nodes[j].children :: nodes[j].children[k] != node
      {
        if k :| k in nodes[i].children && nodes[i].children[k] == node {
          return Some((i, k));
        }
      }
      r := None;
    }

    method Detach(v: nat)
      requires IsTree(T()) && 0 < v < |nodes| && nodes[v].children == map[]
      requires Hangs(T(), v) && Hangs(T(), |nodes| - 1)
      modifies this`nodes, this`paths, this`parent
      ensures T() == DetachTree(old(T()), v)
    {
      ghost var t := T();
      ghost var u := DetachTree(t, v);
      var found := FindParent(v);
      assert found.Some?;
      var (p, k) := found.value;
      assert Linked(t, p, k);
      nodes := nodes[p := nodes[p].(children := nodes[p].children - {k})];
      assert nodes == Unlink(t, v);
      var last := |nodes| - 1;
      if v != last {
        assert nodes[t.parent[last]].children[t.nodes[last].edge[0]] == last;
        var above := FindParent(last);
        assert above.Some?;
        var (q, j) := above.value;
        assert Linked(t, q, j);
        nodes := nodes[q := nodes[q].(children := nodes[q].children[j := v])];
        nodes := nodes[v := nodes[last]][last := nodes[v]];
      }
      nodes := nodes[..last];
      paths, parent := u.paths, u.parent;
      assert nodes == u.nodes;
    }

    /** Removes stale leaves until none is left. When no node was used after its parent, what
        survives is exactly the root and the nodes used within the last `ttl` milliseconds. */
    method Prune(now: real, ttl: real) returns (removed: nat)
      requires Valid()
      modifies this`nodes, this`paths, this`parent, this`said
      ensures Valid() && Does(old(Abstract()), Pruning(now, ttl), Abstract())
      ensures removed + |nodes| == old(|nodes|)
      ensures NoStaleLeaf(T(), now, ttl)
    {
      removed := 0;
      while true
        invariant IsTree(T()) && removed + |nodes| == old(|nodes|)
        invariant Pruned(old(T()), T(), now, ttl)
        decreases |nodes|
      {
        var victim := FindStaleLeaf(now, ttl);
        if victim.None? {
          break;
        }
        PruneOne(old(T()), T(), victim.value, now, ttl);
        Detach(victim.value);
        removed := removed + 1;
      }
      PrunedToFresh(old(T()), T(), now, ttl);
      said := set e, w | e in View(T()) && w in e.workers :: (w, e.path);
      ViewSaid(T(), said);
    }

    method FindStaleLeaf(now: real, ttl: real) returns (r: Option<nat>)
      ensures r.Some? ==> (
        && 0 < r.value < |nodes| && nodes[r.value].children == map[]
        && now - nodes[r.value].last > ttl)
      ensures r.None? ==> NoStaleLeaf(T(), now, ttl)
    {
      for i := 0 to |nodes|
        invariant forall c | 0 < c < i && nodes[c].children == map[] :: now - nodes[c].last <= ttl
      {
        if i != 0 && nodes[i].children == map[] && now - nodes[i].last > ttl {
          return Some(i);
        }
      }
      r := None;
    }
  }

  // --------------------------------------------------------- zero overlaps

  /** What `MatchWorkers` reports. */
  ghost predicate Reports(
    said: set<(Worker, seq<Token>)>, tokens: seq<Token>, out: map<Worker, nat>)
  {
    && (forall w :: w in out <==> exists t :: (w, t) in said)
    && (forall w | w in out :: LongestOverlap(said, w, tokens, out[w]))
  }

  /** A worker is reported with zero exactly when it has inserted something, none of which shares its
      first token with the query. */
  lemma ReportedZeroIff(
      said: set<(Worker, seq<Token>)>, tokens: seq<Token>, out: map<Worker, nat>, w: Worker)
    requires Reports(said, tokens, out)
    ensures w in out && out[w] == 0 <==>
      && (exists t :: (w, t) in said)
      && forall t | (w, t) in said :: t == [] || tokens == [] || t[0] != tokens[0]
  {
    forall t | (w, t) in said
      ensures CommonPrefix(t, tokens) == 0 <==> t == [] || tokens == [] || t[0] != tokens[0]
    {
    }
  }

  /** For example: worker 7 has the prompt [1]; a query for [2] reports it, with zero. */
  method ForeignPrompt() returns (out: map<Worker, nat>)
    ensures out == map[7 := 0]
  {
    var index := new RadixIndex(1, 8);
    index.Insert(7, [1], 0.0);
    assert index.said == {(7, [1])};
    out := index.MatchWorkers([2]);
    ReportedZeroIff(index.said, [2], out, 7);
    assert (7, [1]) in index.said;
  }

  // -------------------------------------------------------------- matching

  /** `m` tokens of `tokens` are known to `w`, and no more. */
  ghost predicate IsLongest(t: Tree, w: Worker, tokens: seq<Token>, m: nat)
    requires |t.nodes| == |t.paths|
  {
    && m <= |tokens| && Knows(t, w, tokens[..m])
    && forall k | m < k <= |tokens| :: !Knows(t, w, tokens[..k])
  }

  /** `out` holds `matched` for the workers of `cur` and the final answer for all others. */
  ghost predicate Covered(t: Tree, cur: nat, tokens: seq<Token>, matched: nat, out: map<Worker, nat>)
    requires |t.nodes| == |t.paths| && cur < |t.nodes|
  {
    && out.Keys == t.nodes[0].workers
    && t.nodes[cur].workers <= out.Keys
    && (forall w | w in t.nodes[cur].workers :: out[w] == matched)
    && (forall w | w in out && w !in t.nodes[cur].workers :: IsLongest(t, w, tokens, out[w]))
  }

  ghost predicate AllLongest(t: Tree, tokens: seq<Token>, out: map<Worker, nat>)
    requires |t.nodes| == |t.paths| > 0
  {
    out.Keys == t.nodes[0].workers && forall w | w in out :: IsLongest(t, w, tokens, out[w])
  }

  /** `cur` is the node that the first `matched` tokens lead to. */
  ghost predicate At(t: Tree, cur: nat, tokens: seq<Token>, matched: nat)
    requires |t.nodes| == |t.paths|
  {
    cur < |t.nodes| && matched <= |tokens| && t.paths[cur] == tokens[..matched]
  }

  /** `tokens` leaves the tree inside the edge of `child`, after `matched` tokens. */
  ghost predicate Inside(t: Tree, child: nat, tokens: seq<Token>, matched: nat)
    requires |t.nodes| == |t.paths| == |t.parent|
  {
    && 0 < child < |t.nodes| && t.parent[child] < |t.nodes|
    && |t.paths[t.parent[child]]| < matched <= |tokens|
    && matched < |t.paths[child]| && tokens[..matched] == t.paths[child][..matched]
    && (matched < |tokens| ==> tokens[matched] != t.paths[child][matched])
  }

  /** Following `tokens` from `cur` into a child, and how far its edge agrees. */
  lemma StepFacts(t: Tree, cur: nat, tokens: seq<Token>, matched: nat) returns (child: nat, common: nat)
    requires IsTree(t) && At(t, cur, tokens, matched)
    requires matched < |tokens| && tokens[matched] in t.nodes[cur].children
    ensures child == t.nodes[cur].children[tokens[matched]] && child < |t.nodes|
    ensures common == CommonPrefix(t.nodes[child].edge, tokens[matched..])
    ensures 0 < common <= |t.nodes[child].edge| && matched + common <= |tokens|
    ensures if common < |t.nodes[child].edge| then Inside(t, child, tokens, matched + common)
            else At(t, child, tokens, matched + common)
  {
    assert Linked(t, cur, tokens[matched]);
    child := t.nodes[cur].children[tokens[matched]];
    assert Hangs(t, child);
    var rest := tokens[matched..];
    common := CommonPrefix(t.nodes[child].edge, rest);
    CommonPrefixIsLongest(t.nodes[child].edge, rest);
    assert tokens[..matched + common] == tokens[..matched] + rest[..common];
  }

  lemma CoverChild(
      t: Tree, cur: nat, child: nat, tokens: seq<Token>, matched: nat, further: nat, out: map<Worker, nat>)
    requires IsTree(t) && At(t, cur, tokens, matched)
    requires matched < |tokens| && tokens[matched] in t.nodes[cur].children
    requires child == t.nodes[cur].children[tokens[matched]] && child < |t.nodes|
    requires Covered(t, cur, tokens, matched, out)
    ensures Covered(t, child, tokens, further, out + (map w | w in t.nodes[child].workers :: further))
  {
    LeftBehind(t, cur, child, tokens, matched);
    WorkersReachRoot(t, child);
  }

  lemma Report(t: Tree, said: set<(Worker, seq<Token>)>, tokens: seq<Token>, out: map<Worker, nat>)
    requires IsTree(t) && AllLongest(t, tokens, out)
    requires forall w, s :: Knows(t, w, s) <==> Said(said, w, s)
    ensures forall w :: w in out <==> exists x :: (w, x) in said
    ensures forall w | w in out :: LongestOverlap(said, w, tokens, out[w])
  {
    forall w: Worker ensures w in out <==> exists x :: (w, x) in said {
      RootKnows(t, w);
      assert Knows(t, w, []) <==> Said(said, w, []);
    }
    forall w | w in out ensures LongestOverlap(said, w, tokens, out[w]) {
      LongestIsOverlap(t, said, w, tokens, out[w]);
    }
  }

  /** Where no child continues `tokens`, the workers of the node know no more of it. */
  lemma StopHere(t: Tree, cur: nat, tokens: seq<Token>, matched: nat, out: map<Worker, nat>)
    requires IsTree(t) && At(t, cur, tokens, matched)
    requires matched < |tokens| ==> tokens[matched] !in t.nodes[cur].children
    requires Covered(t, cur, tokens, matched, out)
    ensures AllLongest(t, tokens, out)
  {
    forall w | w in t.nodes[cur].workers ensures IsLongest(t, w, tokens, matched) {
      assert Knows(t, w, tokens[..matched]);
      forall k | matched < k <= |tokens| ensures !Knows(t, w, tokens[..k]) {
        if Knows(t, w, tokens[..k]) {
          var d := Witness(t, w, tokens, matched, k);
          RunsThroughChild(t, cur, d);
        }
      }
    }
  }

  /** A node that continues `tokens` past `matched`. */
  lemma Witness(t: Tree, w: Worker, tokens: seq<Token>, matched: nat, k: nat) returns (d: nat)
    requires IsTree(t) && matched < k <= |tokens| && Knows(t, w, tokens[..k])
    ensures d < |t.nodes| && w in t.nodes[d].workers && tokens[..k] <= t.paths[d]
    ensures tokens[..matched] <= t.paths[d] && |t.paths[d]| > matched
    ensures t.paths[d][matched] == tokens[matched]
  {
    d :| 0 <= d < |t.nodes| && w in t.nodes[d].workers && tokens[..k] <= t.paths[d];
    assert tokens[..matched] == tokens[..k][..matched] == t.paths[d][..matched];
    assert t.paths[d][matched] == tokens[..k][matched];
  }

  /** Workers of a node that are not in the child `tokens` leads to know no more of it. */
  lemma LeftBehind(t: Tree, cur: nat, child: nat, tokens: seq<Token>, matched: nat)
    requires IsTree(t) && At(t, cur, tokens, matched)
    requires matched < |tokens| && tokens[matched] in t.nodes[cur].children
    requires child == t.nodes[cur].children[tokens[matched]] && child < |t.nodes|
    ensures forall w | w in t.nodes[cur].workers && w !in t.nodes[child].workers ::
      IsLongest(t, w, tokens, matched)
  {
    forall w | w in t.nodes[cur].workers && w !in t.nodes[child].workers
      ensures IsLongest(t, w, tokens, matched)
    {
      assert Knows(t, w, tokens[..matched]);
      forall k | matched < k <= |tokens| ensures !Knows(t, w, tokens[..k]) {
        if Knows(t, w, tokens[..k]) {
          var d := Witness(t, w, tokens, matched, k);
          RunsThroughChild(t, cur, d);
        }
      }
    }
  }

  /** Where `tokens` leaves an edge, the workers of the edge know exactly the part they share. */
  lemma StopInside(t: Tree, child: nat, tokens: seq<Token>, matched: nat, out: map<Worker, nat>)
    requires IsTree(t) && Inside(t, child, tokens, matched)
    requires Covered(t, child, tokens, matched, out)
    ensures AllLongest(t, tokens, out)
  {
    var p := t.parent[child];
    assert Hangs(t, child);
    forall w | w in t.nodes[child].workers ensures IsLongest(t, w, tokens, matched) {
      assert tokens[..matched] <= t.paths[child];
      assert Knows(t, w, tokens[..matched]);
      forall k | matched < k <= |tokens| ensures !Knows(t, w, tokens[..k]) {
        if Knows(t, w, tokens[..k]) {
          var d := Witness(t, w, tokens, matched, k);
          var m := |t.paths[p]|;
          assert t.paths[p] == t.paths[child][..m] == tokens[..matched][..m] == t.paths[d][..m];
          assert t.paths[d][m] == tokens[..matched][m] == t.paths[child][m] == t.nodes[child].edge[0];
          RunsThroughChild(t, p, d);
        }
      }
    }
  }

  lemma RootKnows(t: Tree, w: Worker)
    requires IsTree(t)
    ensures w in t.nodes[0].workers <==> Knows(t, w, [])
  {
    if w in t.nodes[0].workers {
      assert [] <= t.paths[0];
    }
    if Knows(t, w, []) {
      var c :| 0 <= c < |t.nodes| && w in t.nodes[c].workers && [] <= t.paths[c];
      WorkersReachRoot(t, c);
    }
  }

  lemma LongestIsOverlap(t: Tree, said: set<(Worker, seq<Token>)>, w: Worker, tokens: seq<Token>, m: nat)
    requires IsTree(t) && IsLongest(t, w, tokens, m)
    requires forall v, s :: Knows(t, v, s) <==> Said(said, v, s)
    ensures LongestOverlap(said, w, tokens, m)
  {
    forall x | (w, x) in said ensures CommonPrefix(x, tokens) <= m {
      CommonPrefixIsLongest(x, tokens);
      var n := CommonPrefix(x, tokens);
      assert tokens[..n] <= x;
      assert Said(said, w, tokens[..n]);
      assert Knows(t, w, tokens[..n]);
    }
    assert Said(said, w, tokens[..m]);
    var x :| (w, x) in said && tokens[..m] <= x;
    PrefixOverlap(x, tokens, m);
    assert CommonPrefix(x, tokens) == m;
  }

  // ------------------------------------------------- what the changes keep

  /** Splits the edge of `child` after `common` tokens, unless that is all of it, and marks `child`. */
  ghost function DescendTree(t: Tree, child: nat, common: nat, worker: Worker, now: real): Tree
    requires |t.nodes| == |t.paths| == |t.parent|
    requires child < |t.nodes| && t.parent[child] < |t.nodes| && 0 < common <= |t.nodes[child].edge|
  {
    var u := if common < |t.nodes[child].edge| then SplitTree(t, child, common, now) else t;
    TouchTree(u, child, worker, now)
  }

  lemma DescendLearns(t: Tree, child: nat, common: nat, worker: Worker, now: real)
    requires IsTree(t) && 0 < child < |t.nodes| && Hangs(t, child) && 0 < common <= |t.nodes[child].edge|
    requires worker in t.nodes[t.parent[child]].workers
    ensures var v := DescendTree(t, child, common, worker, now);
      && IsTree(v) && v.paths[child] == t.paths[t.parent[child]] + t.nodes[child].edge[..common]
      && Learns(t, v, worker, v.paths[child]) && Keeps(t, v, now)
      && (Orderly(t, now) && t.nodes[t.parent[child]].last == now ==> Orderly(v, now))
  {
    var u := if common < |t.nodes[child].edge| then SplitTree(t, child, common, now) else t;
    SplitLearns(t, child, common, now);
    assert Hangs(u, child);
    TouchKeepsTree(u, child, worker, now);
    TouchKeepsUse(u, child, worker, now);
    forall w, s { TouchAddsKnowledge(u, child, worker, now, w, s); }
    KeepsTwice(t, u, TouchTree(u, child, worker, now), now);
    DescendRenews(t, child, common, worker, now);
  }

  lemma DescendRenews(t: Tree, child: nat, common: nat, worker: Worker, now: real)
    requires IsTree(t) && 0 < child < |t.nodes| && Hangs(t, child) && 0 < common <= |t.nodes[child].edge|
    ensures Renewed(t, DescendTree(t, child, common, worker, now), now)
  {
  }

  lemma SplitLearns(t: Tree, child: nat, common: nat, now: real)
    requires IsTree(t) && 0 < child < |t.nodes| && Hangs(t, child) && 0 < common <= |t.nodes[child].edge|
    ensures var u := if common < |t.nodes[child].edge| then SplitTree(t, child, common, now) else t;
      IsTree(u) && KeepsUse(t, u, now) && forall w, s :: Knows(u, w, s) <==> Knows(t, w, s)
  {
    if common < |t.nodes[child].edge| {
      SplitKeepsTree(t, child, common, now);
      SplitKeepsUse(t, child, common, now);
      forall w, s { SplitKeepsKnowledge(t, child, common, now, w, s); }
    }
  }

  /** `u` knows what `t` knows and that `worker` holds `tokens`. */
  ghost predicate Learns(t: Tree, u: Tree, worker: Worker, tokens: seq<Token>)
    requires |t.nodes| == |t.paths| && |u.nodes| == |u.paths|
  {
    forall w, s :: Knows(u, w, s) <==> Knows(t, w, s) || (w == worker && s <= tokens)
  }

  lemma LearnsMore(t: Tree, u: Tree, v: Tree, worker: Worker, part: seq<Token>, whole: seq<Token>)
    requires |t.nodes| == |t.paths| && |u.nodes| == |u.paths| && |v.nodes| == |v.paths|
    requires Learns(t, u, worker, part) && Learns(u, v, worker, whole) && part <= whole
    ensures Learns(t, v, worker, whole)
  {
  }

  lemma AddSaid(t: Tree, u: Tree, said: set<(Worker, seq<Token>)>, worker: Worker, tokens: seq<Token>)
    requires |t.nodes| == |t.paths| && |u.nodes| == |u.paths|
    requires forall w, s :: Knows(t, w, s) <==> Said(said, w, s)
    requires Learns(t, u, worker, tokens)
    ensures forall w, s :: Knows(u, w, s) <==> Said(said + {(worker, tokens)}, w, s)
  {
    var more := said + {(worker, tokens)};
    forall w, s ensures Knows(u, w, s) <==> Said(more, w, s) {
      if Said(said, w, s) {
        var x :| (w, x) in said && s <= x;
        assert (w, x) in more;
      }
      if w == worker && s <= tokens {
        assert (w, tokens) in more;
      }
    }
  }

  lemma ForgetKeepsTree(t: Tree, u: Tree, worker: Worker)
    requires IsTree(t) && u.paths == t.paths && u.parent == t.parent && |u.nodes| == |t.nodes|
    requires forall c | 0 <= c < |t.nodes| ::
      u.nodes[c] == t.nodes[c].(workers := t.nodes[c].workers - {worker})
    ensures IsTree(u)
  {
    forall i {:trigger Hangs(u, i)} | 0 < i < |u.nodes| ensures Hangs(u, i) {
      assert Hangs(t, i);
    }
    forall p, k {:trigger Linked(u, p, k)} | 0 <= p < |u.nodes| && k in u.nodes[p].children
      ensures Linked(u, p, k)
    {
      assert Linked(t, p, k);
    }
  }

  lemma ForgetSaid(
      t: Tree, u: Tree, said: set<(Worker, seq<Token>)>, less: set<(Worker, seq<Token>)>, worker: Worker)
    requires |t.nodes| == |t.paths| && u.paths == t.paths && |u.nodes| == |t.nodes|
    requires forall c | 0 <= c < |t.nodes| ::
      u.nodes[c] == t.nodes[c].(workers := t.nodes[c].workers - {worker})
    requires forall w, s :: Knows(t, w, s) <==> Said(said, w, s)
    requires less == set e | e in said && e.0 != worker
    ensures forall w, s :: Knows(u, w, s) <==> Said(less, w, s)
  {
    forall w: Worker, s: seq<Token> ensures Knows(u, w, s) <==> Said(less, w, s) {
      if Knows(u, w, s) {
        assert Knows(t, w, s);
        var x :| (w, x) in said && s <= x;
        assert (w, x) in less;
      }
      if Said(less, w, s) {
        assert Said(said, w, s);
        var c :| 0 <= c < |t.nodes| && w in t.nodes[c].workers && s <= t.paths[c];
        assert w in u.nodes[c].workers && s <= u.paths[c];
      }
    }
  }

  ghost predicate NoStaleLeaf(t: Tree, now: real, ttl: real) {
    forall c | 0 < c < |t.nodes| && t.nodes[c].children == map[] :: now - t.nodes[c].last <= ttl
  }

  /** Only stale entries of `t` are gone from `u`. */
  ghost predicate Pruned(t: Tree, u: Tree, now: real, ttl: real)
    requires IsTree(t) && IsTree(u)
  {
    && View(u) <= View(t)
    && (forall e | e in View(t) && e !in View(u) :: e.path != [] && now - e.last > ttl)
    && (ParentsFresher(t) ==> ParentsFresher(u))
  }

  lemma PruneOne(t: Tree, u: Tree, v: nat, now: real, ttl: real)
    requires IsTree(t) && IsTree(u) && Pruned(t, u, now, ttl)
    requires 0 < v < |u.nodes| && u.nodes[v].children == map[] && Stale(u.nodes[v], now, ttl)
    ensures Hangs(u, v) && Hangs(u, |u.nodes| - 1) && IsTree(DetachTree(u, v))
    ensures Pruned(t, DetachTree(u, v), now, ttl)
  {
    ParentIsShorter(u, v);
    assert Hangs(u, |u.nodes| - 1);
    DetachKeepsTree(u, v);
    DetachView(u, v);
    if ParentsFresher(u) {
      DetachKeepsFresher(u, v);
    }
  }

  lemma PrunedToFresh(t: Tree, u: Tree, now: real, ttl: real)
    requires IsTree(t) && IsTree(u) && Pruned(t, u, now, ttl) && NoStaleLeaf(u, now, ttl)
    ensures ParentsFresher(t) ==>
      View(u) == set e | e in View(t) && (e.path == [] || now - e.last <= ttl)
  {
    if ParentsFresher(t) {
      OnlyFreshLeft(u, now, ttl);
    }
  }

  lemma OnlyFreshLeft(t: Tree, now: real, ttl: real)
    requires IsTree(t) && ParentsFresher(t) && NoStaleLeaf(t, now, ttl)
    ensures forall e | e in View(t) :: e.path == [] || now - e.last <= ttl
  {
    forall e | e in View(t) ensures e.path == [] || now - e.last <= ttl {
      var c :| 0 <= c < |t.nodes| && e == EntryOf(t, c);
      if c > 0 && Stale(t.nodes[c], now, ttl) {
        var m := LongestPath(t.paths);
        var leaf := StaleLeafBelow(t, c, now, ttl, m);
      }
    }
  }

  lemma ViewSaid(t: Tree, said: set<(Worker, seq<Token>)>)
    requires IsTree(t) && said == set e, w | e in View(t) && w in e.workers :: (w, e.path)
    ensures forall w, s :: Knows(t, w, s) <==> Said(said, w, s)
  {
    forall w, s ensures Knows(t, w, s) <==> Said(said, w, s) {
      if Knows(t, w, s) {
        var c :| 0 <= c < |t.nodes| && w in t.nodes[c].workers && s <= t.paths[c];
        assert EntryOf(t, c) in View(t);
        assert (w, t.paths[c]) in said;
      }
      if Said(said, w, s) {
        var x :| (w, x) in said && s <= x;
        var e :| e in View(t) && w in e.workers && x == e.path;
        var c :| 0 <= c < |t.nodes| && e == EntryOf(t, c);
        assert w in t.nodes[c].workers && s <= t.paths[c];
      }
    }
  }
}
