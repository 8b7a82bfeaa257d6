/** The router's prefix tree as an arena of nodes: what makes it a tree, what its workers know, and
    how splits and removals change it. */
module RadixTree {
  import opened Common

  type Token = nat
  type Worker = nat

  datatype Node = Node(edge: seq<Token>, children: map<Token, nat>, workers: set<Worker>, last: real)

  /** The arena with the path and the parent of every node. */
  datatype Tree = Tree(nodes: seq<Node>, paths: seq<seq<Token>>, parent: seq<nat>)

  function CommonPrefix(a: seq<Token>, b: seq<Token>): nat {
    if a == [] || b == [] || a[0] != b[0] then 0 else 1 + CommonPrefix(a[1..], b[1..])
  }

  /** Node `c` hangs below its parent, under the first token of its edge. */
  ghost predicate Hangs(t: Tree, c: nat)
    requires |t.nodes| == |t.paths| == |t.parent| && c < |t.nodes|
  {
    var p, edge := t.parent[c], t.nodes[c].edge;
    && p < |t.nodes| && edge != []
    && edge[0] in t.nodes[p].children && t.nodes[p].children[edge[0]] == c
    && t.paths[c] == t.paths[p] + edge
    && t.nodes[c].workers <= t.nodes[p].workers
  }

  /** The child of `p` under `k` has `p` as its parent and starts with `k`. */
  ghost predicate Linked(t: Tree, p: nat, k: Token)
    requires |t.nodes| == |t.paths| == |t.parent| && p < |t.nodes| && k in t.nodes[p].children
  {
    var c := t.nodes[p].children[k];
    0 < c < |t.nodes| && t.parent[c] == p && t.nodes[c].edge != [] && t.nodes[c].edge[0] == k
  }

  /** A single tree rooted at node 0, whose nodes' workers shrink on the way down. */
  ghost predicate IsTree(t: Tree) {
    && |t.nodes| == |t.paths| == |t.parent| && |t.nodes| > 0
    && t.paths[0] == [] && t.nodes[0].edge == []
    && (forall c {:trigger Hangs(t, c)} | 0 < c < |t.nodes| :: Hangs(t, c))
    && (forall p, k {:trigger Linked(t, p, k)} | 0 <= p < |t.nodes| && k in t.nodes[p].children ::
          Linked(t, p, k))
  }

  /** Some node of worker `w` continues or equals `s`. */
  ghost predicate Knows(t: Tree, w: Worker, s: seq<Token>)
    requires |t.nodes| == |t.paths|
  {
    exists c :: 0 <= c < |t.nodes| && w in t.nodes[c].workers && s <= t.paths[c]
  }

  // ----------------------------------------------------------------- shape

  lemma ParentIsShorter(t: Tree, c: nat)
    requires IsTree(t) && 0 < c < |t.nodes|
    ensures t.parent[c] < |t.nodes| && |t.paths[t.parent[c]]| < |t.paths[c]|
    ensures t.paths[t.parent[c]] <= t.paths[c] && Hangs(t, c)
  {
    assert Hangs(t, c);
  }

  lemma {:induction false} WorkersReachRoot(t: Tree, c: nat)
    requires IsTree(t) && c < |t.nodes|
    ensures t.nodes[c].workers <= t.nodes[0].workers
    decreases |t.paths[c]|
  {
    if c > 0 {
      ParentIsShorter(t, c);
      WorkersReachRoot(t, t.parent[c]);
    }
  }

  /** If the path of `d` runs on below node `u`, then it runs through the child of `u` it names. */
  lemma {:induction false} RunsThroughChild(t: Tree, u: nat, d: nat)
    requires IsTree(t) && u < |t.nodes| && d < |t.nodes|
    requires t.paths[u] <= t.paths[d] && |t.paths[u]| < |t.paths[d]|
    ensures var k := t.paths[d][|t.paths[u]|];
      && k in t.nodes[u].children
      && t.nodes[u].children[k] < |t.nodes|
      && t.paths[t.nodes[u].children[k]] <= t.paths[d]
      && t.nodes[d].workers <= t.nodes[t.nodes[u].children[k]].workers
    decreases |t.paths[d]|, 1
  {
    ParentIsShorter(t, d);
    var p := t.parent[d];
    var k := t.paths[d][|t.paths[u]|];
    if p != u {
      if |t.paths[p]| > |t.paths[u]| {
        assert t.paths[u] == t.paths[d][..|t.paths[u]|] == t.paths[p][..|t.paths[u]|];
        RunsThroughChild(t, u, p);
      } else if |t.paths[p]| == |t.paths[u]| {
        assert t.paths[u] == t.paths[d][..|t.paths[u]|] == t.paths[p];
        PathsDiffer(t, u, p);
      } else {
        assert t.paths[p] == t.paths[d][..|t.paths[p]|] == t.paths[u][..|t.paths[p]|];
        RunsThroughChild(t, p, u);
      }
    }
  }

  /** Different nodes have different paths. */
  lemma {:induction false} PathsDiffer(t: Tree, a: nat, b: nat)
    requires IsTree(t) && a < |t.nodes| && b < |t.nodes|
    ensures t.paths[a] == t.paths[b] ==> a == b
    decreases |t.paths[a]|, 2
  {
    if t.paths[a] == t.paths[b] && a > 0 && b > 0 {
      ParentIsShorter(t, a);
      ParentIsShorter(t, b);
      var p, q := t.parent[a], t.parent[b];
      if |t.paths[p]| == |t.paths[q]| {
        assert t.paths[p] == t.paths[a][..|t.paths[p]|] == t.paths[q];
        PathsDiffer(t, p, q);
      } else if |t.paths[p]| < |t.paths[q]| {
        assert t.paths[p] == t.paths[a][..|t.paths[p]|] == t.paths[q][..|t.paths[p]|];
        RunsThroughChild(t, p, q);
      } else {
        assert t.paths[q] == t.paths[a][..|t.paths[q]|] == t.paths[p][..|t.paths[q]|];
        RunsThroughChild(t, q, p);
      }
    } else {
      if a > 0 {
        ParentIsShorter(t, a);
      }
      if b > 0 {
        ParentIsShorter(t, b);
      }
    }
  }

  // --------------------------------------------------------------- changes

  /** Shortens the edge of `c` to `at` tokens; the tail becomes a new node with the old children. */
  function SplitTree(t: Tree, c: nat, at: nat, now: real): Tree
    requires |t.nodes| == |t.paths| == |t.parent|
    requires c < |t.nodes| && t.parent[c] < |t.nodes| && 0 < at < |t.nodes[c].edge|
  {
    var n := |t.nodes|;
    var node := t.nodes[c];
    var tail := Node(node.edge[at..], node.children, node.workers, now);
    Tree(
      t.nodes[c := node.(edge := node.edge[..at], children := map[node.edge[at] := n])] + [tail],
      t.paths[c := t.paths[t.parent[c]] + node.edge[..at]] + [t.paths[c]],
      seq(n, i requires 0 <= i < n => if i > 0 && t.parent[i] == c then n else t.parent[i]) + [c])
  }

  /** Marks node `c` as held by `w` and used now. */
  function TouchTree(t: Tree, c: nat, w: Worker, now: real): Tree
    requires c < |t.nodes|
  {
    t.(nodes := t.nodes[c := t.nodes[c].(workers := t.nodes[c].workers + {w}, last := now)])
  }

  /** Hangs a new node with edge `edge` below `c`. */
  function GrowTree(t: Tree, c: nat, edge: seq<Token>, w: Worker, now: real): Tree
    requires c < |t.nodes| && c < |t.paths| && edge != []
  {
    var n := |t.nodes|;
    Tree(
      t.nodes[c := t.nodes[c].(children := t.nodes[c].children[edge[0] := n])]
        + [Node(edge, map[], {w}, now)],
      t.paths + [t.paths[c] + edge],
      t.parent + [c])
  }

  lemma SplitKeepsTree(t: Tree, c: nat, at: nat, now: real)
    requires IsTree(t) && 0 < c < |t.nodes| && Hangs(t, c) && 0 < at < |t.nodes[c].edge|
    ensures IsTree(SplitTree(t, c, at, now))
  {
    var u := SplitTree(t, c, at, now);
    var n := |t.nodes|;
    ParentIsShorter(t, c);
    assert Linked(t, t.parent[c], t.nodes[c].edge[0]);
    forall i {:trigger Hangs(u, i)} | 0 < i < |u.nodes| ensures Hangs(u, i) {
      if i < n {
        assert Hangs(t, i);
        assert Linked(t, t.parent[i], t.nodes[i].edge[0]);
      } else {
        var e := t.nodes[c].edge;
        assert e == e[..at] + e[at..];
        assert u.paths[n] == t.paths[t.parent[c]] + e == u.paths[c] + e[at..];
      }
    }
    forall p, k {:trigger Linked(u, p, k)} | 0 <= p < |u.nodes| && k in u.nodes[p].children
      ensures Linked(u, p, k)
    {
      if p == n {
        assert Linked(t, c, k);
      } else if p != c {
        assert Linked(t, p, k);
      }
    }
  }

  lemma SplitKeepsKnowledge(t: Tree, c: nat, at: nat, now: real, w: Worker, s: seq<Token>)
    requires IsTree(t) && 0 < c < |t.nodes| && Hangs(t, c) && 0 < at < |t.nodes[c].edge|
    ensures Knows(SplitTree(t, c, at, now), w, s) <==> Knows(t, w, s)
  {
    var u := SplitTree(t, c, at, now);
    var n := |t.nodes|;
    if Knows(t, w, s) {
      var i :| 0 <= i < n && w in t.nodes[i].workers && s <= t.paths[i];
      var j := if i == c then n else i;
      assert w in u.nodes[j].workers && s <= u.paths[j];
    }
    if Knows(u, w, s) {
      var j :| 0 <= j < n + 1 && w in u.nodes[j].workers && s <= u.paths[j];
      var i := if j == n then c else j;
      assert u.paths[c] <= t.paths[c] by {
        var e := t.nodes[c].edge;
        assert t.paths[c] == u.paths[c] + e[at..];
      }
      assert w in t.nodes[i].workers && s <= t.paths[i];
    }
  }

  lemma TouchKeepsTree(t: Tree, c: nat, w: Worker, now: real)
    requires IsTree(t) && c < |t.nodes|
    requires c > 0 ==> t.parent[c] < |t.nodes| && w in t.nodes[t.parent[c]].workers
    ensures IsTree(TouchTree(t, c, w, now))
  {
    var u := TouchTree(t, c, w, now);
    forall i {:trigger Hangs(u, i)} | 0 < i < |u.nodes| ensures Hangs(u, i) {
      assert Hangs(t, i);
    }
    forall p, k {:trigger Linked(u, p, k)} | 0 <= p < |u.nodes| && k in u.nodes[p].children
      ensures Linked(u, p, k)
    {
      assert Linked(t, p, k);
    }
  }

  lemma TouchAddsKnowledge(t: Tree, c: nat, w: Worker, now: real, v: Worker, s: seq<Token>)
    requires IsTree(t) && c < |t.nodes|
    ensures Knows(TouchTree(t, c, w, now), v, s)
      <==> Knows(t, v, s) || (v == w && s <= t.paths[c])
  {
    var u := TouchTree(t, c, w, now);
    if Knows(t, v, s) {
      var i :| 0 <= i < |t.nodes| && v in t.nodes[i].workers && s <= t.paths[i];
      assert v in u.nodes[i].workers;
    }
    if v == w && s <= t.paths[c] {
      assert v in u.nodes[c].workers;
    }
  }

  lemma GrowKeepsTree(t: Tree, c: nat, edge: seq<Token>, w: Worker, now: real)
    requires IsTree(t) && c < |t.nodes| && edge != [] && edge[0] !in t.nodes[c].children
    requires w in t.nodes[c].workers
    ensures IsTree(GrowTree(t, c, edge, w, now))
  {
    var u := GrowTree(t, c, edge, w, now);
    forall i {:trigger Hangs(u, i)} | 0 < i < |u.nodes| ensures Hangs(u, i) {
      if i < |t.nodes| {
        assert Hangs(t, i);
      }
    }
    forall p, k {:trigger Linked(u, p, k)} | 0 <= p < |u.nodes| && k in u.nodes[p].children
      ensures Linked(u, p, k)
    {
      if p < |t.nodes| && k in t.nodes[p].children {
        assert Linked(t, p, k);
      }
    }
  }

  lemma GrowAddsKnowledge(t: Tree, c: nat, edge: seq<Token>, w: Worker, now: real, v: Worker, s: seq<Token>)
    requires IsTree(t) && c < |t.nodes| && edge != []
    ensures Knows(GrowTree(t, c, edge, w, now), v, s)
      <==> Knows(t, v, s) || (v == w && s <= t.paths[c] + edge)
  {
    var u := GrowTree(t, c, edge, w, now);
    if Knows(t, v, s) {
      var i :| 0 <= i < |t.nodes| && v in t.nodes[i].workers && s <= t.paths[i];
      assert v in u.nodes[i].workers && s <= u.paths[i];
    }
    if v == w && s <= t.paths[c] + edge {
      assert v in u.nodes[|t.nodes|].workers && s <= u.paths[|t.nodes|];
    }
  }

  // -------------------------------------------------------------- freshness

  /** No node was used after its parent. */
  ghost predicate ParentsFresher(t: Tree)
    requires |t.nodes| == |t.parent|
  {
    forall c | 0 < c < |t.nodes| ::
      t.parent[c] < |t.nodes| && t.nodes[c].last <= t.nodes[t.parent[c]].last
  }

  ghost predicate UsedBy(t: Tree, now: real) {
    forall c | 0 <= c < |t.nodes| :: t.nodes[c].last <= now
  }

  /** Some node of worker `w` that continues or equals `s` was used at `at` or later. */
  ghost predicate Since(t: Tree, w: Worker, s: seq<Token>, at: real)
    requires |t.nodes| == |t.paths|
  {
    exists c :: 0 <= c < |t.nodes| && w in t.nodes[c].workers && s <= t.paths[c] && at <= t.nodes[c].last
  }

  /** Whatever was used by `now` is still known, and was used no earlier. */
  ghost predicate KeepsUse(t: Tree, u: Tree, now: real)
    requires |t.nodes| == |t.paths| && |u.nodes| == |u.paths|
  {
    forall w, s, at | Since(t, w, s, at) && at <= now :: Since(u, w, s, at)
  }

  /** What is not used now has the path, the edge, the workers and the time it had. */
  ghost predicate Renewed(t: Tree, u: Tree, now: real)
    requires |t.nodes| == |t.paths| && |u.nodes| == |u.paths|
  {
    forall c: nat | c < |u.nodes| :: RenewedAt(t, u, now, c)
  }

  ghost predicate RenewedAt(t: Tree, u: Tree, now: real, c: nat)
    requires |t.nodes| == |t.paths| && |u.nodes| == |u.paths| && c < |u.nodes|
  {
    || u.nodes[c].last == now
    || (c < |t.nodes| && u.paths[c] == t.paths[c]
        && u.nodes[c] == t.nodes[c].(children := u.nodes[c].children))
  }

  /** Both, which is what any part of an insertion does. */
  ghost predicate Keeps(t: Tree, u: Tree, now: real)
    requires |t.nodes| == |t.paths| && |u.nodes| == |u.paths|
  {
    KeepsUse(t, u, now) && Renewed(t, u, now)
  }

  lemma KeepsTwice(t: Tree, u: Tree, v: Tree, now: real)
    requires |t.nodes| == |t.paths| && |u.nodes| == |u.paths| && |v.nodes| == |v.paths|
    requires KeepsUse(t, u, now) && KeepsUse(u, v, now)
    ensures KeepsUse(t, v, now)
    ensures Renewed(t, u, now) && Renewed(u, v, now) ==> Keeps(t, v, now)
  {
    if Renewed(t, u, now) && Renewed(u, v, now) {
      forall c: nat | c < |v.nodes| ensures RenewedAt(t, v, now, c) {
        assert RenewedAt(u, v, now, c);
        if c < |u.nodes| {
          assert RenewedAt(t, u, now, c);
        }
      }
    }
  }

  lemma SplitKeepsUse(t: Tree, c: nat, at: nat, now: real)
    requires IsTree(t) && 0 < c < |t.nodes| && Hangs(t, c) && 0 < at < |t.nodes[c].edge|
    ensures KeepsUse(t, SplitTree(t, c, at, now), now)
  {
    var u := SplitTree(t, c, at, now);
    forall w, s, used | Since(t, w, s, used) && used <= now ensures Since(u, w, s, used) {
      var i :| 0 <= i < |t.nodes| && w in t.nodes[i].workers && s <= t.paths[i] && used <= t.nodes[i].last;
      var j := if i == c then |t.nodes| else i;
      assert w in u.nodes[j].workers && s <= u.paths[j] && used <= u.nodes[j].last;
    }
  }

  lemma TouchKeepsUse(t: Tree, c: nat, w: Worker, now: real)
    requires IsTree(t) && c < |t.nodes|
    ensures Keeps(t, TouchTree(t, c, w, now), now)
  {
    var u := TouchTree(t, c, w, now);
    forall v, s, used | Since(t, v, s, used) && used <= now ensures Since(u, v, s, used) {
      var i :| 0 <= i < |t.nodes| && v in t.nodes[i].workers && s <= t.paths[i] && used <= t.nodes[i].last;
      assert v in u.nodes[i].workers && s <= u.paths[i] && used <= u.nodes[i].last;
    }
  }

  lemma GrowKeepsUse(t: Tree, c: nat, edge: seq<Token>, w: Worker, now: real)
    requires IsTree(t) && c < |t.nodes| && edge != []
    ensures var u := GrowTree(t, c, edge, w, now);
      Keeps(t, u, now) && Since(u, w, t.paths[c] + edge, now)
  {
    var u := GrowTree(t, c, edge, w, now);
    forall v, s, used | Since(t, v, s, used) && used <= now ensures Since(u, v, s, used) {
      var i :| 0 <= i < |t.nodes| && v in t.nodes[i].workers && s <= t.paths[i] && used <= t.nodes[i].last;
      assert v in u.nodes[i].workers && s <= u.paths[i] && used <= u.nodes[i].last;
    }
    var n := |t.nodes|;
    assert w in u.nodes[n].workers && u.paths[n] == t.paths[c] + edge && now <= u.nodes[n].last;
  }

  lemma UsedHere(t: Tree, c: nat, w: Worker, now: real)
    requires |t.nodes| == |t.paths| && c < |t.nodes| && w in t.nodes[c].workers && t.nodes[c].last == now
    ensures Since(t, w, t.paths[c], now)
  {
  }

  // ---------------------------------------------------------------- removal

  /** Unlinks node `v` from its parent. */
  function Unlink(t: Tree, v: nat): seq<Node>
    requires |t.nodes| == |t.parent|
    requires v < |t.nodes| && t.parent[v] < |t.nodes| && t.nodes[v].edge != []
  {
    var p, k := t.parent[v], t.nodes[v].edge[0];
    t.nodes[p := t.nodes[p].(children := t.nodes[p].children - {k})]
  }

  /** Removes leaf `v`; the last node moves into its slot. */
  function DetachTree(t: Tree, v: nat): Tree
    requires IsTree(t) && 0 < v < |t.nodes| && Hangs(t, v) && Hangs(t, |t.nodes| - 1)
  {
    var l := |t.nodes| - 1;
    var cut := Unlink(t, v);
    var q, k := t.parent[l], t.nodes[l].edge[0];
    var moved := if v == l then cut else cut[q := cut[q].(children := cut[q].children[k := v])];
    Tree(
      moved[v := moved[l]][..l],
      t.paths[v := t.paths[l]][..l],
      seq(l, j requires 0 <= j < l => Renamed(t, v, t.parent[Origin(t, v, j)])))
  }

  /** Where the node now at `j` was before `v` was removed. */
  function Origin(t: Tree, v: nat, j: nat): (i: nat)
    requires j < |t.nodes| - 1
    ensures i < |t.nodes|
  {
    if j == v then |t.nodes| - 1 else j
  }

  /** The new index of old node `i`. */
  function Renamed(t: Tree, v: nat, i: nat): nat {
    if i + 1 == |t.nodes| then v else i
  }

  lemma DetachedNode(t: Tree, v: nat, j: nat)
    requires IsTree(t) && 0 < v < |t.nodes| && Hangs(t, v) && Hangs(t, |t.nodes| - 1)
    requires t.nodes[v].children == map[] && j < |t.nodes| - 1
    ensures var u, i := DetachTree(t, v), Origin(t, v, j);
      && u.paths[j] == t.paths[i] && u.parent[j] == Renamed(t, v, t.parent[i])
      && u.nodes[j] == t.nodes[i].(children := u.nodes[j].children)
      && (forall k :: k in u.nodes[j].children <==>
            k in t.nodes[i].children && t.nodes[i].children[k] != v)
      && (forall k | k in u.nodes[j].children ::
            u.nodes[j].children[k] == Renamed(t, v, t.nodes[i].children[k]))
  {
    var u, i := DetachTree(t, v), Origin(t, v, j);
    var l := |t.nodes| - 1;
    forall k
      ensures k in u.nodes[j].children <==>
                k in t.nodes[i].children && t.nodes[i].children[k] != v
      ensures k in u.nodes[j].children ==>
                u.nodes[j].children[k] == Renamed(t, v, t.nodes[i].children[k])
    {
      if k in t.nodes[i].children {
        assert Linked(t, i, k);
      }
    }
  }

  lemma DetachKeepsTree(t: Tree, v: nat)
    requires IsTree(t) && 0 < v < |t.nodes| && Hangs(t, v) && Hangs(t, |t.nodes| - 1)
    requires t.nodes[v].children == map[]
    ensures IsTree(DetachTree(t, v))
  {
    var u := DetachTree(t, v);
    var l := |t.nodes| - 1;
    DetachedNode(t, v, 0);
    forall j {:trigger Hangs(u, j)} | 0 < j < |u.nodes| ensures Hangs(u, j) {
      var i := Origin(t, v, j);
      assert Hangs(t, i);
      var p := t.parent[i];
      assert p != v;
      DetachedNode(t, v, j);
      DetachedNode(t, v, Renamed(t, v, p));
    }
    DetachKeepsLinks(t, v);
  }

  lemma DetachKeepsLinks(t: Tree, v: nat)
    requires IsTree(t) && 0 < v < |t.nodes| && Hangs(t, v) && Hangs(t, |t.nodes| - 1)
    requires t.nodes[v].children == map[]
    ensures var u := DetachTree(t, v);
      forall p, k {:trigger Linked(u, p, k)} | 0 <= p < |u.nodes| && k in u.nodes[p].children ::
        Linked(u, p, k)
  {
    var u := DetachTree(t, v);
    forall p, k {:trigger Linked(u, p, k)} | 0 <= p < |u.nodes| && k in u.nodes[p].children
      ensures Linked(u, p, k)
    {
      DetachedNode(t, v, p);
      var i := Origin(t, v, p);
      assert Linked(t, i, k);
      var c := t.nodes[i].children[k];
      DetachedNode(t, v, Renamed(t, v, c));
    }
  }

  /** A node as a visitor to the tree sees it. */
  datatype Entry = Entry(path: seq<Token>, edge: seq<Token>, workers: set<Worker>, last: real)

  function EntryOf(t: Tree, i: nat): Entry
    requires |t.nodes| == |t.paths| && i < |t.nodes|
  {
    Entry(t.paths[i], t.nodes[i].edge, t.nodes[i].workers, t.nodes[i].last)
  }

  ghost function View(t: Tree): set<Entry>
    requires |t.nodes| == |t.paths|
  {
    set i | 0 <= i < |t.nodes| :: EntryOf(t, i)
  }

  /** Removing a leaf takes exactly its entry out of the view. */
  lemma DetachView(t: Tree, v: nat)
    requires IsTree(t) && 0 < v < |t.nodes| && Hangs(t, v) && Hangs(t, |t.nodes| - 1)
    requires t.nodes[v].children == map[]
    ensures View(DetachTree(t, v)) == View(t) - {EntryOf(t, v)}
  {
    var u := DetachTree(t, v);
    forall e ensures e in View(u) <==> e in View(t) && e != EntryOf(t, v) {
      if e in View(u) {
        var j :| 0 <= j < |u.nodes| && e == EntryOf(u, j);
        DetachedNode(t, v, j);
        PathsDiffer(t, Origin(t, v, j), v);
        assert e == EntryOf(t, Origin(t, v, j));
      }
      if e in View(t) && e != EntryOf(t, v) {
        var i :| 0 <= i < |t.nodes| && e == EntryOf(t, i);
        var j := Renamed(t, v, i);
        DetachedNode(t, v, j);
        assert e == EntryOf(u, j);
      }
    }
  }

  lemma DetachKeepsFresher(t: Tree, v: nat)
    requires IsTree(t) && 0 < v < |t.nodes| && Hangs(t, v) && Hangs(t, |t.nodes| - 1)
    requires t.nodes[v].children == map[] && ParentsFresher(t)
    ensures ParentsFresher(DetachTree(t, v))
  {
    var u := DetachTree(t, v);
    forall j | 0 < j < |u.nodes|
      ensures u.parent[j] < |u.nodes| && u.nodes[j].last <= u.nodes[u.parent[j]].last
    {
      var i := Origin(t, v, j);
      assert Hangs(t, i);
      DetachedNode(t, v, j);
      assert t.parent[i] != v;
      DetachedNode(t, v, Renamed(t, v, t.parent[i]));
    }
  }

  // ------------------------------------------------------------ stale nodes

  ghost predicate Stale(n: Node, now: real, ttl: real) { now - n.last > ttl }

  lemma {:induction false} LongestPath(paths: seq<seq<Token>>) returns (m: nat)
    ensures forall p | p in paths :: |p| <= m
  {
    if paths == [] {
      m := 0;
    } else {
      m := LongestPath(paths[1..]);
      m := if |paths[0]| > m then |paths[0]| else m;
    }
  }

  /** Below a stale node there is a stale leaf. */
  lemma {:induction false} StaleLeafBelow(t: Tree, c: nat, now: real, ttl: real, m: nat) returns (leaf: nat)
    requires IsTree(t) && ParentsFresher(t) && 0 < c < |t.nodes| && Stale(t.nodes[c], now, ttl)
    requires forall p | p in t.paths :: |p| <= m
    ensures 0 < leaf < |t.nodes| && t.nodes[leaf].children == map[] && Stale(t.nodes[leaf], now, ttl)
    decreases m - |t.paths[c]|
  {
    if t.nodes[c].children == map[] {
      leaf := c;
    } else {
      var k :| k in t.nodes[c].children;
      assert Linked(t, c, k);
      var d := t.nodes[c].children[k];
      ParentIsShorter(t, d);
      assert t.paths[d] in t.paths;
      leaf := StaleLeafBelow(t, d, now, ttl, m);
    }
  }
}
