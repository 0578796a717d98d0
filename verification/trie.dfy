/** The trie that both kinds of routing rule use: built in place node by node, proved against a plain
    table from paths to routes, and the naive scan of such a table. CIDR rules use paths of bits,
    wildcard domains use paths of labels from the top-level domain down. */
module Tries {
  import opened Options

  type Route = string

  // ---- the table a trie stands for -------------------------------------------------------------

  type Table<K(==)> = map<seq<K>, Route>

  /** The length of the longest rule that starts the path, no longer than `n`. */
  function LongestUpTo<K(==)>(table: Table<K>, path: seq<K>, n: nat): (r: Option<nat>)
    requires n <= |path|
    ensures r.Some? ==> r.value <= n && path[..r.value] in table
    ensures forall p :: p in table && p <= path && |p| <= n ==> r.Some? && |p| <= r.value
  {
    if path[..n] in table then Some(n) else if n == 0 then None else
      assert forall p :: p in table && p <= path ==> p == path[..|p|];
      LongestUpTo(table, path, n - 1)
  }

  /** The naive scan: length and route of the longest rule that matches with at most `n` steps. */
  function Longest<K(==)>(table: Table<K>, path: seq<K>, n: nat): Option<(nat, Route)>
    requires n <= |path|
  {
    var r := LongestUpTo(table, path, n);
    if r.None? then None else Some((r.value, table[path[..r.value]]))
  }

  ghost predicate Matches<K(!new)>(table: Table<K>, path: seq<K>, n: nat, p: seq<K>) {
    p in table && p <= path && |p| <= n
  }

  /** `Longest` is a match that no other match exceeds, and it is found whenever there is a match. */
  lemma LongestIsBest<K(!new)>(table: Table<K>, path: seq<K>, n: nat)
    requires n <= |path|
    ensures Longest(table, path, n).Some? <==> exists p :: Matches(table, path, n, p)
    ensures Longest(table, path, n).Some? ==>
              var (m, route) := Longest(table, path, n).value;
              && m <= n && Matches(table, path, n, path[..m]) && table[path[..m]] == route
              && forall p :: Matches(table, path, n, p) ==> |p| <= m
  {
    var r := LongestUpTo(table, path, n);
    if r.Some? {
      assert Matches(table, path, n, path[..r.value]);
    }
  }

  // ---- the table after a list of inserts -----------------------------------------------------------

  /** A rule as a list of inserts gives it: its path, or none when the insert is rejected. */
  type Entry<K(==)> = (Option<seq<K>>, Route)

  function WithEntry<K(==)>(table: Table<K>, e: Entry<K>): Table<K> {
    if e.0.None? then table else table[e.0.value := e.1]
  }

  function TableOf<K(==)>(entries: seq<Entry<K>>): Table<K> {
    if entries == [] then map[] else
      var n := |entries| - 1;
      WithEntry(TableOf(entries[..n]), entries[n])
  }

  ghost predicate EntryAt<K(!new)>(entries: seq<Entry<K>>, i: int, p: seq<K>) {
    0 <= i < |entries| && entries[i].0 == Some(p)
  }

  /** Entry `i` is the last one inserted for path `p`. */
  ghost predicate LastAt<K(!new)>(entries: seq<Entry<K>>, i: int, p: seq<K>) {
    EntryAt(entries, i, p) && forall j :: i < j < |entries| ==> !EntryAt(entries, j, p)
  }

  lemma {:induction false} LastInsertWins<K(!new)>(entries: seq<Entry<K>>, p: seq<K>)
    ensures p in TableOf(entries) <==> exists i :: LastAt(entries, i, p)
    ensures forall i :: LastAt(entries, i, p) && p in TableOf(entries) ==> TableOf(entries)[p] == entries[i].1
    ensures (exists i :: EntryAt(entries, i, p)) ==> p in TableOf(entries)
  {
    if entries != [] {
      var n := |entries| - 1;
      var front := entries[..n];
      LastInsertWins(front, p);
      assert forall i :: i < n ==> (EntryAt(front, i, p) <==> EntryAt(entries, i, p));
      if EntryAt(entries, n, p) {
        assert LastAt(entries, n, p);
        assert forall i :: LastAt(entries, i, p) ==> i == n;
      } else {
        assert forall i :: LastAt(entries, i, p) <==> LastAt(front, i, p);
      }
    }
  }

  ghost predicate Covers<K(!new)>(entries: seq<Entry<K>>, i: int, path: seq<K>, n: nat) {
    0 <= i < |entries| && entries[i].0.Some? && entries[i].0.value <= path && |entries[i].0.value| <= n
  }

  /** The scan after any list of inserts: the longest path that covers the key, with the route inserted
      last for it; none exactly when nothing covers it. */
  lemma ScanIsLongestEntry<K(!new)>(entries: seq<Entry<K>>, path: seq<K>, n: nat)
    requires n <= |path|
    ensures Longest(TableOf(entries), path, n).Some? <==> exists i :: Covers(entries, i, path, n)
    ensures Longest(TableOf(entries), path, n).Some? ==>
              var (m, route) := Longest(TableOf(entries), path, n).value;
              && m <= n
              && (exists i :: LastAt(entries, i, path[..m]) && entries[i].1 == route)
              && (forall i :: Covers(entries, i, path, n) ==> |entries[i].0.value| <= m)
  {
    var table := TableOf(entries);
    LongestIsBest(table, path, n);
    forall i | Covers(entries, i, path, n) ensures Matches(table, path, n, entries[i].0.value) {
      LastInsertWins(entries, entries[i].0.value);
      assert EntryAt(entries, i, entries[i].0.value);
    }
    if Longest(table, path, n).Some? {
      var (m, route) := Longest(table, path, n).value;
      LastInsertWins(entries, path[..m]);
      var i :| LastAt(entries, i, path[..m]);
      assert Covers(entries, i, path, n);
    }
  }

  ghost predicate DistinctEntries<K(!new)>(entries: seq<Entry<K>>) {
    forall i, j :: 0 <= i < j < |entries| && entries[i].0.Some? ==> entries[i].0 != entries[j].0
  }

  /** For distinct paths the order of the inserts does not matter. */
  lemma AnyOrder<K(!new)>(a: seq<Entry<K>>, b: seq<Entry<K>>)
    requires DistinctEntries(a) && DistinctEntries(b)
    requires forall e: Entry<K> :: e.0.Some? ==> (e in a <==> e in b)
    ensures TableOf(a) == TableOf(b)
  {
    forall p ensures p in TableOf(a) ==> p in TableOf(b) && TableOf(b)[p] == TableOf(a)[p] {
      SameEntry(a, b, p);
    }
    forall p ensures p in TableOf(b) ==> p in TableOf(a) {
      SameEntry(b, a, p);
    }
  }

  lemma SameEntry<K(!new)>(a: seq<Entry<K>>, b: seq<Entry<K>>, p: seq<K>)
    requires DistinctEntries(b) && forall e: Entry<K> :: e.0.Some? && e in a ==> e in b
    ensures p in TableOf(a) ==> p in TableOf(b) && TableOf(b)[p] == TableOf(a)[p]
  {
    LastInsertWins(a, p);
    LastInsertWins(b, p);
    if p in TableOf(a) {
      var i :| LastAt(a, i, p);
      assert a[i] in b;
      var j :| 0 <= j < |b| && b[j] == a[i];
      assert LastAt(b, j, p);
    }
  }

  // ---- the nodes ----------------------------------------------------------------------------

  class Node<K(==, !new)> {
    var children: map<K, Node<K>>
    var route: Route
    var hasRoute: bool
    ghost const path: seq<K>

    constructor (ghost path: seq<K>)
      ensures children == map[] && !hasRoute && this.path == path
    {
      children, route, hasRoute := map[], "", false;
      this.path := path;
    }
  }

  /** The path one step below `p`. */
  ghost function Below<K>(p: seq<K>, k: K): seq<K> {
    p + [k]
  }

  ghost predicate PrefixClosed<K(!new)>(paths: set<seq<K>>) {
    forall p, k :: Below(p, k) in paths ==> p in paths
  }

  lemma {:induction false} PrefixIn<K(!new)>(paths: set<seq<K>>, p: seq<K>, n: nat)
    requires PrefixClosed(paths) && p in paths && n <= |p|
    ensures p[..n] in paths
    decreases |p|
  {
    if n == |p| {
      assert p[..n] == p;
    } else {
      assert p == Below(p[..|p| - 1], p[|p| - 1]);
      PrefixIn(paths, p[..|p| - 1], n);
      assert p[..|p| - 1][..n] == p[..n];
    }
  }

  lemma ClosedUnderChild<K(!new)>(paths: set<seq<K>>, p: seq<K>, k: K)
    requires PrefixClosed(paths) && p in paths
    ensures PrefixClosed(paths + {Below(p, k)})
  {
    forall q, l | Below(q, l) in paths + {Below(p, k)} ensures q in paths {
      SameChild(q, l, p, k);
    }
  }

  lemma SameChild<K>(p: seq<K>, k: K, q: seq<K>, l: K)
    ensures Below(p, k) == Below(q, l) <==> p == q && k == l
    ensures Below(p, k) != []
  {
    if Below(p, k) == Below(q, l) {
      assert p == Below(p, k)[..|p|];
      assert q == Below(q, l)[..|q|];
      assert k == Below(p, k)[|p|];
    }
  }

  /** The node at `p` has exactly the children that stand one step below it. */
  ghost predicate LinkedTo<K(!new)>(at: map<seq<K>, Node<K>>, p: seq<K>, children: map<K, Node<K>>) {
    && (forall k :: k in children <==> Below(p, k) in at)
    && (forall k :: k in children ==> children[k] == at[Below(p, k)])
  }

  /** Every prefix of a path with a node has one, and the nodes know their own paths. */
  ghost predicate ShapeOf<K(!new)>(root: Node<K>, at: map<seq<K>, Node<K>>, nodes: set<Node<K>>, rules: Table<K>) {
    && [] in at && at[[]] == root
    && PrefixClosed(at.Keys)
    && rules.Keys <= at.Keys
    && (forall p {:trigger at[p]} :: p in at ==> at[p] in nodes && at[p].path == p)
  }

  lemma ShapeAfter<K(!new)>(root: Node<K>, at: map<seq<K>, Node<K>>, nodes: set<Node<K>>, rules: Table<K>,
                            child: Node<K>, path: seq<K>, k: K)
    requires ShapeOf(root, at, nodes, rules) && path in at && child.path == Below(path, k) && child.path !in at
    ensures ShapeOf(root, at[child.path := child], nodes + {child}, rules)
  {
    ClosedUnderChild(at.Keys, path, k);
    assert at[child.path := child].Keys == at.Keys + {child.path};
    SameChild(path, k, path, k);
  }

  lemma LinkedAfter<K(!new)>(at: map<seq<K>, Node<K>>, child: Node<K>, path: seq<K>, k: K)
    requires PrefixClosed(at.Keys) && Below(path, k) !in at
    ensures LinkedTo(at[Below(path, k) := child], Below(path, k), map[])
    ensures forall p, c: map<K, Node<K>> :: p != path && LinkedTo(at, p, c) ==>
              LinkedTo(at[Below(path, k) := child], p, c)
    ensures forall c: map<K, Node<K>> :: LinkedTo(at, path, c) ==>
              LinkedTo(at[Below(path, k) := child], path, c[k := child])
  {
    var key := Below(path, k);
    var after := at[key := child];
    forall l ensures Below(key, l) !in after {
      SameChild(path, k, key, l);
    }
    forall p, l ensures Below(p, l) == key <==> p == path && l == k {
      SameChild(p, l, path, k);
    }
    forall p, c: map<K, Node<K>> | p != path && LinkedTo(at, p, c) ensures LinkedTo(after, p, c) {
      assert forall l :: Below(p, l) in after <==> Below(p, l) in at;
    }
    forall c: map<K, Node<K>> | LinkedTo(at, path, c) ensures LinkedTo(after, path, c[k := child]) {
      assert forall l :: Below(path, l) in after <==> Below(path, l) in at || l == k;
    }
  }

  /** A trie with a root. The ghost fields say which node stands at which path and which rules it holds. */
  class Trie<K(==, !new)> {
    const root: Node<K>
    ghost var at: map<seq<K>, Node<K>>
    ghost var nodes: set<Node<K>>
    ghost var rules: Table<K>

    ghost predicate RouteOk(p: seq<K>)
      requires p in at
      reads this, at[p]
    {
      && (at[p].hasRoute <==> p in rules)
      && (p in rules ==> rules[p] == at[p].route)
    }

    ghost predicate Linked(p: seq<K>)
      requires p in at
      reads this, at[p]
    {
      LinkedTo(at, p, at[p].children)
    }

    ghost predicate Shape()
      reads this
    {
      ShapeOf(root, at, nodes, rules)
    }

    ghost predicate Valid()
      reads this, nodes
    {
      && Shape()
      && (forall p {:trigger Linked(p)} :: p in at ==> Linked(p))
      && (forall p {:trigger RouteOk(p)} :: p in at ==> RouteOk(p))
    }

    constructor ()
      ensures Valid() && fresh(nodes) && rules == map[]
    {
      root := new Node([]);
      at, nodes, rules := map[[] := root], {root}, map[];
      new;
      forall p | p in at ensures Linked(p) && RouteOk(p) {
        forall k: K ensures Below(p, k) !in at { SameChild(p, k, p, k); }
      }
    }

    /** `node` is the node of `path`. */
    ghost predicate Here(node: Node<K>, path: seq<K>)
      reads this
    {
      node in nodes && node.path == path && path in at && at[path] == node
    }

    /** What a walk sees one step below: the child, if that path has a node, and its rule, if it has one. */
    lemma ChildIs(node: Node<K>, path: seq<K>, k: K)
      requires Valid() && Here(node, path)
      ensures k in node.children <==> Below(path, k) in at
      ensures k in node.children ==>
                var child := node.children[k];
                && Here(child, Below(path, k))
                && (child.hasRoute <==> Below(path, k) in rules)
                && (child.hasRoute ==> rules[Below(path, k)] == child.route)
    {
      assert Linked(path);
      if k in node.children {
        assert RouteOk(Below(path, k));
      }
    }

    /** One turn of an insert loop: go to the child under `k`, making it when it is missing. */
    method Descend(node: Node<K>, k: K, ghost path: seq<K>) returns (child: Node<K>)
      requires Valid() && Here(node, path)
      modifies this`at, this`nodes, node
      ensures Valid() && fresh(nodes - old(nodes)) && rules == old(rules)
      ensures Here(child, Below(path, k))
    {
      assert Linked(node.path);
      if k in node.children {
        child := node.children[k];
      } else {
        child := new Node(Below(node.path, k));
        Link(node, k, child);
      }
    }

    /** A new node without rule or children is hung under `k`. */
    method Link(node: Node<K>, k: K, child: Node<K>)
      requires Valid() && node.path in at && at[node.path] == node && k !in node.children
      requires child !in nodes && child.path == Below(node.path, k) && child.children == map[] && !child.hasRoute
      modifies this`at, this`nodes, node`children
      ensures Valid() && at == old(at)[child.path := child] && nodes == old(nodes) + {child}
    {
      assert Linked(node.path);
      node.children := node.children[k := child];
      at := at[child.path := child];
      nodes := nodes + {child};
      ShapeAfter(root, old(at), old(nodes), rules, child, node.path, k);
      LinkedAfter(old(at), child, node.path, k);
      forall p | p in old(at) ensures Linked(p) && RouteOk(p) {
        assert old(Linked(p)) && old(RouteOk(p));
        assert at[p] == old(at)[p];
        if p != node.path {
          assert at[p] != node;
          assert at[p].children == old(at[p].children);
        }
      }
    }

    /** The end of an insert: the rule is put on its node. */
    method SetRoute(node: Node<K>, route: Route, ghost path: seq<K>)
      requires Valid() && Here(node, path)
      modifies this`rules, node`route, node`hasRoute
      ensures Valid() && nodes == old(nodes)
      ensures rules == old(rules)[path := route]
    {
      node.route := route;
      node.hasRoute := true;
      rules := rules[node.path := route];
      forall p | p in at ensures Linked(p) { assert old(Linked(p)); }
      forall p | p in at ensures RouteOk(p) { assert old(RouteOk(p)); }
    }

    /** No rule that starts the path and has at most `i` steps is longer than the best so far. */
    ghost predicate BestUpTo(path: seq<K>, i: nat, found: bool, best: nat)
      reads this
    {
      && (found ==> best <= i && best <= |path| && path[..best] in rules)
      && forall p :: Matches(rules, path, i, p) ==> found && |p| <= best
    }

    /** A missing child: no rule goes on along this path. */
    lemma NothingBelow(path: seq<K>, i: nat, n: nat, found: bool, best: nat)
      requires Shape() && i < |path| && i <= n && path[..i + 1] !in at && BestUpTo(path, i, found, best)
      ensures BestUpTo(path, n, found, best)
    {
      forall p | Matches(rules, path, n, p) ensures Matches(rules, path, i, p) {
        ShortWhenMissing(path, i, p);
      }
    }

    lemma ShortWhenMissing(path: seq<K>, i: nat, p: seq<K>)
      requires Shape() && i < |path| && p in at && p <= path && path[..i + 1] !in at
      ensures |p| <= i
    {
      var n := if |p| > i then i + 1 else 0;
      PrefixIn(at.Keys, p, n);
      assert p[..n] == path[..n];
    }

    /** Stepping to a node that is there: its own rule, if any, is the new best. */
    lemma OneFurther(path: seq<K>, i: nat, found: bool, best: nat)
      requires i < |path| && BestUpTo(path, i, found, best)
      ensures path[..i + 1] in rules ==> BestUpTo(path, i + 1, true, i + 1)
      ensures path[..i + 1] !in rules ==> BestUpTo(path, i + 1, found, best)
    {
      forall p | Matches(rules, path, i + 1, p) ensures p == path[..i + 1] || Matches(rules, path, i, p) {
        assert p == path[..|p|];
      }
    }

    lemma Conclude(path: seq<K>, n: nat, found: bool, best: nat)
      requires n <= |path| && BestUpTo(path, n, found, best)
      ensures found == Longest(rules, path, n).Some?
      ensures found ==> Longest(rules, path, n) == Some((best, rules[path[..best]]))
    {
      var r := LongestUpTo(rules, path, n);
      if found {
        assert Matches(rules, path, n, path[..best]);
      }
      if r.Some? {
        assert Matches(rules, path, n, path[..r.value]);
      }
    }
  }
}
