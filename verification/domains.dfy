/** Wildcard domain rules: host names as labels, and the label trie that `insertWildcard` builds and
    `lookupWildcard` walks, proved against a naive scan of the inserted patterns. */
module Domains {

  import opened Options
  import opened Tries

  // ---- names and labels --------------------------------------------------------------------------

  /** `strings.Split(s, ".")`. */
  function Split(s: string): (r: seq<string>)
    ensures |r| >= 1
  {
    if s == "" then [""]
    else if s[0] == '.' then [""] + Split(s[1..])
    else var r := Split(s[1..]); [[s[0]] + r[0]] + r[1..]
  }

  /** The labels with a dot between each two. */
  function Join(labels: seq<string>): string {
    if labels == [] then "" else if |labels| == 1 then labels[0] else labels[0] + "." + Join(labels[1..])
  }

  lemma {:induction false} JoinOfSplit(s: string)
    ensures Join(Split(s)) == s
  {
    if s != "" {
      JoinOfSplit(s[1..]);
      var r := Split(s[1..]);
      if s[0] == '.' {
        assert Split(s)[1..] == r;
      } else {
        assert Split(s)[1..] == r[1..];
      }
    }
  }

  lemma {:induction false} SplitAtDot(a: string, b: string)
    ensures Split(a + "." + b) == Split(a) + Split(b)
  {
    var s := a + "." + b;
    if a == "" {
      assert s[1..] == b;
    } else {
      assert s[1..] == a[1..] + "." + b;
      SplitAtDot(a[1..], b);
    }
  }

  lemma {:induction false} JoinOfBoth(a: seq<string>, b: seq<string>)
    requires a != [] && b != []
    ensures Join(a + b) == Join(a) + "." + Join(b)
  {
    assert (a + b)[1..] == a[1..] + b;
    if |a| > 1 {
      JoinOfBoth(a[1..], b);
    }
  }

  /** The host lies strictly under the domain: it is some name, a dot, and the domain. */
  ghost predicate Under(host: string, domain: string) {
    exists name :: host == name + "." + domain
  }

  ghost predicate ProperSuffix<T(!new)>(labels: seq<T>, part: seq<T>) {
    |part| < |labels| && labels[|labels| - |part|..] == part
  }

  /** Lying under a domain, read on the text, is having its labels as a proper suffix. */
  lemma UnderIffLabelSuffix(host: string, domain: string)
    ensures Under(host, domain) <==> ProperSuffix(Split(host), Split(domain))
  {
    if Under(host, domain) {
      var name :| host == name + "." + domain;
      SplitAtDot(name, domain);
    }
    if ProperSuffix(Split(host), Split(domain)) {
      var labels, part := Split(host), Split(domain);
      var front := labels[..|labels| - |part|];
      assert labels == front + part;
      JoinOfBoth(front, part);
      JoinOfSplit(host);
      JoinOfSplit(domain);
      assert host == Join(front) + "." + domain;
    }
  }

  lemma SuffixOfSuffix<T(!new)>(h: seq<T>, d: seq<T>, e: seq<T>)
    requires ProperSuffix(h, d) && ProperSuffix(h, e) && |d| <= |e|
    ensures d == e || ProperSuffix(e, d)
  {
    assert e[|e| - |d|..] == h[|h| - |d|..];
  }

  /** Of two domains the host lies under, the one with fewer labels is the shorter text. */
  lemma FewerLabels(host: string, d: string, e: string)
    requires Under(host, d) && Under(host, e) && |Split(d)| <= |Split(e)|
    ensures |d| <= |e| && (|d| == |e| ==> d == e)
  {
    UnderIffLabelSuffix(host, d);
    UnderIffLabelSuffix(host, e);
    SuffixOfSuffix(Split(host), Split(d), Split(e));
    JoinOfSplit(d);
    JoinOfSplit(e);
    UnderIffLabelSuffix(e, d);
  }

  // ---- paths from the top-level domain down --------------------------------------------------------

  ghost predicate IsBackward<T(!new)>(r: seq<T>, s: seq<T>) {
    |r| == |s| && forall i :: 0 <= i < |s| ==> r[i] == s[|s| - 1 - i]
  }

  /** The labels from the last down to number `from`. */
  function BackTo<T>(s: seq<T>, from: nat): (r: seq<T>)
    requires from <= |s|
    ensures |r| == |s| - from
    decreases |s| - from
  {
    if from == |s| then [] else BackTo(s, from + 1) + [s[from]]
  }

  function Backward<T>(s: seq<T>): (r: seq<T>)
    ensures |r| == |s|
  {
    BackTo(s, 0)
  }

  lemma {:induction false} BackToIndex<T>(s: seq<T>, from: nat, i: nat)
    requires from <= |s| && i < |s| - from
    ensures BackTo(s, from)[i] == s[|s| - 1 - i]
    decreases |s| - from
  {
    if i < |s| - from - 1 {
      BackToIndex(s, from + 1, i);
    }
  }

  lemma BackwardIsBackward<T(!new)>(s: seq<T>)
    ensures IsBackward(Backward(s), s)
  {
    forall i | 0 <= i < |s| ensures Backward(s)[i] == s[|s| - 1 - i] {
      BackToIndex(s, 0, i);
    }
  }

  lemma BackwardPrefix<T(!new)>(labels: seq<T>, part: seq<T>)
    ensures ProperSuffix(labels, part) <==> Backward(part) <= Backward(labels) && |part| < |labels|
  {
    var r, q := Backward(labels), Backward(part);
    BackwardIsBackward(labels);
    BackwardIsBackward(part);
    if |part| < |labels| {
      var tail := labels[|labels| - |part|..];
      if tail == part {
        assert forall i :: 0 <= i < |q| ==> q[i] == part[|part| - 1 - i] == tail[|part| - 1 - i] == r[i];
      }
      if q <= r {
        forall i | 0 <= i < |part| ensures tail[i] == part[i] {
          assert q[|part| - 1 - i] == r[|part| - 1 - i];
        }
      }
    }
  }

  ghost predicate NoEmptyLabel(name: string) {
    "" !in Split(name)
  }

  /** The path of a wildcard pattern, or none when `insertWildcard` rejects it. */
  ghost function PathOf(pattern: string): Option<seq<string>> {
    if "*." <= pattern && NoEmptyLabel(pattern[2..]) then Some(Backward(Split(pattern[2..]))) else None
  }

  lemma BackwardIsInjective<T(!new)>(s: seq<T>, t: seq<T>)
    requires Backward(s) == Backward(t)
    ensures s == t
  {
    BackwardIsBackward(s);
    BackwardIsBackward(t);
    forall i | 0 <= i < |s| ensures s[i] == t[i] {
      assert Backward(s)[|s| - 1 - i] == Backward(t)[|s| - 1 - i];
    }
  }

  /** Two accepted patterns with the same path are the same text. */
  lemma PathIsInjective(p: string, q: string)
    requires PathOf(p).Some? && PathOf(p) == PathOf(q)
    ensures p == q
  {
    BackwardIsInjective(Split(p[2..]), Split(q[2..]));
    JoinOfSplit(p[2..]);
    JoinOfSplit(q[2..]);
    assert p == p[..2] + p[2..] && q == q[..2] + q[2..];
  }

  // ---- the two loops, for any kind of label with a distinguished empty one ---------------------------

  /** The insert loop, from the last label to the first. */
  method Reach<K(==, !new)>(trie: Trie<K>, labels: seq<K>, empty: K) returns (accepted: bool, node: Node<K>)
    requires trie.Valid()
    modifies trie, trie.nodes
    ensures trie.Valid() && fresh(trie.nodes - old(trie.nodes)) && trie.rules == old(trie.rules)
    ensures accepted <==> empty !in labels
    ensures accepted ==> trie.Here(node, Backward(labels))
  {
    node := trie.root;
    var i := |labels| - 1;
    while i >= 0
      invariant -1 <= i < |labels|
      invariant trie.Valid() && fresh(trie.nodes - old(trie.nodes)) && trie.rules == old(trie.rules)
      invariant trie.Here(node, BackTo(labels, i + 1))
      invariant forall j :: i < j < |labels| ==> labels[j] != empty
    {
      if labels[i] == empty {
        return false, node;
      }
      node := trie.Descend(node, labels[i], BackTo(labels, i + 1));
      assert BackTo(labels, i) == Below(BackTo(labels, i + 1), labels[i]);
      i := i - 1;
    }
    accepted := true;
  }

  /** The walk comes to an empty label. */
  ghost predicate Stops<K(!new)>(at: map<seq<K>, Node<K>>, path: seq<K>, empty: K) {
    exists e :: 0 <= e < |path| && path[e] == empty && path[..e] in at
  }

  /** The lookup loop, from the last label to the first. */
  method Walk<K(==, !new)>(trie: Trie<K>, labels: seq<K>, empty: K, ghost path: seq<K>)
    returns (found: bool, route: Route, ghost best: nat)
    requires trie.Valid() && IsBackward(path, labels) && labels != [] && [] !in trie.rules
    ensures Stops(trie.at, path, empty) ==> !found
    ensures !Stops(trie.at, path, empty) ==> trie.BestUpTo(path, |path| - 1, found, best)
    ensures found ==> best <= |path| && path[..best] in trie.rules && route == trie.rules[path[..best]]
  {
    found, route, best := false, "", 0;
    var node := trie.root;
    var matched := 0;
    var i := |labels| - 1;
    while i >= 0
      invariant -1 <= i < |labels| && matched == |labels| - 1 - i
      invariant trie.Here(node, path[..matched])
      invariant forall e :: 0 <= e < matched ==> path[e] != empty
      invariant trie.BestUpTo(path, if matched < |path| then matched else |path| - 1, found, best)
      invariant found ==> trie.rules[path[..best]] == route
    {
      var name := labels[i];
      assert path[matched] == name;
      if name == empty {
        return false, "", 0;
      }
      assert path[..matched + 1] == Below(path[..matched], name);
      trie.ChildIs(node, path[..matched], name);
      if name !in node.children {
        Missed(trie, path, matched, empty);
        trie.NothingBelow(path, matched, |path| - 1, found, best);
        return;
      }
      node := node.children[name];
      trie.OneFurther(path, matched, found, best);
      matched := matched + 1;
      if node.hasRoute && matched < |labels| {
        found, route, best := true, node.route, matched;
      }
      i := i - 1;
    }
  }

  lemma Missed<K(!new)>(trie: Trie<K>, path: seq<K>, i: nat, empty: K)
    requires trie.Shape() && i < |path| && path[..i + 1] !in trie.at
    requires forall e :: 0 <= e <= i ==> path[e] != empty
    ensures !Stops(trie.at, path, empty)
  {
    forall e | 0 <= e < |path| && path[e] == empty ensures path[..e] !in trie.at {
      if path[..e] in trie.at { trie.ShortWhenMissing(path, i, path[..e]); }
    }
  }


  /** The route of the longest rule that leaves at least one label of the path over, or none when there is no
      such rule or the walk comes to an empty label. */
  ghost predicate IsAnswer<K(!new)>(trie: Trie<K>, path: seq<K>, empty: K, found: bool, route: Route)
    requires path != []
    reads trie
  {
    if Stops(trie.at, path, empty) then !found
    else match Longest(trie.rules, path, |path| - 1)
      case None => !found
      case Some(best) => found && route == best.1
  }

  /** The lookup on labels: the longest match that leaves at least one label over. */
  method LookupLabels<K(==, !new)>(trie: Trie<K>, labels: seq<K>, empty: K) returns (found: bool, route: Route)
    requires trie.Valid() && labels != [] && [] !in trie.rules
    ensures IsAnswer(trie, Backward(labels), empty, found, route)
  {
    ghost var path := Backward(labels);
    BackwardIsBackward(labels);
    ghost var best;
    found, route, best := Walk(trie, labels, empty, path);
    if !Stops(trie.at, path, empty) {
      trie.Conclude(path, |path| - 1, found, best);
    }
  }

  lemma EmptyLabelStops<K(!new)>(at: map<seq<K>, Node<K>>, labels: seq<K>, empty: K)
    ensures empty !in labels ==> !Stops(at, Backward(labels), empty)
  {
    var path := Backward(labels);
    BackwardIsBackward(labels);
    forall e | 0 <= e < |path| && path[e] == empty ensures empty in labels {
      assert labels[|labels| - 1 - e] == empty;
    }
  }

  // ---- the trie --------------------------------------------------------------------------------

  class DomainTrie {
    const trie: Trie<string>

    ghost predicate Valid()
      reads this, trie, trie.nodes
    {
      trie.Valid() && [] !in trie.rules
    }

    constructor ()
      ensures Valid() && fresh(trie) && fresh(trie.nodes) && trie.rules == map[]
    {
      trie := new Trie();
    }

    /** A pattern with an empty label leaves nodes behind but no rule. */
    method InsertWildcard(pattern: string, route: Route)
      requires Valid()
      modifies trie, trie.nodes
      ensures Valid() && fresh(trie.nodes - old(trie.nodes))
      ensures trie.rules == WithEntry(old(trie.rules), (PathOf(pattern), route))
    {
      if !("*." <= pattern) {
        return;
      }
      var suffix := pattern[2..];
      if suffix == "" {
        return;
      }
      var labels := Split(suffix);
      var accepted, node := Reach(trie, labels, "");
      if accepted {
        trie.SetRoute(node, route, Backward(labels));
      }
    }

    /** The route of the longest proper suffix of the host's labels; none when the walk meets an empty label. */
    method LookupWildcard(host: string) returns (found: bool, route: Route)
      requires Valid()
      ensures IsAnswer(trie, Backward(Split(host)), "", found, route)
      ensures NoEmptyLabel(host) ==> !Stops(trie.at, Backward(Split(host)), "")
    {
      EmptyLabelStops(trie.at, Split(host), "");
      if host == "" {
        EmptyHostStops(trie.at);
        return false, "";
      }
      found, route := LookupLabels(trie, Split(host), "");
    }
  }

  lemma EmptyHostStops(at: map<seq<string>, Node<string>>)
    requires [] in at
    ensures Stops(at, Backward(Split("")), "")
  {
    BackwardIsBackward(Split(""));
    assert Backward(Split(""))[0] == "" && Backward(Split(""))[..0] == [];
  }

  // ---- the refinement ------------------------------------------------------------------------------

  /** The inserts that a list of patterns makes. */
  ghost function Entries(rules: seq<(string, Route)>): (r: seq<Entry<string>>)
    ensures |r| == |rules|
    ensures forall i :: 0 <= i < |r| ==> r[i] == (PathOf(rules[i].0), rules[i].1)
  {
    seq(|rules|, i requires 0 <= i < |rules| => (PathOf(rules[i].0), rules[i].1))
  }

  /** An accepted pattern whose domain the host lies strictly under. */
  ghost predicate Applies(pattern: string, host: string) {
    "*." <= pattern && NoEmptyLabel(pattern[2..]) && Under(host, pattern[2..])
  }

  lemma AppliesIffPath(pattern: string, host: string)
    ensures Applies(pattern, host) <==>
              PathOf(pattern).Some? && PathOf(pattern).value <= Backward(Split(host))
              && |PathOf(pattern).value| <= |Split(host)| - 1
  {
    if PathOf(pattern).Some? {
      UnderIffLabelSuffix(host, pattern[2..]);
      BackwardPrefix(Split(host), Split(pattern[2..]));
    }
  }

  /** After any list of inserts the scan for a host gives the route inserted last for a pattern with the
      most labels among those whose domain the host lies strictly under, and nothing exactly when there
      is none. So rejected patterns, and the base domain itself, never count. */
  lemma WildcardIsLongestSuffix(rules: seq<(string, Route)>, host: string)
    ensures var r := Longest(TableOf(Entries(rules)), Backward(Split(host)), |Split(host)| - 1);
            && (r.Some? <==> exists i :: 0 <= i < |rules| && Applies(rules[i].0, host))
            && (r.Some? ==>
                  && (exists i :: 0 <= i < |rules| && Applies(rules[i].0, host) && rules[i].1 == r.value.1
                                  && |Split(rules[i].0[2..])| == r.value.0
                                  && forall j :: i < j < |rules| ==> rules[j].0 != rules[i].0)
                  && (forall i :: 0 <= i < |rules| && Applies(rules[i].0, host) ==>
                                    |Split(rules[i].0[2..])| <= r.value.0))
  {
    var path, n, entries := Backward(Split(host)), |Split(host)| - 1, Entries(rules);
    ScanIsLongestEntry(entries, path, n);
    CoversIffApplies(rules, host);
    var r := Longest(TableOf(entries), path, n);
    if r.Some? {
      var i :| LastAt(entries, i, path[..r.value.0]) && entries[i].1 == r.value.1;
      assert Covers(entries, i, path, n);
      LastPattern(rules, i, path[..r.value.0]);
    }
  }

  lemma CoversIffApplies(rules: seq<(string, Route)>, host: string)
    ensures forall i :: 0 <= i < |rules| ==>
              (Applies(rules[i].0, host) <==> Covers(Entries(rules), i, Backward(Split(host)), |Split(host)| - 1))
  {
    forall i | 0 <= i < |rules|
      ensures Applies(rules[i].0, host) <==> Covers(Entries(rules), i, Backward(Split(host)), |Split(host)| - 1) {
      AppliesIffPath(rules[i].0, host);
    }
  }

  lemma LastPattern(rules: seq<(string, Route)>, i: int, path: seq<string>)
    requires LastAt(Entries(rules), i, path)
    ensures 0 <= i < |rules| && PathOf(rules[i].0) == Some(path)
    ensures forall j :: i < j < |rules| ==> rules[j].0 != rules[i].0
  {
    forall j | i < j < |rules| ensures rules[j].0 != rules[i].0 {
      assert !EntryAt(Entries(rules), j, path);
    }
  }
}
