/** The rule tables as Redis holds them, the tables that `loadRoutes` makes of them in any order of
    iteration, and the naive scan of the rules that routing is measured against. */
module RouteRules {

  import opened Options
  import opened Tries
  import opened Cidr
  import opened Domains

  type ValidPrefix = p: Prefix | IsPrefix(p) witness Prefix(V4(seq(32, _ => false)), 0)

  /** The text functions of Go's library that routing calls. */
  datatype Text = Text(
    trim: string -> string,
    lower: string -> string,
    splitHostPort: string -> Option<string>,
    parsePrefix: string -> Option<ValidPrefix>,
    parseAddr: string -> Option<Addr>
  )

  type Hash = map<string, string>
  type KeyOf<!K> = (string, string) -> Option<(K, Route)>

  // ---- tables made from a hash, whatever the order of iteration --------------------------------------

  /** Field `f` of the hash is a rule that sends `k` to `v`. */
  ghost predicate IsRule<K(!new)>(keyOf: KeyOf<K>, hash: Hash, f: string, k: K, v: Route) {
    f in hash && keyOf(f, hash[f]) == Some((k, v))
  }

  /** `table` holds rules of the hash only, and one for each key that some rule of the hash has. */
  ghost predicate IsTable<K(!new)>(keyOf: KeyOf<K>, hash: Hash, table: map<K, Route>) {
    && (forall k :: k in table ==> exists f :: IsRule(keyOf, hash, f, k, table[k]))
    && (forall f, k, v :: IsRule(keyOf, hash, f, k, v) ==> k in table)
  }

  function With<K(==)>(table: map<K, Route>, rule: Option<(K, Route)>): map<K, Route> {
    if rule.None? then table else table[rule.value.0 := rule.value.1]
  }

  /** One turn of a loading loop: a field not yet visited is added, in whatever order. */
  lemma TableGrows<K(!new)>(keyOf: KeyOf<K>, hash: Hash, table: map<K, Route>, field: string, value: string)
    requires IsTable(keyOf, hash, table) && field !in hash
    ensures IsTable(keyOf, hash[field := value], With(table, keyOf(field, value)))
  {
    var more := hash[field := value];
    var rule := keyOf(field, value);
    var after := With(table, rule);
    forall k | k in after ensures exists f :: IsRule(keyOf, more, f, k, after[k]) {
      if rule.Some? && rule.value.0 == k {
        assert IsRule(keyOf, more, field, k, after[k]);
      } else {
        var f :| IsRule(keyOf, hash, f, k, table[k]);
        assert IsRule(keyOf, more, f, k, after[k]);
      }
    }
    forall f, k, v | IsRule(keyOf, more, f, k, v) ensures k in after {
      if f != field { assert IsRule(keyOf, hash, f, k, v); }
    }
  }

  predicate SameKey<K(==)>(a: Option<(K, Route)>, b: Option<(K, Route)>) {
    a.Some? && b.Some? && a.value.0 == b.value.0
  }

  /** No two fields of the hash are rules for the same key. */
  ghost predicate DistinctKeys<K(!new)>(keyOf: KeyOf<K>, hash: Hash) {
    forall f, g :: f in hash && g in hash && SameKey(keyOf(f, hash[f]), keyOf(g, hash[g])) ==> f == g
  }

  /** With distinct keys the table does not depend on the order of iteration. */
  lemma TableIsUnique<K(!new)>(keyOf: KeyOf<K>, hash: Hash, a: map<K, Route>, b: map<K, Route>)
    requires IsTable(keyOf, hash, a) && IsTable(keyOf, hash, b) && DistinctKeys(keyOf, hash)
    ensures a == b
  {
    forall k ensures k in a ==> k in b && a[k] == b[k] { SameRule(keyOf, hash, a, b, k); }
    forall k ensures k in b ==> k in a { SameRule(keyOf, hash, b, a, k); }
  }

  lemma SameRule<K(!new)>(keyOf: KeyOf<K>, hash: Hash, a: map<K, Route>, b: map<K, Route>, k: K)
    requires IsTable(keyOf, hash, a) && IsTable(keyOf, hash, b) && DistinctKeys(keyOf, hash)
    ensures k in a ==> k in b && a[k] == b[k]
  {
    if k in a {
      var f :| IsRule(keyOf, hash, f, k, a[k]);
      assert k in b;
      var g :| IsRule(keyOf, hash, g, k, b[k]);
    }
  }

  // ---- the three kinds of rule ---------------------------------------------------------------------

  /** A field of the domains hash as the loop reads it: its pattern and route, if neither is empty. */
  function DomainField(text: Text, field: string, value: string): Option<(string, Route)> {
    var pattern, route := text.lower(text.trim(field)), text.trim(value);
    if pattern == "" || route == "" then None else Some((pattern, route))
  }

  predicate IsWildcard(pattern: string) {
    "*." <= pattern
  }

  ghost function ExactKey(text: Text): KeyOf<string> {
    (f, v) =>
      var rule := DomainField(text, f, v);
      if rule.Some? && !IsWildcard(rule.value.0) then rule else None
  }

  ghost function WildcardKey(text: Text): KeyOf<seq<string>> {
    (f, v) =>
      var rule := DomainField(text, f, v);
      if rule.Some? && PathOf(rule.value.0).Some? then Some((PathOf(rule.value.0).value, rule.value.1)) else None
  }

  /** A field of the CIDR hash as the loop reads it: the prefix it inserts and the route. */
  function CidrField(text: Text, field: string, value: string): (r: Option<(Prefix, Route)>)
    ensures r.Some? ==> IsPrefix(r.value.0)
  {
    var cidr, route := text.trim(field), text.trim(value);
    if cidr == "" || route == "" || text.parsePrefix(cidr).None? then None
    else Some((Rewritten(text.parsePrefix(cidr).value), route))
  }

  ghost function CidrKey(text: Text, isFour: bool): KeyOf<Bits> {
    (f, v) =>
      var rule := CidrField(text, f, v);
      if rule.Some? && rule.value.0.addr.V4? == isFour then Some((Path(rule.value.0), rule.value.1)) else None
  }

  // ---- the naive scan -------------------------------------------------------------------------------

  /** Field `f`, trimmed and in lower case, is the pattern, and its trimmed value is the route; neither is empty. */
  predicate Reads(text: Text, domains: Hash, f: string, pattern: string, route: Route) {
    && f in domains && text.lower(text.trim(f)) == pattern && text.trim(domains[f]) == route
    && pattern != "" && route != ""
  }

  ghost predicate ExactRule(text: Text, domains: Hash, host: string, route: Route) {
    !("*." <= host) && exists f :: Reads(text, domains, f, host, route)
  }

  /** Some field reads `*.domain`, with no empty label in the domain. */
  ghost predicate WildcardRule(text: Text, domains: Hash, domain: string, route: Route) {
    NoEmptyLabel(domain) && exists f :: Reads(text, domains, f, "*." + domain, route)
  }

  /** Field `f`, trimmed, parses to the prefix, and its trimmed value is the route; neither text is empty. */
  predicate ReadsCidr(text: Text, cidrs: Hash, f: string, prefix: Prefix, route: Route) {
    && f in cidrs && text.trim(f) != "" && text.trim(cidrs[f]) == route && route != ""
    && text.parsePrefix(text.trim(f)).Some? && text.parsePrefix(text.trim(f)).value == prefix
  }

  ghost predicate CidrRule(text: Text, cidrs: Hash, prefix: Prefix, route: Route) {
    exists f :: ReadsCidr(text, cidrs, f, prefix, route)
  }

  /** What a rule covers, by its prefix as it was parsed: the addresses of its own family that it starts, and the
      IPv4 addresses whose IPv4-in-IPv6 form it starts, if it is at least as long as the marker of that form. */
  ghost predicate CoveredBy(p: Prefix, a: Addr)
    requires IsAddr(a)
  {
    CoversAddr(p, a) || (a.V4? && p.bits >= 96 && CoversAddr(p, MapV4(a)))
  }

  /** How many bits of the address the rule fixes. */
  function BitsFixed(p: Prefix, a: Addr): int {
    if a.V4? && p.addr.V6? then p.bits - 96 else p.bits
  }

  /** A wildcard rule whose domain the host lies strictly under. */
  ghost predicate WildcardMatch(text: Text, domains: Hash, host: string, domain: string, route: Route) {
    WildcardRule(text, domains, domain, route) && Under(host, domain)
  }

  ghost predicate LongestWildcard(text: Text, domains: Hash, host: string, domain: string, route: Route) {
    && WildcardMatch(text, domains, host, domain, route)
    && forall d, v :: WildcardMatch(text, domains, host, d, v) ==> |d| <= |domain|
  }

  ghost predicate CidrMatch(text: Text, cidrs: Hash, addr: Addr, prefix: Prefix, route: Route) {
    IsAddr(addr) && CidrRule(text, cidrs, prefix, route) && CoveredBy(prefix, Unmap(addr))
  }

  ghost predicate LongestCidr(text: Text, cidrs: Hash, addr: Addr, bits: int, route: Route) {
    && (exists p :: CidrMatch(text, cidrs, addr, p, route) && BitsFixed(p, Unmap(addr)) == bits)
    && (forall p, v :: CidrMatch(text, cidrs, addr, p, v) ==> BitsFixed(p, Unmap(addr)) <= bits)
  }

  /** The longest match over all addresses, the earliest address among equal lengths. */
  ghost predicate LongestAnswer(text: Text, cidrs: Hash, ips: seq<Addr>, i: int, bits: int, route: Route) {
    && 0 <= i < |ips| && LongestCidr(text, cidrs, ips[i], bits, route)
    && (forall j, n, v :: 0 <= j < |ips| && LongestCidr(text, cidrs, ips[j], n, v) ==>
          n <= bits && (j < i ==> n < bits))
  }

  /** What a host should be routed to: its exact rule, else the longest wildcard it lies under, else the
      longest CIDR rule for the literal address or for the resolved ones, else the default. */
  ghost predicate NaiveRoute(text: Text, domains: Hash, cidrs: Hash, default: Route,
                             dns: string -> Option<seq<Addr>>, host: string, r: Route)
  {
    if exists v :: ExactRule(text, domains, host, v) then ExactRule(text, domains, host, r)
    else if exists d, v :: WildcardMatch(text, domains, host, d, v) then
      exists d :: LongestWildcard(text, domains, host, d, r)
    else match text.parseAddr(host)
      case Some(addr) => NaiveLiteral(text, cidrs, default, addr, r)
      case None => NaiveResolved(text, cidrs, default, dns(host), r)
  }

  ghost predicate NaiveLiteral(text: Text, cidrs: Hash, default: Route, addr: Addr, r: Route) {
    if exists p, v :: CidrMatch(text, cidrs, addr, p, v) then exists n :: LongestCidr(text, cidrs, addr, n, r)
    else r == default
  }

  ghost predicate NaiveResolved(text: Text, cidrs: Hash, default: Route, answer: Option<seq<Addr>>, r: Route) {
    if answer.Some? && exists i, p, v :: 0 <= i < |answer.value| && CidrMatch(text, cidrs, answer.value[i], p, v)
    then exists i, n :: LongestAnswer(text, cidrs, answer.value, i, n, r)
    else r == default
  }

  // ---- the scan of the tables is the naive scan ------------------------------------------------------

  lemma ExactIsNaive(text: Text, domains: Hash, table: map<string, Route>, host: string)
    requires IsTable(ExactKey(text), domains, table)
    ensures host in table <==> exists v :: ExactRule(text, domains, host, v)
    ensures host in table ==> ExactRule(text, domains, host, table[host])
  {
    if host in table {
      var f :| IsRule(ExactKey(text), domains, f, host, table[host]);
      assert Reads(text, domains, f, host, table[host]);
      assert ExactRule(text, domains, host, table[host]);
    }
    if v :| ExactRule(text, domains, host, v) {
      var f :| Reads(text, domains, f, host, v);
      assert IsRule(ExactKey(text), domains, f, host, v);
    }
  }

  /** A wildcard match, as a path of the table. */
  lemma WildcardMatchIsPath(text: Text, domains: Hash, table: Table<string>, host: string, domain: string, route: Route)
    requires IsTable(WildcardKey(text), domains, table) && WildcardMatch(text, domains, host, domain, route)
    ensures Matches(table, Backward(Split(host)), |Split(host)| - 1, Backward(Split(domain)))
  {
    var pattern := "*." + domain;
    var f :| Reads(text, domains, f, pattern, route);
    assert pattern[2..] == domain;
    assert IsRule(WildcardKey(text), domains, f, Backward(Split(domain)), route);
    AppliesIffPath(pattern, host);
  }

  lemma PathIsWildcardMatch(text: Text, domains: Hash, table: Table<string>, host: string, path: seq<string>)
    returns (domain: string)
    requires IsTable(WildcardKey(text), domains, table)
    requires Matches(table, Backward(Split(host)), |Split(host)| - 1, path)
    ensures WildcardMatch(text, domains, host, domain, table[path]) && path == Backward(Split(domain))
  {
    var f :| IsRule(WildcardKey(text), domains, f, path, table[path]);
    var pattern := DomainField(text, f, domains[f]).value.0;
    domain := pattern[2..];
    assert pattern == "*." + domain;
    assert Reads(text, domains, f, pattern, table[path]);
    assert WildcardRule(text, domains, domain, table[path]);
    AppliesIffPath(pattern, host);
  }

  /** The scan of the wildcard table for a host. */
  function WildcardScan(table: Table<string>, host: string): Option<(nat, Route)> {
    Longest(table, Backward(Split(host)), |Split(host)| - 1)
  }

  /** No match has more labels than the scan found. */
  lemma LabelsBound(text: Text, domains: Hash, table: Table<string>, host: string, d: string, v: Route)
    requires IsTable(WildcardKey(text), domains, table) && WildcardMatch(text, domains, host, d, v)
    ensures WildcardScan(table, host).Some? && |Split(d)| <= WildcardScan(table, host).value.0
  {
    WildcardMatchIsPath(text, domains, table, host, d, v);
    LongestIsBest(table, Backward(Split(host)), |Split(host)| - 1);
  }

  lemma ScanIsMatch(text: Text, domains: Hash, table: Table<string>, host: string) returns (domain: string)
    requires IsTable(WildcardKey(text), domains, table) && WildcardScan(table, host).Some?
    ensures WildcardMatch(text, domains, host, domain, WildcardScan(table, host).value.1)
    ensures |Split(domain)| == WildcardScan(table, host).value.0
  {
    var path, n := Backward(Split(host)), |Split(host)| - 1;
    LongestIsBest(table, path, n);
    domain := PathIsWildcardMatch(text, domains, table, host, path[..WildcardScan(table, host).value.0]);
  }

  lemma NoLongerMatch(text: Text, domains: Hash, table: Table<string>, host: string, domain: string, d: string,
                      v: Route)
    requires IsTable(WildcardKey(text), domains, table) && WildcardScan(table, host).Some?
    requires Under(host, domain) && |Split(domain)| == WildcardScan(table, host).value.0
    ensures WildcardMatch(text, domains, host, d, v) ==> |d| <= |domain|
  {
    if WildcardMatch(text, domains, host, d, v) {
      LabelsBound(text, domains, table, host, d, v);
      FewerLabels(host, d, domain);
    }
  }

  lemma WildcardFound(text: Text, domains: Hash, table: Table<string>, host: string) returns (domain: string)
    requires IsTable(WildcardKey(text), domains, table) && WildcardScan(table, host).Some?
    ensures LongestWildcard(text, domains, host, domain, WildcardScan(table, host).value.1)
  {
    domain := ScanIsMatch(text, domains, table, host);
    forall d, v ensures WildcardMatch(text, domains, host, d, v) ==> |d| <= |domain| {
      NoLongerMatch(text, domains, table, host, domain, d, v);
    }
  }

  lemma WildcardMissed(text: Text, domains: Hash, table: Table<string>, host: string)
    requires IsTable(WildcardKey(text), domains, table) && WildcardScan(table, host).None?
    ensures forall d, v :: !WildcardMatch(text, domains, host, d, v)
  {
    forall d, v ensures !WildcardMatch(text, domains, host, d, v) {
      if WildcardMatch(text, domains, host, d, v) {
        LabelsBound(text, domains, table, host, d, v);
        assert false;
      }
    }
  }

  /** The families hold the CIDR rules of the hash. */
  ghost predicate IsFamilies(text: Text, cidrs: Hash, f: Families) {
    IsTable(CidrKey(text, true), cidrs, f.four) && IsTable(CidrKey(text, false), cidrs, f.six)
  }

  /** A prefix covers an address by its parsed form if and only if the rule that is inserted for it does. */
  lemma RewrittenCoversSame(p: Prefix, a: Addr)
    requires IsPrefix(p) && IsAddr(a) && !IsMapped(a)
    ensures CoversAddr(Rewritten(p), a) <==> CoveredBy(p, a)
    ensures CoveredBy(p, a) ==> Rewritten(p).bits == BitsFixed(p, a)
  {
    if IsMapped(Masked(p).addr) {
      MappedHas96Bits(p);
      if a.V4? {
        RewrittenMatchesSame(p, a);
      } else {
        StartsMapped(p, a);
      }
    }
  }

  /** What starts with the marker of an IPv4-in-IPv6 address is one. */
  lemma StartsMapped(p: Prefix, a: Addr)
    requires IsPrefix(p) && IsMapped(Masked(p).addr) && IsAddr(a) && a.V6? && p.bits >= 96
    ensures CoversAddr(p, a) ==> IsMapped(a)
  {
    if CoversAddr(p, a) {
      assert a.bits[..96] == Path(p)[..96] == Masked(p).addr.bits[..96];
    }
  }

  lemma UnmapIsNotMapped(addr: Addr)
    requires IsAddr(addr)
    ensures IsAddr(Unmap(addr)) && !IsMapped(Unmap(addr))
  {
  }

  lemma CidrMatchIsPath(text: Text, cidrs: Hash, f: Families, addr: Addr, p: Prefix, route: Route)
    requires IsFamilies(text, cidrs, f) && CidrMatch(text, cidrs, addr, p, route)
    ensures var a := Unmap(addr);
            && IsPrefix(p) && Matches(f.Of(a.V4?), a.bits, |a.bits|, Path(Rewritten(p)))
            && |Path(Rewritten(p))| == BitsFixed(p, a)
  {
    var k :| ReadsCidr(text, cidrs, k, p, route);
    UnmapIsNotMapped(addr);
    RewrittenCoversSame(p, Unmap(addr));
    assert IsRule(CidrKey(text, Rewritten(p).addr.V4?), cidrs, k, Path(Rewritten(p)), route);
  }

  lemma PathIsCidrMatch(text: Text, cidrs: Hash, f: Families, addr: Addr, path: Bits) returns (p: Prefix)
    requires IsFamilies(text, cidrs, f) && IsAddr(addr)
    requires var a := Unmap(addr); Matches(f.Of(a.V4?), a.bits, |a.bits|, path)
    ensures CidrMatch(text, cidrs, addr, p, f.Of(Unmap(addr).V4?)[path]) && BitsFixed(p, Unmap(addr)) == |path|
  {
    var isFour := Unmap(addr).V4?;
    var k :| IsRule(CidrKey(text, isFour), cidrs, k, path, f.Of(isFour)[path]);
    p := text.parsePrefix(text.trim(k)).value;
    UnmapIsNotMapped(addr);
    RewrittenCoversSame(p, Unmap(addr));
    assert ReadsCidr(text, cidrs, k, p, f.Of(isFour)[path]);
  }

  lemma CidrIsNaive(text: Text, cidrs: Hash, f: Families, addr: Addr)
    requires IsFamilies(text, cidrs, f)
    ensures Scan(f, addr).Some? <==> exists p, v :: CidrMatch(text, cidrs, addr, p, v)
    ensures Scan(f, addr).Some? ==> LongestCidr(text, cidrs, addr, Scan(f, addr).value.0, Scan(f, addr).value.1)
  {
    if IsAddr(addr) {
      var a := Unmap(addr);
      var r := Scan(f, addr);
      LongestIsBest(f.Of(a.V4?), a.bits, |a.bits|);
      forall p, v | CidrMatch(text, cidrs, addr, p, v)
        ensures r.Some? && BitsFixed(p, a) <= r.value.0 {
        CidrMatchIsPath(text, cidrs, f, addr, p, v);
      }
      if r.Some? {
        var p := PathIsCidrMatch(text, cidrs, f, addr, a.bits[..r.value.0]);
      }
    }
  }

  // ---- the naive scan has one result --------------------------------------------------------------

  /** No two fields stay rules for one name, one wildcard or one masked prefix after normalisation. */
  ghost predicate DistinctRuleKeys(text: Text, domains: Hash, cidrs: Hash) {
    && DistinctKeys((f, v) => DomainField(text, f, v), domains)
    && DistinctKeys(CidrKey(text, true), cidrs) && DistinctKeys(CidrKey(text, false), cidrs)
  }

  lemma SameCidr(text: Text, cidrs: Hash, addr: Addr, n: int, m: int, r: Route, s: Route)
    requires DistinctKeys(CidrKey(text, true), cidrs) && DistinctKeys(CidrKey(text, false), cidrs)
    requires LongestCidr(text, cidrs, addr, n, r) && LongestCidr(text, cidrs, addr, m, s)
    ensures n == m && r == s
  {
    var p :| CidrMatch(text, cidrs, addr, p, r) && BitsFixed(p, Unmap(addr)) == n;
    var q :| CidrMatch(text, cidrs, addr, q, s) && BitsFixed(q, Unmap(addr)) == m;
    UnmapIsNotMapped(addr);
    SamePrefixRoute(text, cidrs, Unmap(addr), p, q, r, s);
  }

  lemma SamePrefixRoute(text: Text, cidrs: Hash, a: Addr, p: Prefix, q: Prefix, r: Route, s: Route)
    requires DistinctKeys(CidrKey(text, true), cidrs) && DistinctKeys(CidrKey(text, false), cidrs) && IsAddr(a)
    requires CidrRule(text, cidrs, p, r) && CidrRule(text, cidrs, q, s) && !IsMapped(a)
    requires CoveredBy(p, a) && CoveredBy(q, a) && BitsFixed(p, a) == BitsFixed(q, a)
    ensures r == s
  {
    var f :| ReadsCidr(text, cidrs, f, p, r);
    var g :| ReadsCidr(text, cidrs, g, q, s);
    RewrittenCoversSame(p, a);
    RewrittenCoversSame(q, a);
    assert Path(Rewritten(p)) == a.bits[..BitsFixed(p, a)] == Path(Rewritten(q));
    assert SameKey(CidrKey(text, a.V4?)(f, cidrs[f]), CidrKey(text, a.V4?)(g, cidrs[g]));
  }

  lemma SameDomain(text: Text, domains: Hash, pattern: string, r: Route, s: Route, f: string, g: string)
    requires DistinctKeys((f, v) => DomainField(text, f, v), domains) && f in domains && g in domains
    requires DomainField(text, f, domains[f]) == Some((pattern, r))
    requires DomainField(text, g, domains[g]) == Some((pattern, s))
    ensures r == s
  {
    var keyOf := (f, v) => DomainField(text, f, v);
    assert SameKey(keyOf(f, domains[f]), keyOf(g, domains[g]));
  }

  lemma SameWildcard(text: Text, domains: Hash, host: string, d: string, e: string, r: Route, s: Route)
    requires DistinctKeys((f, v) => DomainField(text, f, v), domains)
    requires LongestWildcard(text, domains, host, d, r) && LongestWildcard(text, domains, host, e, s)
    ensures r == s
  {
    if |Split(d)| <= |Split(e)| { FewerLabels(host, d, e); } else { FewerLabels(host, e, d); }
    var f :| Reads(text, domains, f, "*." + d, r);
    var g :| Reads(text, domains, g, "*." + e, s);
    SameDomain(text, domains, "*." + d, r, s, f, g);
  }

  /** When keys stay distinct, the naive scan gives one route, so no order of iteration can matter. */
  lemma NaiveRouteIsUnique(text: Text, domains: Hash, cidrs: Hash, default: Route,
                           dns: string -> Option<seq<Addr>>, host: string, r: Route, s: Route)
    requires DistinctRuleKeys(text, domains, cidrs)
    requires NaiveRoute(text, domains, cidrs, default, dns, host, r)
    requires NaiveRoute(text, domains, cidrs, default, dns, host, s)
    ensures r == s
  {
    if exists v :: ExactRule(text, domains, host, v) {
      var f :| Reads(text, domains, f, host, r);
      var g :| Reads(text, domains, g, host, s);
      SameDomain(text, domains, host, r, s, f, g);
    } else if exists d, v :: WildcardMatch(text, domains, host, d, v) {
      var d :| LongestWildcard(text, domains, host, d, r);
      var e :| LongestWildcard(text, domains, host, e, s);
      SameWildcard(text, domains, host, d, e, r, s);
    } else {
      match text.parseAddr(host)
      case Some(addr) => LiteralIsUnique(text, cidrs, default, addr, r, s);
      case None => ResolvedIsUnique(text, cidrs, default, dns(host), r, s);
    }
  }

  lemma LiteralIsUnique(text: Text, cidrs: Hash, default: Route, addr: Addr, r: Route, s: Route)
    requires DistinctKeys(CidrKey(text, true), cidrs) && DistinctKeys(CidrKey(text, false), cidrs)
    requires NaiveLiteral(text, cidrs, default, addr, r) && NaiveLiteral(text, cidrs, default, addr, s)
    ensures r == s
  {
    if exists p, v :: CidrMatch(text, cidrs, addr, p, v) {
      var n :| LongestCidr(text, cidrs, addr, n, r);
      var m :| LongestCidr(text, cidrs, addr, m, s);
      SameCidr(text, cidrs, addr, n, m, r, s);
    }
  }

  lemma ResolvedIsUnique(text: Text, cidrs: Hash, default: Route, answer: Option<seq<Addr>>, r: Route, s: Route)
    requires DistinctKeys(CidrKey(text, true), cidrs) && DistinctKeys(CidrKey(text, false), cidrs)
    requires NaiveResolved(text, cidrs, default, answer, r) && NaiveResolved(text, cidrs, default, answer, s)
    ensures r == s
  {
    if answer.Some? && exists i, p, v :: 0 <= i < |answer.value| && CidrMatch(text, cidrs, answer.value[i], p, v) {
      var i, n :| LongestAnswer(text, cidrs, answer.value, i, n, r);
      var j, m :| LongestAnswer(text, cidrs, answer.value, j, m, s);
      assert n == m && i == j;
      SameCidr(text, cidrs, answer.value[i], n, m, r, s);
    }
  }

  /** When keys stay distinct, two loads of the same hashes make the same tables, whatever their orders. */
  lemma AnyLoadingOrder(text: Text, domains: Hash, cidrs: Hash, exact: map<string, Route>, exact': map<string, Route>,
                        wild: Table<string>, wild': Table<string>, f: Families, f': Families)
    requires DistinctRuleKeys(text, domains, cidrs)
    requires IsTable(ExactKey(text), domains, exact) && IsTable(ExactKey(text), domains, exact')
    requires IsTable(WildcardKey(text), domains, wild) && IsTable(WildcardKey(text), domains, wild')
    requires IsFamilies(text, cidrs, f) && IsFamilies(text, cidrs, f')
    ensures exact == exact' && wild == wild' && f == f'
  {
    PatternsDecide(text, domains);
    TableIsUnique(ExactKey(text), domains, exact, exact');
    TableIsUnique(WildcardKey(text), domains, wild, wild');
    TableIsUnique(CidrKey(text, true), cidrs, f.four, f'.four);
    TableIsUnique(CidrKey(text, false), cidrs, f.six, f'.six);
  }

  /** Distinct patterns are distinct exact names and distinct wildcard paths. */
  lemma PatternsDecide(text: Text, domains: Hash)
    requires DistinctKeys((f, v) => DomainField(text, f, v), domains)
    ensures DistinctKeys(ExactKey(text), domains) && DistinctKeys(WildcardKey(text), domains)
  {
    var keyOf := (f, v) => DomainField(text, f, v);
    forall f, g | f in domains && g in domains
                  && SameKey(WildcardKey(text)(f, domains[f]), WildcardKey(text)(g, domains[g]))
      ensures f == g {
      PathIsInjective(keyOf(f, domains[f]).value.0, keyOf(g, domains[g]).value.0);
      assert SameKey(keyOf(f, domains[f]), keyOf(g, domains[g]));
    }
    forall f, g | f in domains && g in domains && SameKey(ExactKey(text)(f, domains[f]), ExactKey(text)(g, domains[g]))
      ensures f == g {
      assert SameKey(keyOf(f, domains[f]), keyOf(g, domains[g]));
    }
  }
}
