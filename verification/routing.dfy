/** `loadRoutes` builds the tables from the rule hashes and `ResolveRoute` reads them. */
module Routing {

  import opened Options
  import opened Tries
  import opened Cidr
  import opened Domains
  import opened RouteRules

  datatype RouteCache = RouteCache(
    domains: map<string, Route>,
    wildcards: DomainTrie,
    cidrs: CidrTrie,
    defaultRoute: Route
  )

  // ---- loading -------------------------------------------------------------------------------------

  /** The loop over the domains hash, in any order. */
  method LoadDomains(text: Text, domains: Hash) returns (exact: map<string, Route>, wildcards: DomainTrie)
    ensures wildcards.Valid() && fresh(wildcards) && fresh(wildcards.trie) && fresh(wildcards.trie.nodes)
    ensures DomainsLoaded(text, domains, exact, wildcards.trie.rules)
  {
    exact := map[];
    wildcards := new DomainTrie();
    var todo := domains.Keys;
    while todo != {}
      invariant todo <= domains.Keys
      invariant wildcards.Valid() && fresh(wildcards.trie) && fresh(wildcards.trie.nodes)
      invariant DomainsLoaded(text, domains - todo, exact, wildcards.trie.rules)
      decreases |todo|
    {
      var field :| field in todo;
      DomainsGrow(text, domains, todo, field, exact, wildcards.trie.rules);
      todo := todo - {field};
      exact := LoadDomain(text, field, domains[field], exact, wildcards);
    }
    assert domains - todo == domains;
  }

  /** The tables hold the domain rules of the hash. */
  ghost predicate DomainsLoaded(text: Text, domains: Hash, exact: map<string, Route>, rules: Table<string>) {
    IsTable(ExactKey(text), domains, exact) && IsTable(WildcardKey(text), domains, rules)
  }

  lemma DomainsGrow(text: Text, domains: Hash, todo: set<string>, field: string,
                    exact: map<string, Route>, rules: Table<string>)
    requires DomainsLoaded(text, domains - todo, exact, rules) && field in todo && field in domains
    ensures DomainsLoaded(text, domains - (todo - {field}),
                          With(exact, ExactKey(text)(field, domains[field])),
                          With(rules, WildcardKey(text)(field, domains[field])))
  {
    var seen := domains - todo;
    TableGrows(ExactKey(text), seen, exact, field, domains[field]);
    TableGrows(WildcardKey(text), seen, rules, field, domains[field]);
    assert domains - (todo - {field}) == seen[field := domains[field]];
  }

  /** One turn of that loop. */
  method LoadDomain(text: Text, field: string, value: string, exact: map<string, Route>, wildcards: DomainTrie)
    returns (r: map<string, Route>)
    requires wildcards.Valid()
    modifies wildcards.trie, wildcards.trie.nodes
    ensures wildcards.Valid() && fresh(wildcards.trie.nodes - old(wildcards.trie.nodes))
    ensures r == With(exact, ExactKey(text)(field, value))
    ensures wildcards.trie.rules == With(old(wildcards.trie.rules), WildcardKey(text)(field, value))
  {
    r := exact;
    var pattern := text.lower(text.trim(field));
    if pattern == "" {
      return;
    }
    var route := text.trim(value);
    if route == "" {
      return;
    }
    if IsWildcard(pattern) {
      wildcards.InsertWildcard(pattern, route);
      return;
    }
    r := exact[pattern := route];
  }

  /** The loop over the CIDR hash, in any order. */
  method LoadCidrs(text: Text, cidrs: Hash, trie: CidrTrie)
    requires trie.Valid() && trie.Value() == Families(map[], map[])
    modifies trie.ipv4, trie.ipv4.nodes, trie.ipv6, trie.ipv6.nodes
    ensures trie.Valid() && IsFamilies(text, cidrs, trie.Value())
  {
    var todo := cidrs.Keys;
    while todo != {}
      invariant todo <= cidrs.Keys
      invariant trie.Valid() && IsFamilies(text, cidrs - todo, trie.Value())
      invariant fresh(trie.ipv4.nodes - old(trie.ipv4.nodes)) && fresh(trie.ipv6.nodes - old(trie.ipv6.nodes))
      decreases |todo|
    {
      var field :| field in todo;
      FamiliesGrow(text, cidrs, todo, field, trie.Value());
      todo := todo - {field};
      LoadCidr(text, field, cidrs[field], trie);
    }
    assert cidrs - todo == cidrs;
  }

  ghost function WithCidr(text: Text, f: Families, field: string, value: string): Families {
    var rule := CidrField(text, field, value);
    if rule.None? then f else Inserted(f, rule.value.0, rule.value.1)
  }

  lemma FamiliesGrow(text: Text, cidrs: Hash, todo: set<string>, field: string, f: Families)
    requires IsFamilies(text, cidrs - todo, f) && field in todo && field in cidrs
    ensures IsFamilies(text, cidrs - (todo - {field}), WithCidr(text, f, field, cidrs[field]))
  {
    var seen := cidrs - todo;
    TableGrows(CidrKey(text, true), seen, f.four, field, cidrs[field]);
    TableGrows(CidrKey(text, false), seen, f.six, field, cidrs[field]);
    assert cidrs - (todo - {field}) == seen[field := cidrs[field]];
  }

  /** One turn of that loop. */
  method LoadCidr(text: Text, field: string, value: string, trie: CidrTrie)
    requires trie.Valid()
    modifies trie.ipv4, trie.ipv4.nodes, trie.ipv6, trie.ipv6.nodes
    ensures trie.Valid()
    ensures fresh(trie.ipv4.nodes - old(trie.ipv4.nodes)) && fresh(trie.ipv6.nodes - old(trie.ipv6.nodes))
    ensures trie.Value() == WithCidr(text, old(trie.Value()), field, value)
  {
    var cidr := text.trim(field);
    if cidr == "" {
      return;
    }
    var route := text.trim(value);
    if route == "" {
      return;
    }
    var parsed := text.parsePrefix(cidr);
    if parsed.None? {
      return;
    }
    trie.Insert(Rewritten(parsed.value), route);
  }

  method LoadRoutes(text: Text, direct: Route, redisDefault: string, domains: Hash, cidrs: Hash)
    returns (cache: RouteCache)
    ensures Loaded(text, domains, cidrs, cache)
    ensures cache.defaultRoute == if text.trim(redisDefault) != "" then text.trim(redisDefault) else direct
  {
    var default := text.trim(redisDefault);
    if default == "" {
      default := direct;
    }
    var exact, wildcards := LoadDomains(text, domains);
    var trie := new CidrTrie();
    LoadCidrs(text, cidrs, trie);
    cache := RouteCache(exact, wildcards, trie, default);
  }

  /** The cache holds the rules of the hashes. */
  ghost predicate Loaded(text: Text, domains: Hash, cidrs: Hash, cache: RouteCache)
    reads cache.wildcards, cache.wildcards.trie, cache.wildcards.trie.nodes
    reads cache.cidrs.ipv4, cache.cidrs.ipv4.nodes, cache.cidrs.ipv6, cache.cidrs.ipv6.nodes
  {
    && cache.wildcards.Valid() && cache.cidrs.Valid()
    && DomainsLoaded(text, domains, cache.domains, cache.wildcards.trie.rules)
    && IsFamilies(text, cidrs, cache.cidrs.Value())
  }

  // ---- resolving ------------------------------------------------------------------------------------

  /** Address `i` has the longest match among the first `n`, and is the earliest with that length. */
  ghost predicate BestOf(f: Families, ips: seq<Addr>, n: nat, i: int, bits: nat, route: Route)
    requires n <= |ips|
  {
    && 0 <= i < n && Scan(f, ips[i]) == Some((bits, route))
    && forall j :: 0 <= j < n && Scan(f, ips[j]).Some? ==>
         Scan(f, ips[j]).value.0 <= bits && (j < i ==> Scan(f, ips[j]).value.0 < bits)
  }

  ghost predicate NoMatch(f: Families, ips: seq<Addr>, n: nat)
    requires n <= |ips|
  {
    forall j :: 0 <= j < n ==> Scan(f, ips[j]).None?
  }

  ghost predicate BestSoFar(f: Families, ips: seq<Addr>, n: nat, found: bool, i: int, bits: nat, route: Route)
    requires n <= |ips|
  {
    if found then BestOf(f, ips, n, i, bits, route) else NoMatch(f, ips, n)
  }

  lemma NextAddress(f: Families, ips: seq<Addr>, n: nat, found: bool, i: int, bits: nat, route: Route)
    requires n < |ips| && BestSoFar(f, ips, n, found, i, bits, route)
    ensures var r := Scan(f, ips[n]);
            if r.Some? && (!found || r.value.0 > bits) then BestSoFar(f, ips, n + 1, true, n, r.value.0, r.value.1)
            else BestSoFar(f, ips, n + 1, found, i, bits, route)
  {
  }

  /** `resolveCIDRRoute`, given the addresses the name resolves to. */
  method ResolveCidrRoute(trie: CidrTrie, answer: Option<seq<Addr>>) returns (found: bool, route: Route)
    requires trie.Valid()
    ensures answer.None? ==> !found
    ensures answer.Some? && !found ==> NoMatch(trie.Value(), answer.value, |answer.value|)
    ensures found ==> answer.Some?
                      && exists i, bits :: BestOf(trie.Value(), answer.value, |answer.value|, i, bits, route)
  {
    found, route := false, "";
    if answer.None? {
      return;
    }
    ghost var f := trie.Value();
    var ips := answer.value;
    var best: nat := 0;
    ghost var who: int := 0;
    var n := 0;
    while n < |ips|
      invariant 0 <= n <= |ips|
      invariant BestSoFar(f, ips, n, found, who, best, route)
    {
      var ok, bits, r := trie.Lookup(ips[n]);
      NextAddress(f, ips, n, found, who, best, route);
      if ok && (!found || bits > best) {
        found, route, best, who := true, r, bits, n;
      }
      n := n + 1;
    }
    assert found ==> BestOf(trie.Value(), answer.value, |answer.value|, who, best, route);
  }

  function TrimDot(host: string): string {
    if host != "" && host[|host| - 1] == '.' then host[..|host| - 1] else host
  }

  /** What is left of a host: the host part, if the trimmed and lower-cased text splits into host and port, and
      else all of that text. */
  predicate Leaves(text: Text, host: string, left: string) {
    var h := text.lower(text.trim(host));
    text.splitHostPort(h) == Some(left) || (text.splitHostPort(h).None? && h == left)
  }

  /** What is left of the host is `name`, up to two final dots. */
  predicate IsNamed(text: Text, host: string, name: string) {
    Leaves(text, host, name) || Leaves(text, host, name + ".") || Leaves(text, host, name + "..")
  }

  /** For any rule hashes, loaded in any order, and any host whose name has no empty label, the route is the naive
      scan's; a host of which nothing or a single dot is left goes to the direct route. */
  method ResolveRoute(text: Text, direct: Route, cache: RouteCache, dns: string -> Option<seq<Addr>>, host: string,
                      ghost domains: Hash, ghost cidrs: Hash)
    returns (route: Route)
    requires Loaded(text, domains, cidrs, cache)
    ensures Leaves(text, host, "") || Leaves(text, host, ".") ==> route == direct
    ensures forall name :: IsNamed(text, host, name) && NoEmptyLabel(name) ==>
              NaiveRoute(text, domains, cidrs, cache.defaultRoute, dns, name, route)
  {
    var h := text.lower(text.trim(host));
    if text.splitHostPort(h).Some? {
      h := text.splitHostPort(h).value;
    }
    forall name | IsNamed(text, host, name) && NoEmptyLabel(name)
      ensures TrimDot(h) != "" && TrimDot(TrimDot(h)) == name {
      OnlyDotsGo(name);
    }
    h := TrimDot(h);
    if h == "" {
      return direct;
    }
    route := ResolveHost(text, cache, dns, TrimDot(h), domains, cidrs);
  }

  /** A name without empty labels is not empty and does not end in a dot, so only the dots after it are trimmed. */
  lemma OnlyDotsGo(name: string)
    requires NoEmptyLabel(name)
    ensures name != "" && TrimDot(name) == name && TrimDot(name + ".") == name && TrimDot(name + "..") == name + "."
  {
    if name != "" && name[|name| - 1] == '.' {
      var front := name[..|name| - 1];
      assert name == front + "." + "";
      SplitAtDot(front, "");
    }
    assert (name + ".")[..|name|] == name && (name + "..")[..|name| + 1] == name + ".";
  }

  /** The precedence of the rules: exact, wildcard, literal address, resolved addresses, default. */
  method ResolveHost(text: Text, cache: RouteCache, dns: string -> Option<seq<Addr>>, host: string,
                     ghost domains: Hash, ghost cidrs: Hash)
    returns (route: Route)
    requires Loaded(text, domains, cidrs, cache)
    ensures NoEmptyLabel(host) ==> NaiveRoute(text, domains, cidrs, cache.defaultRoute, dns, host, route)
  {
    ExactIsNaive(text, domains, cache.domains, host);
    if host in cache.domains {
      return cache.domains[host];
    }
    var found;
    found, route := ResolveWildcard(text, cache.wildcards, host, domains);
    if !found {
      route := ResolveByAddress(text, cache, dns, host, cidrs);
    }
  }

  /** The wildcard lookup finds the longest wildcard the host lies under, exactly when there is one. */
  method ResolveWildcard(text: Text, wildcards: DomainTrie, host: string, ghost domains: Hash)
    returns (found: bool, route: Route)
    requires wildcards.Valid() && IsTable(WildcardKey(text), domains, wildcards.trie.rules)
    ensures NoEmptyLabel(host) ==> (found <==> exists d, v :: WildcardMatch(text, domains, host, d, v))
    ensures NoEmptyLabel(host) && found ==> exists d :: LongestWildcard(text, domains, host, d, route)
  {
    found, route := wildcards.LookupWildcard(host);
    if NoEmptyLabel(host) {
      if found {
        ghost var domain := WildcardFound(text, domains, wildcards.trie.rules, host);
        assert WildcardMatch(text, domains, host, domain, route);
      } else {
        WildcardMissed(text, domains, wildcards.trie.rules, host);
      }
    }
  }

  method ResolveByAddress(text: Text, cache: RouteCache, dns: string -> Option<seq<Addr>>, host: string,
                          ghost cidrs: Hash)
    returns (route: Route)
    requires cache.cidrs.Valid() && IsFamilies(text, cidrs, cache.cidrs.Value())
    ensures match text.parseAddr(host)
            case Some(addr) => NaiveLiteral(text, cidrs, cache.defaultRoute, addr, route)
            case None => NaiveResolved(text, cidrs, cache.defaultRoute, dns(host), route)
  {
    var found;
    if text.parseAddr(host).Some? {
      var bits;
      CidrIsNaive(text, cidrs, cache.cidrs.Value(), text.parseAddr(host).value);
      found, bits, route := cache.cidrs.Lookup(text.parseAddr(host).value);
      if !found {
        route := cache.defaultRoute;
      }
      return;
    }
    found, route := ResolveCidrRoute(cache.cidrs, dns(host));
    ResolvedIsNaive(text, cidrs, cache.cidrs.Value(), cache.defaultRoute, dns(host), found, route);
    if !found {
      route := cache.defaultRoute;
    }
  }

  lemma ResolvedIsNaive(text: Text, cidrs: Hash, f: Families, default: Route, answer: Option<seq<Addr>>,
                        found: bool, route: Route)
    requires IsFamilies(text, cidrs, f)
    requires answer.Some? && !found ==> NoMatch(f, answer.value, |answer.value|)
    requires found ==> answer.Some? && exists i, bits :: BestOf(f, answer.value, |answer.value|, i, bits, route)
    ensures NaiveResolved(text, cidrs, default, answer, if found then route else default)
  {
    if found {
      FoundIsNaive(text, cidrs, f, default, answer.value, route);
    } else if answer.Some? {
      MissIsNaive(text, cidrs, f, answer.value);
    }
  }

  lemma MissIsNaive(text: Text, cidrs: Hash, f: Families, ips: seq<Addr>)
    requires IsFamilies(text, cidrs, f) && NoMatch(f, ips, |ips|)
    ensures forall i, p, v :: 0 <= i < |ips| ==> !CidrMatch(text, cidrs, ips[i], p, v)
  {
    forall i | 0 <= i < |ips| ensures forall p, v :: !CidrMatch(text, cidrs, ips[i], p, v) {
      CidrIsNaive(text, cidrs, f, ips[i]);
    }
  }

  lemma FoundIsNaive(text: Text, cidrs: Hash, f: Families, default: Route, ips: seq<Addr>, route: Route)
    requires IsFamilies(text, cidrs, f) && exists i, bits :: BestOf(f, ips, |ips|, i, bits, route)
    ensures NaiveResolved(text, cidrs, default, Some(ips), route)
  {
    var i, bits :| BestOf(f, ips, |ips|, i, bits, route);
    CidrIsNaive(text, cidrs, f, ips[i]);
    BestIsLongest(text, cidrs, f, ips, i, bits, route);
  }

  lemma BestIsLongest(text: Text, cidrs: Hash, f: Families, ips: seq<Addr>, i: int, bits: nat, route: Route)
    requires IsFamilies(text, cidrs, f) && BestOf(f, ips, |ips|, i, bits, route)
    ensures LongestAnswer(text, cidrs, ips, i, bits, route)
  {
    CidrIsNaive(text, cidrs, f, ips[i]);
    forall j, n, v | 0 <= j < |ips| && LongestCidr(text, cidrs, ips[j], n, v)
      ensures n <= bits && (j < i ==> n < bits) {
      CidrIsNaive(text, cidrs, f, ips[j]);
    }
  }
}
