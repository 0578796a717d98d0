/** CIDR rules: addresses, prefixes, and the two binary tries that `CIDRTrie.insert` builds in place
    and `CIDRTrie.lookup` walks, proved against a naive scan of the inserted rules. */
module Cidr {

  import opened Options
  import opened Tries

  type Bits = seq<bool>

  /** `netip.Addr`: 32 or 128 bits, most significant first. An IPv4-in-IPv6 address is a `V6`. */
  datatype Addr = Invalid | V4(bits: Bits) | V6(bits: Bits)

  predicate IsAddr(a: Addr) {
    match a
    case Invalid => false
    case V4(bits) => |bits| == 32
    case V6(bits) => |bits| == 128
  }

  function MappedPrefix(): Bits {
    seq(80, _ => false) + seq(16, _ => true)
  }

  predicate IsMapped(a: Addr) {
    a.V6? && |a.bits| == 128 && a.bits[..96] == MappedPrefix()
  }

  function Unmap(a: Addr): Addr {
    if IsMapped(a) then V4(a.bits[96..]) else a
  }

  /** The IPv4-in-IPv6 form of an IPv4 address. */
  function MapV4(a: Addr): Addr
    requires a.V4?
  {
    V6(MappedPrefix() + a.bits)
  }

  datatype Prefix = Prefix(addr: Addr, bits: int)

  predicate IsPrefix(p: Prefix) {
    IsAddr(p.addr) && 0 <= p.bits <= |p.addr.bits|
  }

  function MaskBits(bits: Bits, n: nat): (r: Bits)
    requires n <= |bits|
    ensures |r| == |bits| && r[..n] == bits[..n]
  {
    bits[..n] + seq(|bits| - n, _ => false)
  }

  function Masked(p: Prefix): (r: Prefix)
    requires IsPrefix(p)
    ensures IsPrefix(r) && r.bits == p.bits && (r.addr.V4? <==> p.addr.V4?) && Path(r) == Path(p)
  {
    var bits := MaskBits(p.addr.bits, p.bits);
    Prefix(if p.addr.V4? then V4(bits) else V6(bits), p.bits)
  }

  /** The bits a rule fixes; an address matches when they start it. */
  function Path(p: Prefix): Bits
    requires IsPrefix(p)
  {
    p.addr.bits[..p.bits]
  }

  // ---- bytes of an address ---------------------------------------------------------------

  function Bit(b: bool): nat {
    if b then 1 else 0
  }

  function Byte8(b: Bits): nat
    requires |b| == 8
  {
    128 * Bit(b[0]) + 64 * Bit(b[1]) + 32 * Bit(b[2]) + 16 * Bit(b[3])
    + 8 * Bit(b[4]) + 4 * Bit(b[5]) + 2 * Bit(b[6]) + Bit(b[7])
  }

  /** `As4`/`As16`. */
  function Raw(bits: Bits): (r: seq<nat>)
    requires |bits| % 8 == 0
    ensures |r| == |bits| / 8
    ensures forall j :: 0 <= j < |r| ==> r[j] == Byte8(bits[8 * j..8 * j + 8])
  {
    seq(|bits| / 8, j requires 0 <= j < |bits| / 8 => Byte8(bits[8 * j..8 * j + 8]))
  }

  function Pow2(n: nat): nat {
    match n
    case 0 => 1 case 1 => 2 case 2 => 4 case 3 => 8 case 4 => 16 case 5 => 32 case 6 => 64
    case _ => 128
  }

  /** `(raw[i/8] >> uint(7-(i%8))) & 1`. */
  function RawBit(raw: seq<nat>, i: nat): bool
    requires i / 8 < |raw|
  {
    (raw[i / 8] / Pow2(7 - i % 8)) % 2 == 1
  }

  lemma MultipleIsFar(m: int, d: int)
    requires m > 0
    ensures d >= 1 ==> m * d >= m
    ensures d <= -1 ==> m * d <= -m
  {
  }

  lemma DivBy(x: int, m: int, q: int, r: int)
    requires m > 0 && x == m * q + r && 0 <= r < m
    ensures x / m == q
  {
    var d := x / m - q;
    assert m * d == r - x % m;
    MultipleIsFar(m, d);
  }

  lemma HighBitOfByte(b: Bits, k: nat)
    requires |b| == 8 && k < 4
    ensures ((Byte8(b) / Pow2(7 - k)) % 2 == 1) == b[k]
  {
    var q1 := Bit(b[0]);
    var q2 := 2 * q1 + Bit(b[1]);
    var q3 := 2 * q2 + Bit(b[2]);
    var q4 := 2 * q3 + Bit(b[3]);
    var x := Byte8(b);
    match k
    case 0 => DivBy(x, 128, q1, x - 128 * q1);
    case 1 => DivBy(x, 64, q2, x - 64 * q2);
    case 2 => DivBy(x, 32, q3, x - 32 * q3);
    case _ => DivBy(x, 16, q4, x - 16 * q4);
  }

  lemma LowBitOfByte(b: Bits, k: nat)
    requires |b| == 8 && 4 <= k < 8
    ensures ((Byte8(b) / Pow2(7 - k)) % 2 == 1) == b[k]
  {
    var q4 := 8 * Bit(b[0]) + 4 * Bit(b[1]) + 2 * Bit(b[2]) + Bit(b[3]);
    var q5 := 2 * q4 + Bit(b[4]);
    var q6 := 2 * q5 + Bit(b[5]);
    var q7 := 2 * q6 + Bit(b[6]);
    var x := Byte8(b);
    assert x == 2 * q7 + Bit(b[7]);
    match k
    case 4 => DivBy(x, 8, q5, x - 8 * q5);
    case 5 => DivBy(x, 4, q6, x - 4 * q6);
    case 6 => DivBy(x, 2, q7, x - 2 * q7);
    case _ =>
  }

  /** Picking bit `i` out of the address bytes gives bit `i` of the address. */
  lemma RawBitIsBit(bits: Bits, i: nat)
    requires |bits| % 8 == 0 && i < |bits|
    ensures RawBit(Raw(bits), i) == bits[i]
  {
    var j, k := i / 8, i % 8;
    if k < 4 { HighBitOfByte(bits[8 * j..8 * j + 8], k); } else { LowBitOfByte(bits[8 * j..8 * j + 8], k); }
  }

  // ---- the tables of the two families, and the naive scan -------------------------------------

  datatype Families = Families(four: Table<bool>, six: Table<bool>) {
    function Of(isFour: bool): Table<bool> {
      if isFour then four else six
    }
  }

  /** The tables after one insert: an invalid prefix changes nothing. */
  function Inserted(f: Families, p: Prefix, route: Route): Families {
    if !IsPrefix(p) then f
    else if p.addr.V4? then f.(four := f.four[Path(p) := route])
    else f.(six := f.six[Path(p) := route])
  }

  function InsertAll(rules: seq<(Prefix, Route)>): Families {
    if rules == [] then Families(map[], map[]) else
      var n := |rules| - 1;
      Inserted(InsertAll(rules[..n]), rules[n].0, rules[n].1)
  }

  /** The path a rule has in one family. */
  function PathIn(p: Prefix, isFour: bool): Option<Bits> {
    if IsPrefix(p) && p.addr.V4? == isFour then Some(Path(p)) else None
  }

  /** The inserts of one family. */
  function Entries(rules: seq<(Prefix, Route)>, isFour: bool): (r: seq<Entry<bool>>)
    ensures |r| == |rules|
    ensures forall i :: 0 <= i < |r| ==> r[i] == (PathIn(rules[i].0, isFour), rules[i].1)
  {
    seq(|rules|, i requires 0 <= i < |rules| => (PathIn(rules[i].0, isFour), rules[i].1))
  }

  lemma {:induction false} InsertsByFamily(rules: seq<(Prefix, Route)>, isFour: bool)
    ensures InsertAll(rules).Of(isFour) == TableOf(Entries(rules, isFour))
  {
    if rules != [] {
      var n := |rules| - 1;
      InsertsByFamily(rules[..n], isFour);
      assert Entries(rules, isFour)[..n] == Entries(rules[..n], isFour);
    }
  }

  /** What a lookup returns for tables `f`: the longest match in the address's family. */
  function Scan(f: Families, addr: Addr): Option<(nat, Route)> {
    if !IsAddr(addr) then None else
      var a := Unmap(addr);
      Longest(f.Of(a.V4?), a.bits, |a.bits|)
  }

  /** The rule is of the address's family and its fixed bits start the address. */
  ghost predicate CoversAddr(p: Prefix, addr: Addr)
    requires IsAddr(addr)
  {
    IsPrefix(p) && p.addr.V4? == addr.V4? && Path(p) <= addr.bits
  }

  /** Rule `i` is the last one inserted for its family and path. */
  ghost predicate LastRule(rules: seq<(Prefix, Route)>, i: int) {
    && 0 <= i < |rules| && IsPrefix(rules[i].0)
    && forall j :: i < j < |rules| ==> PathIn(rules[j].0, rules[i].0.addr.V4?) != Some(Path(rules[i].0))
  }

  lemma CoversIffEntry(rules: seq<(Prefix, Route)>, a: Addr)
    requires IsAddr(a)
    ensures forall i :: 0 <= i < |rules| ==>
              (CoversAddr(rules[i].0, a) <==> Covers(Entries(rules, a.V4?), i, a.bits, |a.bits|))
  {
  }

  lemma LastRuleIffEntry(rules: seq<(Prefix, Route)>, i: int, isFour: bool, path: Bits)
    requires LastAt(Entries(rules, isFour), i, path)
    ensures LastRule(rules, i) && PathIn(rules[i].0, isFour) == Some(path)
  {
    forall j | i < j < |rules| ensures PathIn(rules[j].0, isFour) != Some(path) {
      assert !EntryAt(Entries(rules, isFour), j, path);
    }
  }

  /** The scan of the tables after any list of inserts: the longest rule that covers the address in
      its own family, with the route inserted last for it; none exactly when no rule covers it. */
  lemma ScanIsLongestRule(rules: seq<(Prefix, Route)>, addr: Addr)
    requires IsAddr(addr)
    ensures Scan(InsertAll(rules), addr).Some? <==>
              exists i :: 0 <= i < |rules| && CoversAddr(rules[i].0, Unmap(addr))
    ensures Scan(InsertAll(rules), addr).Some? ==>
              var (n, route) := Scan(InsertAll(rules), addr).value;
              && (exists i :: LastRule(rules, i) && CoversAddr(rules[i].0, Unmap(addr))
                              && rules[i].0.bits == n && rules[i].1 == route)
              && (forall i :: 0 <= i < |rules| && CoversAddr(rules[i].0, Unmap(addr)) ==> rules[i].0.bits <= n)
  {
    InsertsByFamily(rules, Unmap(addr).V4?);
    EntriesScan(rules, Unmap(addr));
  }

  /** The scan of the inserts of the address's own family. */
  lemma EntriesScan(rules: seq<(Prefix, Route)>, a: Addr)
    requires IsAddr(a)
    ensures var r := Longest(TableOf(Entries(rules, a.V4?)), a.bits, |a.bits|);
            && (r.Some? <==> exists i :: 0 <= i < |rules| && CoversAddr(rules[i].0, a))
            && (r.Some? ==>
                  && (exists i :: LastRule(rules, i) && CoversAddr(rules[i].0, a)
                                  && rules[i].0.bits == r.value.0 && rules[i].1 == r.value.1)
                  && (forall i :: 0 <= i < |rules| && CoversAddr(rules[i].0, a) ==> rules[i].0.bits <= r.value.0))
  {
    var entries := Entries(rules, a.V4?);
    ScanIsLongestEntry(entries, a.bits, |a.bits|);
    CoversIffEntry(rules, a);
    var r := Longest(TableOf(entries), a.bits, |a.bits|);
    if r.Some? {
      var i :| LastAt(entries, i, a.bits[..r.value.0]) && entries[i].1 == r.value.1;
      LastRuleIffEntry(rules, i, a.V4?, a.bits[..r.value.0]);
      assert CoversAddr(rules[i].0, a) && rules[i].0.bits == r.value.0;
    }
  }

  /** No two valid rules are for the same family and path. */
  ghost predicate DistinctRules(rules: seq<(Prefix, Route)>) {
    forall i, j :: 0 <= i < j < |rules| && IsPrefix(rules[i].0) ==>
                     PathIn(rules[j].0, rules[i].0.addr.V4?) != Some(Path(rules[i].0))
  }

  /** For distinct masked prefixes the order of the inserts does not matter. */
  lemma OrderDoesNotMatter(a: seq<(Prefix, Route)>, b: seq<(Prefix, Route)>)
    requires DistinctRules(a) && DistinctRules(b) && forall r :: r in a <==> r in b
    ensures InsertAll(a) == InsertAll(b)
  {
    forall isFour: bool ensures InsertAll(a).Of(isFour) == InsertAll(b).Of(isFour) {
      InsertsByFamily(a, isFour);
      InsertsByFamily(b, isFour);
      EntriesFrom(a, b, isFour);
      EntriesFrom(b, a, isFour);
      AnyOrder(Entries(a, isFour), Entries(b, isFour));
    }
    assert InsertAll(a).Of(true) == InsertAll(b).Of(true);
    assert InsertAll(a).Of(false) == InsertAll(b).Of(false);
  }

  lemma EntriesFrom(a: seq<(Prefix, Route)>, b: seq<(Prefix, Route)>, isFour: bool)
    requires forall r :: r in a ==> r in b
    ensures forall e :: e in Entries(a, isFour) ==> e in Entries(b, isFour)
  {
    forall e | e in Entries(a, isFour) ensures e in Entries(b, isFour) {
      var i :| 0 <= i < |a| && Entries(a, isFour)[i] == e;
      assert a[i] in b;
      var j :| 0 <= j < |b| && b[j] == a[i];
      assert Entries(b, isFour)[j] == e;
    }
  }

  // ---- IPv4-in-IPv6 rules ----------------------------------------------------------------

  /** The rule that `loadRoutes` inserts for a parsed prefix. */
  function Rewritten(p: Prefix): (r: Prefix)
    requires IsPrefix(p)
    ensures IsPrefix(r)
  {
    var m := Masked(p);
    if m.addr.V6? && IsMapped(m.addr) && m.bits >= 96 then Masked(Prefix(Unmap(m.addr), m.bits - 96)) else m
  }

  /** A masked prefix whose address is an IPv4-in-IPv6 one always has at least 96 bits. */
  lemma MappedHas96Bits(p: Prefix)
    requires IsPrefix(p) && IsMapped(Masked(p).addr)
    ensures p.bits >= 96
  {
    var m := Masked(p).addr.bits;
    assert m[95] == MappedPrefix()[95] by { assert m[..96][95] == m[95]; }
  }

  /** The rewritten rule matches exactly the IPv4 addresses whose IPv4-in-IPv6 form the rule covers. */
  lemma RewrittenMatchesSame(p: Prefix, a: Addr)
    requires IsPrefix(p) && IsMapped(Masked(p).addr) && IsAddr(a) && a.V4?
    ensures Rewritten(p).addr.V4?
    ensures Path(Rewritten(p)) <= a.bits <==> Path(p) <= MapV4(a).bits
  {
    MappedHas96Bits(p);
    var m := Masked(p);
    var n := m.bits - 96;
    var four := m.addr.bits[96..];
    assert Path(Rewritten(p)) == four[..n];
    assert m.addr.bits == MappedPrefix() + four;
    assert Path(p) == MappedPrefix() + four[..n] by {
      assert Path(m) == m.addr.bits[..96 + n];
    }
    if four[..n] <= a.bits {
      assert MapV4(a).bits[..96 + n] == MappedPrefix() + a.bits[..n];
    }
    if Path(p) <= MapV4(a).bits {
      assert MapV4(a).bits[..96 + n] == Path(p);
      assert MapV4(a).bits[96..96 + n] == Path(p)[96..];
      assert a.bits[..n] == MapV4(a).bits[96..96 + n];
    }
  }

  // ---- the tries, built in place ---------------------------------------------------------------

  /** The bits picked out of `raw` are the address bits. */
  ghost predicate BytesOf(raw: seq<nat>, addr: Bits) {
    |addr| <= 8 * |raw| && forall i :: 0 <= i < |addr| ==> RawBit(raw, i) == addr[i]
  }

  lemma RawIsBytes(addr: Bits)
    requires |addr| % 8 == 0
    ensures BytesOf(Raw(addr), addr)
  {
    forall i | 0 <= i < |addr| ensures RawBit(Raw(addr), i) == addr[i] {
      RawBitIsBit(addr, i);
    }
  }

  method TakeBit(raw: seq<nat>, i: nat, ghost addr: Bits) returns (bit: bool)
    requires BytesOf(raw, addr) && i < |addr|
    ensures bit == addr[i]
  {
    bit := RawBit(raw, i);
  }

  /** The insert loop: the node of the path, with the nodes on the way made where missing. */
  method ReachBits(trie: Trie<bool>, raw: seq<nat>, bits: nat, ghost addr: Bits) returns (node: Node<bool>)
    requires trie.Valid() && BytesOf(raw, addr) && bits <= |addr|
    modifies trie, trie.nodes
    ensures trie.Valid() && fresh(trie.nodes - old(trie.nodes)) && trie.rules == old(trie.rules)
    ensures trie.Here(node, addr[..bits])
  {
    node := trie.root;
    var i := 0;
    while i < bits
      invariant 0 <= i <= bits
      invariant fresh(trie.nodes - old(trie.nodes)) && trie.rules == old(trie.rules) && trie.Valid()
      invariant trie.Here(node, addr[..i])
    {
      var bit := TakeBit(raw, i, addr);
      assert addr[..i + 1] == Below(addr[..i], addr[i]);
      node := trie.Descend(node, bit, addr[..i]);
      i := i + 1;
    }
  }

  /** `insert` below the root of its family. */
  method InsertBits(trie: Trie<bool>, raw: seq<nat>, bits: nat, route: Route, ghost addr: Bits)
    requires trie.Valid() && BytesOf(raw, addr) && bits <= |addr|
    modifies trie, trie.nodes
    ensures trie.Valid() && fresh(trie.nodes - old(trie.nodes))
    ensures trie.rules == old(trie.rules)[addr[..bits] := route]
  {
    var node := ReachBits(trie, raw, bits, addr);
    trie.SetRoute(node, route, addr[..bits]);
  }

  /** `lookup` below the root of its family: the naive scan of its rules. */
  method LookupBits(trie: Trie<bool>, raw: seq<nat>, maxBits: nat, ghost addr: Bits)
    returns (found: bool, best: nat, route: Route)
    requires trie.Valid() && BytesOf(raw, addr) && maxBits == |addr|
    ensures Longest(trie.rules, addr, maxBits) == if found then Some((best, route)) else None
  {
    found, best, route := WalkBits(trie, raw, maxBits, addr);
    trie.Conclude(addr, maxBits, found, best);
  }

  /** The lookup loop. */
  method WalkBits(trie: Trie<bool>, raw: seq<nat>, maxBits: nat, ghost addr: Bits)
    returns (found: bool, best: nat, route: Route)
    requires trie.Valid() && BytesOf(raw, addr) && maxBits == |addr|
    ensures trie.BestUpTo(addr, maxBits, found, best)
    ensures found ==> trie.rules[addr[..best]] == route
  {
    found, best, route := false, 0, "";
    var node := trie.root;
    assert addr[..0] == [] && trie.RouteOk([]);
    if node.hasRoute {
      found, route := true, node.route;
    }
    var i := 0;
    while i < maxBits
      invariant 0 <= i <= maxBits
      invariant trie.Here(node, addr[..i])
      invariant trie.BestUpTo(addr, i, found, best)
      invariant found ==> trie.rules[addr[..best]] == route
    {
      var bit := TakeBit(raw, i, addr);
      assert addr[..i + 1] == Below(addr[..i], addr[i]);
      trie.ChildIs(node, addr[..i], bit);
      if bit !in node.children {
        trie.NothingBelow(addr, i, maxBits, found, best);
        break;
      }
      node := node.children[bit];
      trie.OneFurther(addr, i, found, best);
      if node.hasRoute {
        found, best, route := true, i + 1, node.route;
      }
      i := i + 1;
    }
  }

  /** The two families. A family whose root has not been made yet is one with a bare root. */
  class CidrTrie {
    const ipv4: Trie<bool>
    const ipv6: Trie<bool>

    ghost predicate Valid()
      reads ipv4, ipv4.nodes, ipv6, ipv6.nodes
    {
      ipv4.Valid() && ipv6.Valid() && ipv4 != ipv6 && ipv4.nodes !! ipv6.nodes
    }

    ghost function Value(): Families
      reads ipv4, ipv6
    {
      Families(ipv4.rules, ipv6.rules)
    }

    constructor ()
      ensures Valid() && fresh(ipv4) && fresh(ipv4.nodes) && fresh(ipv6) && fresh(ipv6.nodes)
      ensures Value() == InsertAll([])
    {
      ipv4 := new Trie();
      ipv6 := new Trie();
    }

    method Insert(prefix: Prefix, route: Route)
      requires Valid()
      modifies ipv4, ipv4.nodes, ipv6, ipv6.nodes
      ensures Valid() && fresh(ipv4.nodes - old(ipv4.nodes)) && fresh(ipv6.nodes - old(ipv6.nodes))
      ensures Value() == Inserted(old(Value()), prefix, route)
    {
      if !IsPrefix(prefix) {
        return;
      }
      var masked := Masked(prefix);
      var addr := masked.addr;
      RawIsBytes(addr.bits);
      if addr.V4? {
        InsertBits(ipv4, Raw(addr.bits), masked.bits, route, addr.bits);
      } else {
        InsertBits(ipv6, Raw(addr.bits), masked.bits, route, addr.bits);
      }
    }

    /** The answer for an address: `found` with the length and route of the naive scan, else not found. */
    method Lookup(addr: Addr) returns (found: bool, bits: nat, route: Route)
      requires Valid()
      ensures Scan(Value(), addr) == if found then Some((bits, route)) else None
    {
      if !IsAddr(addr) {
        return false, 0, "";
      }
      var a := Unmap(addr);
      RawIsBytes(a.bits);
      found, bits, route := LookupBits(if a.V4? then ipv4 else ipv6, Raw(a.bits), |a.bits|, a.bits);
    }
  }
}
