/** Single flight in `CheckCredentials`: any number of calls, one lock section or channel step each. */
module AuthFlight {

  /** A cache key: user name and password digest. */
  type Key = (string, seq<int>)
  type Flight = nat

  const PBKDF2_CONCURRENCY := 2

  /** Where a call is. A leader has put its flight in the map and has not yet taken it out. */
  datatype Point =
    | Waits(f: Flight, key: Key)
    | Leads(f: Flight, key: Key)
    | Derives(f: Flight, key: Key)
    | Derived(f: Flight, key: Key, ok: bool)
    | Returned(f: Flight, key: Key, ok: bool)

  datatype FlightState = FlightState(key: Key, leader: nat, done: bool, ok: bool)

  /** `inflight` and `sem` are the store's fields; `flights` holds every `authInflight` ever made;
      `answer` (history) the result each leader derived. */
  datatype State = State(
    inflight: map<Key, Flight>, sem: nat, flights: map<Flight, FlightState>, next: nat,
    at: map<nat, Point>, answer: map<Flight, bool>)

  const Init := State(map[], 0, map[], 0, map[], map[])

  datatype Event =
    | Enter(g: nat, key: Key)
    | Acquire(g: nat)
    | Derive(g: nat, ok: bool)
    | Publish(g: nat)
    | WaiterReturns(g: nat)

  function Next(s: State, e: Event): State {
    match e
    case Enter(g, key) =>
      if g in s.at then s
      else if key in s.inflight then s.(at := s.at[g := Waits(s.inflight[key], key)])
      else s.(inflight := s.inflight[key := s.next],
              flights := s.flights[s.next := FlightState(key, g, false, false)],
              next := s.next + 1,
              at := s.at[g := Leads(s.next, key)])
    case Acquire(g) =>
      if g !in s.at || !s.at[g].Leads? || s.sem >= PBKDF2_CONCURRENCY then s
      else s.(sem := s.sem + 1, at := s.at[g := Derives(s.at[g].f, s.at[g].key)])
    case Derive(g, ok) =>
      if g !in s.at || !s.at[g].Derives? || s.sem == 0 then s
      else s.(sem := s.sem - 1, at := s.at[g := Derived(s.at[g].f, s.at[g].key, ok)],
              answer := s.answer[s.at[g].f := ok])
    case Publish(g) =>
      if g !in s.at || !s.at[g].Derived? || s.at[g].f !in s.flights then s
      else
        var p := s.at[g];
        s.(flights := s.flights[p.f := s.flights[p.f].(ok := p.ok, done := true)],
           inflight := s.inflight - {p.key},
           at := s.at[g := Returned(p.f, p.key, p.ok)])
    case WaiterReturns(g) =>
      if g !in s.at || !s.at[g].Waits? || s.at[g].f !in s.flights || !s.flights[s.at[g].f].done then s
      else s.(at := s.at[g := Returned(s.at[g].f, s.at[g].key, s.flights[s.at[g].f].ok)])
  }

  function Run(es: seq<Event>): State {
    if es == [] then Init else Next(Run(es[..|es| - 1]), es[|es| - 1])
  }

  predicate IsLeader(p: Point) {
    p.Leads? || p.Derives? || p.Derived?
  }

  function Deriving(s: State): set<nat> {
    set g | g in s.at && s.at[g].Derives?
  }

  ghost predicate LeaderOk(s: State, g: nat)
    requires g in s.at && IsLeader(s.at[g])
  {
    var p := s.at[g];
    && p.key in s.inflight && s.inflight[p.key] == p.f
    && p.f in s.flights && s.flights[p.f].key == p.key && s.flights[p.f].leader == g && !s.flights[p.f].done
    && (p.Derived? <==> p.f in s.answer)
    && (p.Derived? ==> s.answer[p.f] == p.ok)
  }

  ghost predicate FlightOk(s: State, f: Flight)
    requires f in s.flights
  {
    var x := s.flights[f];
    && f < s.next
    && (x.done ==> f in s.answer && s.answer[f] == x.ok)
    && (!x.done ==> x.leader in s.at && IsLeader(s.at[x.leader]) && s.at[x.leader].f == f)
  }

  ghost predicate Leaders(s: State) {
    forall g :: g in s.at && IsLeader(s.at[g]) ==> LeaderOk(s, g)
  }

  ghost predicate Flights(s: State) {
    forall f :: f in s.flights ==> FlightOk(s, f)
  }

  ghost predicate Listed(s: State) {
    forall k :: k in s.inflight ==>
      s.inflight[k] in s.flights && s.flights[s.inflight[k]].key == k && !s.flights[s.inflight[k]].done
  }

  /** A call takes part in a flight for the key it asked for itself. */
  predicate OwnFlight(s: State, p: Point) {
    p.f in s.flights && s.flights[p.f].key == p.key
  }

  ghost predicate Calls(s: State) {
    && (forall g :: g in s.at ==> OwnFlight(s, s.at[g]))
    && (forall g :: g in s.at && s.at[g].Returned? ==> s.at[g].f in s.answer && s.answer[s.at[g].f] == s.at[g].ok)
    && (forall f :: f in s.answer ==> f in s.flights)
  }

  ghost predicate SemOk(s: State) {
    s.sem == |Deriving(s)| <= PBKDF2_CONCURRENCY
  }

  ghost predicate Inv(s: State) {
    Leaders(s) && Flights(s) && Listed(s) && Calls(s) && SemOk(s)
  }

  lemma EnterKeeps(s: State, g: nat, key: Key)
    requires Inv(s) && g !in s.at
    ensures Inv(Next(s, Enter(g, key)))
  {
    var t := Next(s, Enter(g, key));
    assert Deriving(t) == Deriving(s);
    if key !in s.inflight {
      NewFlight(s, g, key);
    } else {
      BystanderKeeps(s, t, g);
    }
  }

  /** A call that leads nothing, before or after, arrives or moves on. */
  lemma BystanderKeeps(s: State, t: State, g: nat)
    requires Leaders(s) && Flights(s) && Listed(s) && Calls(s)
    requires t == s.(at := t.at) && g in t.at && t.at == s.at[g := t.at[g]]
    requires (g in s.at ==> !IsLeader(s.at[g])) && !IsLeader(t.at[g])
    requires OwnFlight(s, t.at[g])
    requires t.at[g].Returned? ==> t.at[g].f in s.answer && s.answer[t.at[g].f] == t.at[g].ok
    ensures Leaders(t) && Flights(t) && Listed(t) && Calls(t)
  {
    forall h | h in t.at && IsLeader(t.at[h]) ensures LeaderOk(t, h) { assert LeaderOk(s, h); }
    forall f | f in t.flights ensures FlightOk(t, f) { assert FlightOk(s, f); }
  }

  lemma NewFlightListed(s: State, g: nat, key: Key)
    requires Listed(s) && Calls(s) && g !in s.at && key !in s.inflight && s.next !in s.flights
    ensures var t := Next(s, Enter(g, key)); Listed(t) && Calls(t)
  {
  }

  lemma NewFlight(s: State, g: nat, key: Key)
    requires Inv(s) && g !in s.at && key !in s.inflight
    ensures var t := Next(s, Enter(g, key)); Leaders(t) && Flights(t) && Listed(t) && Calls(t)
  {
    var t := Next(s, Enter(g, key));
    assert forall f :: f in s.flights ==> FlightOk(s, f);
    assert s.next !in s.flights;
    assert s.next !in s.answer;
    NewFlightListed(s, g, key);
    forall h | h in t.at && IsLeader(t.at[h]) ensures LeaderOk(t, h) {
      if h != g { assert LeaderOk(s, h); }
    }
    forall f | f in t.flights ensures FlightOk(t, f) {
      if f in s.flights { assert FlightOk(s, f); }
    }
  }

  lemma AcquireKeeps(s: State, g: nat)
    requires Inv(s) && g in s.at && s.at[g].Leads? && s.sem < PBKDF2_CONCURRENCY
    ensures Inv(Next(s, Acquire(g)))
  {
    var t := Next(s, Acquire(g));
    assert SemOk(t) by { assert Deriving(t) == Deriving(s) + {g}; }
    AdvanceKeeps(s, t, g);
  }

  lemma DeriveKeeps(s: State, g: nat, ok: bool)
    requires Inv(s) && g in s.at && s.at[g].Derives? && s.sem > 0
    ensures Inv(Next(s, Derive(g, ok)))
  {
    var t := Next(s, Derive(g, ok));
    assert SemOk(t) by { DerivingLoses(s, t, g); }
    AdvanceKeeps(s, t, g);
  }

  lemma DerivingLoses(s: State, t: State, g: nat)
    requires g in s.at && s.at[g].Derives? && g in t.at && !t.at[g].Derives? && t.at == s.at[g := t.at[g]]
    ensures |Deriving(s)| == |Deriving(t)| + 1
  {
    assert Deriving(s) == Deriving(t) + {g};
  }

  /** A leader moves on to its next point with its flight; nobody else's flight or answer changes. */
  ghost predicate Advances(s: State, t: State, g: nat) {
    && g in s.at && IsLeader(s.at[g]) && g in t.at && IsLeader(t.at[g])
    && t.at == s.at[g := t.at[g]] && t.at[g].f == s.at[g].f && t.at[g].key == s.at[g].key
    && t.flights == s.flights && t.inflight == s.inflight && t.next == s.next && !s.at[g].Derived?
    && (if t.at[g].Derived? then t.answer == s.answer[t.at[g].f := t.at[g].ok] else t.answer == s.answer)
  }

  lemma AdvanceKeepsLeaders(s: State, t: State, g: nat)
    requires Leaders(s) && Advances(s, t, g)
    ensures Leaders(t)
  {
    assert LeaderOk(s, g);
    forall h | h in t.at && IsLeader(t.at[h]) ensures LeaderOk(t, h) {
      assert LeaderOk(s, h);
    }
  }

  lemma AdvanceKeeps(s: State, t: State, g: nat)
    requires Leaders(s) && Flights(s) && Listed(s) && Calls(s)
    requires Advances(s, t, g)
    ensures Leaders(t) && Flights(t) && Listed(t) && Calls(t)
  {
    assert LeaderOk(s, g);
    AdvanceKeepsLeaders(s, t, g);
    AdvanceKeepsFlights(s, t, g);
  }

  lemma AdvanceKeepsFlights(s: State, t: State, g: nat)
    requires Leaders(s) && Flights(s) && Advances(s, t, g) && LeaderOk(s, g)
    ensures Flights(t)
  {
    forall f | f in t.flights ensures FlightOk(t, f) {
      assert FlightOk(s, f);
    }
  }

  lemma PublishKeeps(s: State, g: nat)
    requires Inv(s) && g in s.at && s.at[g].Derived?
    ensures Inv(Next(s, Publish(g)))
  {
    assert Deriving(Next(s, Publish(g))) == Deriving(s);
    assert LeaderOk(s, g);
    PublishLeaders(s, g);
    PublishFlights(s, g);
    PublishRest(s, g);
  }

  lemma PublishLeaders(s: State, g: nat)
    requires Leaders(s) && g in s.at && s.at[g].Derived? && LeaderOk(s, g)
    ensures Leaders(Next(s, Publish(g)))
  {
    var t := Next(s, Publish(g));
    forall h | h in t.at && IsLeader(t.at[h]) ensures LeaderOk(t, h) {
      assert LeaderOk(s, h);
    }
  }

  lemma PublishFlights(s: State, g: nat)
    requires Leaders(s) && Flights(s) && g in s.at && s.at[g].Derived? && LeaderOk(s, g)
    ensures Flights(Next(s, Publish(g)))
  {
    var t := Next(s, Publish(g));
    forall f | f in t.flights ensures FlightOk(t, f) {
      assert FlightOk(s, f);
    }
  }

  lemma PublishRest(s: State, g: nat)
    requires Listed(s) && Calls(s) && g in s.at && s.at[g].Derived? && LeaderOk(s, g)
    ensures Listed(Next(s, Publish(g))) && Calls(Next(s, Publish(g)))
  {
  }

  lemma WaiterKeeps(s: State, g: nat)
    requires Inv(s)
    ensures Inv(Next(s, WaiterReturns(g)))
  {
    var t := Next(s, WaiterReturns(g));
    assert Deriving(t) == Deriving(s);
    if t != s {
      assert FlightOk(s, s.at[g].f);
      BystanderKeeps(s, t, g);
    }
  }

  lemma {:induction false} RunKeeps(es: seq<Event>)
    ensures Inv(Run(es))
  {
    if es != [] {
      RunKeeps(es[..|es| - 1]);
      StepKeeps(Run(es[..|es| - 1]), es[|es| - 1]);
    }
  }

  lemma StepKeeps(s: State, e: Event)
    requires Inv(s)
    ensures Inv(Next(s, e))
  {
    match e
    case Enter(g, key) => if g !in s.at { EnterKeeps(s, g, key); }
    case Acquire(g) => if g in s.at && s.at[g].Leads? && s.sem < PBKDF2_CONCURRENCY { AcquireKeeps(s, g); }
    case Derive(g, ok) => if g in s.at && s.at[g].Derives? && s.sem > 0 { DeriveKeeps(s, g, ok); }
    case Publish(g) => if g in s.at && s.at[g].Derived? { PublishKeeps(s, g); }
    case WaiterReturns(g) => WaiterKeeps(s, g);
  }

  /** In every interleaving: a key has at most one leader; it is in the inflight map exactly while it has
      one; at most two derivations run at once. */
  lemma OneLeaderPerKey(es: seq<Event>)
    ensures var s := Run(es);
            && (forall g, h :: IsLeading(s, g) && IsLeading(s, h) && s.at[g].key == s.at[h].key ==> g == h)
            && (forall k :: k in s.inflight <==> exists g :: IsLeading(s, g) && s.at[g].key == k)
            && |Deriving(s)| <= 2
  {
    var s := Run(es);
    RunKeeps(es);
    forall g, h | IsLeading(s, g) && IsLeading(s, h) && s.at[g].key == s.at[h].key ensures g == h {
      assert LeaderOk(s, g) && LeaderOk(s, h);
    }
    forall k ensures k in s.inflight <==> exists g :: IsLeading(s, g) && s.at[g].key == k {
      if k in s.inflight {
        assert FlightOk(s, s.inflight[k]);
        assert LeaderOk(s, s.flights[s.inflight[k]].leader);
        assert IsLeading(s, s.flights[s.inflight[k]].leader);
      }
      if g :| IsLeading(s, g) && s.at[g].key == k { assert LeaderOk(s, g); }
    }
  }

  predicate IsLeading(s: State, g: nat) {
    g in s.at && IsLeader(s.at[g])
  }

  /** Every call that returned, leader or waiter, returned the answer that was derived for its own key, by
      the leader of its flight. */
  lemma WaitersGetTheLeadersAnswer(es: seq<Event>, g: nat)
    requires g in Run(es).at && Run(es).at[g].Returned?
    ensures var s := Run(es);
            var p := s.at[g];
            && p.f in s.flights && s.flights[p.f].key == p.key
            && p.f in s.answer && p.ok == s.answer[p.f]
  {
    RunKeeps(es);
    assert OwnFlight(Run(es), Run(es).at[g]);
  }

  /** A waiter is never stranded: its flight is done, or its leader is still running. */
  lemma WaitersAreNotStranded(es: seq<Event>, g: nat)
    requires g in Run(es).at && Run(es).at[g].Waits?
    ensures var s := Run(es);
            var f := s.at[g].f;
            && f in s.flights && s.flights[f].key == s.at[g].key
            && (s.flights[f].done || (s.flights[f].leader in s.at && IsLeader(s.at[s.flights[f].leader])
                                      && s.at[s.flights[f].leader].f == f))
  {
    RunKeeps(es);
    assert OwnFlight(Run(es), Run(es).at[g]);
    assert FlightOk(Run(es), Run(es).at[g].f);
  }
}

/** The credential cache, for calls that do not overlap: `CheckCredentials`, `storeCache`, `cleanupCache`
    and the publish step of `reload`, updated in place. */
module AuthCache {

  const CACHE_MAX := 4096
  const SUCCESS_TTL := 60
  const FAILURE_TTL := 2

  datatype Entry = Entry(validUntil: int, generation: nat, ok: bool)

  /** `User` is a parsed PBKDF2 record and `Digest` a SHA-256 value; `verify` is the PBKDF2 comparison.
      `digest` is taken to be injective. */
  class AuthStore<User(!new), Digest(==,!new)> {
    const verify: (User, string) -> bool
    const digest: string -> Digest

    var users: map<string, User>
    var generation: nat
    var cache: map<(string, Digest), Entry>
    var cacheCount: int

    /** The check without a cache. */
    function Direct(username: string, password: string): bool
      reads this
    {
      username in users && verify(users[username], password)
    }

    /** An entry of the current generation tells the truth about the current user table. */
    ghost predicate Truthful(key: (string, Digest), e: Entry)
      reads this
    {
      && e.generation <= generation
      && (e.generation == generation ==>
            key.0 in users && forall pw :: digest(pw) == key.1 ==> e.ok == verify(users[key.0], pw))
    }

    ghost predicate Valid()
      reads this
    {
      && (forall p, q :: digest(p) == digest(q) ==> p == q)
      && (forall k :: k in cache ==> Truthful(k, cache[k]))
      && cacheCount == |cache|
    }

    ghost predicate Bounded()
      reads this
    {
      cacheCount <= CACHE_MAX
    }

    constructor (verify: (User, string) -> bool, digest: string -> Digest, users: map<string, User>)
      requires forall p, q :: digest(p) == digest(q) ==> p == q
      ensures Valid() && Bounded() && this.users == users && this.verify == verify && this.digest == digest
    {
      this.verify, this.digest, this.users := verify, digest, users;
      generation, cache, cacheCount := 1, map[], 0;
    }

    /** The publish step of `reload`: the new table, then the next generation. */
    method Publish(newUsers: map<string, User>)
      requires Valid() && Bounded()
      modifies this`users, this`generation
      ensures Valid() && Bounded() && users == newUsers && generation == old(generation) + 1
    {
      users := newUsers;
      generation := generation + 1;
    }

    /** `LoadAndDelete` and the counter. */
    method DeleteKey(k: (string, Digest)) returns (deleted: bool)
      requires Valid()
      modifies this`cache, this`cacheCount
      ensures Valid() && cache == old(cache) - {k} && deleted == (k in old(cache))
      ensures |cache| == |old(cache)| - (if deleted then 1 else 0)
    {
      deleted := k in cache;
      if deleted {
        assert cache.Keys == (cache - {k}).Keys + {k};
        cache := cache - {k};
        cacheCount := cacheCount - 1;
      } else {
        assert cache - {k} == cache;
      }
    }

    /** The first loop of `cleanupCache`: exactly the expired entries go. */
    method RemoveExpired(now: int)
      requires Valid()
      modifies this`cache, this`cacheCount
      ensures Valid()
      ensures forall k :: k in cache <==> k in old(cache) && now <= old(cache)[k].validUntil
      ensures forall k :: k in cache ==> cache[k] == old(cache)[k]
    {
      var todo := cache.Keys;
      while todo != {}
        invariant Valid() && todo <= cache.Keys
        invariant forall k :: k in cache ==> k in old(cache) && cache[k] == old(cache)[k]
        invariant forall k :: k in old(cache) && k !in todo ==> (k in cache <==> now <= old(cache)[k].validUntil)
        decreases todo
      {
        var k :| k in todo;
        todo := todo - {k};
        if now > cache[k].validUntil {
          var _ := DeleteKey(k);
        }
      }
    }

    /** `cleanupCache`: first the expired entries, then any entries until the bound holds again. */
    method CleanupCache(now: int)
      requires Valid()
      modifies this`cache, this`cacheCount
      ensures Valid() && Bounded()
      ensures forall k :: k in cache ==> k in old(cache) && cache[k] == old(cache)[k] && now <= cache[k].validUntil
      ensures |cache| < CACHE_MAX ==> forall k :: k in old(cache) && now <= old(cache)[k].validUntil ==> k in cache
    {
      RemoveExpired(now);
      while cacheCount > CACHE_MAX
        invariant Valid()
        invariant forall k :: k in cache ==> k in old(cache) && cache[k] == old(cache)[k] && now <= cache[k].validUntil
        invariant |cache| < CACHE_MAX ==> forall k :: k in old(cache) && now <= old(cache)[k].validUntil ==> k in cache
        decreases |cache|
      {
        var removed := false;
        if cache.Keys != {} {
          var k :| k in cache.Keys;
          removed := DeleteKey(k);
        }
        if !removed {
          break;
        }
      }
    }

    method StoreCache(key: (string, Digest), e: Entry, now: int)
      requires Valid() && Bounded() && Truthful(key, e)
      modifies this`cache, this`cacheCount
      ensures Valid() && Bounded()
      ensures forall k :: k in cache ==> (k == key && cache[k] == e) || (k in old(cache) && cache[k] == old(cache)[k])
      ensures key in old(cache) || |old(cache)| < CACHE_MAX ==> cache == old(cache)[key := e]
      ensures var all := old(cache)[key := e];
              |cache| < CACHE_MAX ==> forall k :: k in all && now <= all[k].validUntil ==> k in cache
    {
      if key in cache {
        assert cache.Keys == cache[key := e].Keys;
        cache := cache[key := e];
        return;
      }
      assert cache[key := e].Keys == cache.Keys + {key};
      cache := cache[key := e];
      cacheCount := cacheCount + 1;
      if cacheCount <= CACHE_MAX {
        return;
      }
      CleanupCache(now);
    }

    /** `CheckCredentials` at time `now`, its derivation ending at `later`: through any mix of hits,
        expiries, evictions and reloads it answers like the check without a cache. */
    method CheckCredentials(username: string, password: string, now: int, later: int) returns (ok: bool)
      requires Valid() && Bounded()
      modifies this`cache, this`cacheCount
      ensures Valid() && Bounded()
      ensures ok == old(Direct(username, password)) == Direct(username, password)
    {
      if username !in users {
        return false;
      }
      var user := users[username];
      var key := (username, digest(password));
      var seen := generation;
      if key in cache {
        var e := cache[key];
        assert Truthful(key, e);
        if e.generation == seen && now < e.validUntil {
          return e.ok;
        }
        var _ := DeleteKey(key);
      }
      ok := verify(user, password);
      var ttl := if ok then SUCCESS_TTL else FAILURE_TTL;
      var e := Entry(later + ttl, seen, ok);
      assert Truthful(key, e);
      StoreCache(key, e, later);
    }
  }
}
