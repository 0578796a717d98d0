/** The bounded DNS cache. Its meaning is given by a log of what was stored and what was evicted:
    `Get` answers with the last store of the host that no eviction followed, while it is young enough. */
module Dns {

  import opened Options
  import opened Tries
  import opened Cidr

  datatype CacheEntry = CacheEntry(ips: seq<Addr>, expiresAt: int, ok: bool)

  datatype Event = Stored(host: string, ips: seq<Addr>, ok: bool, at: int) | Evicted(host: string)

  /** The last store of the host, unless the host was evicted since. */
  function LastAnswer(log: seq<Event>, host: string): (r: Option<Event>)
    ensures r.Some? ==> r.value.Stored? && r.value.host == host
  {
    if log == [] then None else
      var e := log[|log| - 1];
      if e.host != host then LastAnswer(log[..|log| - 1], host)
      else if e.Stored? then Some(e) else None
  }

  /** `LastAnswer` names a store in the log that nothing about the host follows, and finds one if there is one. */
  lemma {:induction false} LastAnswerIsLast(log: seq<Event>, host: string)
    ensures LastAnswer(log, host).Some? <==>
              exists i :: LastMention(log, host, i) && log[i].Stored?
    ensures forall i :: LastMention(log, host, i) && log[i].Stored? ==> LastAnswer(log, host) == Some(log[i])
  {
    if log != [] {
      var n := |log| - 1;
      var front := log[..n];
      LastAnswerIsLast(front, host);
      if log[n].host == host {
        assert LastMention(log, host, n);
        assert forall i :: LastMention(log, host, i) ==> i == n;
      } else {
        assert forall i :: LastMention(log, host, i) <==> LastMention(front, host, i);
      }
    }
  }

  ghost predicate LastMention(log: seq<Event>, host: string, i: int) {
    && 0 <= i < |log| && log[i].host == host
    && forall j :: i < j < |log| ==> log[j].host != host
  }

  /** A store becomes its host's answer and, apart from the evicted host, changes no other. */
  lemma StoreKeepsOthers(log: seq<Event>, evicted: seq<Event>, e: Event, other: string)
    requires e.Stored? && |evicted| <= 1
    ensures LastAnswer(log + evicted + [e], e.host) == Some(e)
    ensures other != e.host && (evicted == [] || evicted[0].host != other) ==>
              LastAnswer(log + evicted + [e], other) == LastAnswer(log, other)
  {
    var all := log + evicted + [e];
    assert all[..|all| - 1] == log + evicted;
    if evicted == [] {
      assert log + evicted == log;
    } else {
      assert (log + evicted)[..|log|] == log;
    }
  }

  class DNSCache {
    var entries: map<string, CacheEntry>
    const maxEntries: int
    const ttl: int
    const negativeTTL: int
    /** `strings.ToLower(strings.TrimSpace(host))`. */
    const clean: string -> string

    ghost var log: seq<Event>
    /** The latest time at which entries were removed. */
    ghost var clock: int

    function Ttl(ok: bool): int {
      if ok then ttl else negativeTTL
    }

    /** What the last store of the host still says at time `now`. */
    ghost function Answer(host: string, now: int): Option<(seq<Addr>, bool)>
      reads this
    {
      var last := LastAnswer(log, host);
      if last.Some? && now < last.value.at + Ttl(last.value.ok) then Some((last.value.ips, last.value.ok)) else None
    }

    /** What the cache knows about a host, as it is spelled, at time `now`. */
    ghost function Known(host: string, now: int): Option<(seq<Addr>, bool)>
      reads this
    {
      Answer(NormalizeHost(host), now)
    }

    /** The entry of a host is its last store; a store without an entry has expired. */
    ghost predicate Agrees(host: string)
      reads this
    {
      match LastAnswer(log, host)
      case None => host !in entries
      case Some(e) =>
        if host in entries then entries[host] == CacheEntry(e.ips, e.at + Ttl(e.ok), e.ok)
        else e.at + Ttl(e.ok) <= clock
    }

    ghost predicate Valid()
      reads this
    {
      && maxEntries >= 1
      && |entries| <= maxEntries
      && (forall host {:trigger Agrees(host)} :: Agrees(host))
    }

    constructor (maxEntries: int, ttl: int, negativeTTL: int, clean: string -> string, ghost now: int)
      ensures Valid() && log == [] && entries == map[] && clock == now
      ensures this.clean == clean
      ensures this.maxEntries == if maxEntries < 1 then 1 else maxEntries
      ensures this.ttl == if ttl <= 0 then 60_000_000_000 else ttl
      ensures this.negativeTTL == if negativeTTL <= 0 then 10_000_000_000 else negativeTTL
    {
      this.maxEntries := if maxEntries < 1 then 1 else maxEntries;
      this.ttl := if ttl <= 0 then 60_000_000_000 else ttl;
      this.negativeTTL := if negativeTTL <= 0 then 10_000_000_000 else negativeTTL;
      this.clean := clean;
      entries, log, clock := map[], [], now;
    }

    /** The cleaned host without its final dot, if it has one. */
    function NormalizeHost(host: string): (h: string)
      ensures EndsInDot(clean(host)) ==> h + "." == clean(host)
      ensures !EndsInDot(clean(host)) ==> h == clean(host)
    {
      var h := clean(host);
      if h != "" && h[|h| - 1] == '.' then h[..|h| - 1] else h
    }

    /** Two hosts share an entry: their cleaned texts are equal, or one is the other with a final dot. */
    predicate SameName(a: string, b: string) {
      || clean(a) == clean(b)
      || (clean(a) == clean(b) + "." && !EndsInDot(clean(b)))
      || (clean(b) == clean(a) + "." && !EndsInDot(clean(a)))
    }

    lemma SharedIffSameName(a: string, b: string)
      ensures NormalizeHost(a) == NormalizeHost(b) <==> SameName(a, b)
    {
      var x, y := NormalizeHost(a), NormalizeHost(b);
      if x == y && EndsInDot(clean(a)) && !EndsInDot(clean(b)) {
        assert clean(a) == clean(b) + ".";
      }
      assert (x + ".")[..|x|] == x && (y + ".")[..|y|] == y;
    }

    /** Nothing is left of the host once it is cleaned, but for a dot. */
    predicate IsBlank(host: string) {
      clean(host) == "" || clean(host) == "."
    }

    /** The later of a time a call has read and the latest cleanup, which may have come before the lock. */
    ghost function Since(now: int): int
      reads this
    {
      if now < clock then clock else now
    }

    /** `now` is read before the lock is taken: what is found is young enough, and what is not found is not
        there or too old by the latest cleanup. */
    method Get(host: string, now: int) returns (ips: seq<Addr>, ok: bool, found: bool)
      requires Valid()
      ensures IsBlank(host) ==> !found
      ensures found ==> Known(host, now) == Some((ips, ok))
      ensures !IsBlank(host) && !found ==> Known(host, Since(now)) == None
    {
      var h := NormalizeHost(host);
      if h == "" {
        return [], false, false;
      }
      assert Agrees(h);
      if h !in entries {
        return [], false, false;
      }
      if now < entries[h].expiresAt {
        return entries[h].ips, entries[h].ok, true;
      }
      return [], false, false;
    }

    ghost predicate Live(host: string, now: int)
      reads this
    {
      host in entries && now < entries[host].expiresAt
    }

    /** `removeExpiredLocked`: exactly the expired entries go, and no answer changes. */
    method RemoveExpired(now: int)
      requires Valid() && clock <= now
      modifies this`entries, this`clock
      ensures Valid() && clock == now
      ensures entries == map h | h in old(entries) && now < old(entries)[h].expiresAt :: old(entries)[h]
    {
      var todo := entries.Keys;
      while todo != {}
        invariant todo <= entries.Keys <= old(entries).Keys
        invariant forall h :: h in entries ==> entries[h] == old(entries)[h]
        invariant forall h :: h in old(entries) && h !in entries ==> old(entries)[h].expiresAt <= now
        invariant forall h :: h in entries && h !in todo ==> now < entries[h].expiresAt
        decreases |todo|
      {
        var h :| h in todo;
        todo := todo - {h};
        if !(now < entries[h].expiresAt) {
          entries := entries - {h};
        }
      }
      clock := now;
      SmallerMap(entries, old(entries));
      forall host ensures Agrees(host) { assert old(Agrees(host)); }
    }

    /** The first two steps of a store under a new host: room is made, at the cost of at most one live entry. */
    method MakeRoom(now: int) returns (ghost evicted: seq<Event>)
      requires Valid() && clock <= now
      modifies this`entries, this`clock, this`log
      ensures Valid() && |entries| < maxEntries && clock <= now && entries.Keys <= old(entries).Keys
      ensures log == old(log) + evicted && |evicted| <= 1
      ensures evicted != [] ==> evicted[0].Evicted? && evicted[0].host in old(entries) && |old(entries)| == maxEntries
                                && forall h :: h in old(entries) ==> old(Live(h, now))
    {
      evicted := [];
      if |entries| >= maxEntries {
        RemoveExpired(now);
      }
      if |entries| >= maxEntries {
        SmallerMap(entries, old(entries));
        var key :| key in entries;
        evicted := [Evicted(key)];
        assert (log + evicted)[..|log|] == log;
        entries := entries - {key};
        log := log + evicted;
        forall host ensures Agrees(host) { assert old(Agrees(host)); }
      }
      assert log == old(log) + evicted;
    }

    /** A store. `at` is the time the entry is dated, before the lock is taken; `now` the time of the removal
        under the lock. */
    method Set(host: string, ips: seq<Addr>, ok: bool, at: int, now: int) returns (ghost evicted: seq<Event>)
      requires Valid() && clock <= now
      modifies this`entries, this`clock, this`log
      ensures Valid() && clock <= now
      ensures IsBlank(host) ==> log == old(log) && entries == old(entries)
      ensures !IsBlank(host) ==> log == old(log) + evicted + [Stored(NormalizeHost(host), ips, ok, at)]
      ensures !IsBlank(host) ==> forall other, t :: SameName(host, other) ==>
                Known(other, t) == if t < at + Ttl(ok) then Some((ips, ok)) else None
      ensures forall other, t ::
                !SameName(host, other) && (evicted == [] || evicted[0].host != NormalizeHost(other)) ==>
                  Known(other, t) == old(Known(other, t))
      ensures |evicted| <= 1
      ensures evicted != [] ==> evicted[0].Evicted? && evicted[0].host in old(entries)
                                && NormalizeHost(host) !in old(entries)
                                && |old(entries)| == maxEntries && forall h :: h in old(entries) ==> old(Live(h, now))
    {
      evicted := [];
      var h := NormalizeHost(host);
      if h == "" {
        return;
      }
      if h !in entries {
        evicted := MakeRoom(now);
      }
      Put(h, ips, ok, at);
      OthersKeepAnswers(old(log), evicted, Stored(h, ips, ok, at), host);
    }

    /** What the log says about every host, as it is spelled, after a store. */
    lemma OthersKeepAnswers(before: seq<Event>, evicted: seq<Event>, e: Event, host: string)
      requires e.Stored? && e.host == NormalizeHost(host) && |evicted| <= 1
      ensures forall other :: SameName(host, other) ==>
                LastAnswer(before + evicted + [e], NormalizeHost(other)) == Some(e)
      ensures forall other :: !SameName(host, other) && (evicted == [] || evicted[0].host != NormalizeHost(other)) ==>
                LastAnswer(before + evicted + [e], NormalizeHost(other)) == LastAnswer(before, NormalizeHost(other))
    {
      forall other
        ensures SameName(host, other) ==> LastAnswer(before + evicted + [e], NormalizeHost(other)) == Some(e)
        ensures !SameName(host, other) && (evicted == [] || evicted[0].host != NormalizeHost(other)) ==>
                  LastAnswer(before + evicted + [e], NormalizeHost(other)) == LastAnswer(before, NormalizeHost(other))
      {
        SharedIffSameName(host, other);
        StoreKeepsOthers(before, evicted, e, NormalizeHost(other));
      }
    }

    /** The store itself, under a host that is already there or for which there is room. */
    method Put(h: string, ips: seq<Addr>, ok: bool, at: int)
      requires Valid() && (h in entries || |entries| < maxEntries)
      modifies this`entries, this`log
      ensures Valid() && log == old(log) + [Stored(h, ips, ok, at)]
    {
      entries := entries[h := CacheEntry(ips, at + Ttl(ok), ok)];
      log := log + [Stored(h, ips, ok, at)];
      assert log[..|log| - 1] == old(log);
      assert entries.Keys == old(entries).Keys + {h};
      forall host ensures Agrees(host) { assert old(Agrees(host)); }
    }

    /** The function that `lookup` runs in its single flight, in whatever state other calls have left the
        cache: a stored answer that is young enough, else the resolver's, which is then stored. `resolved` is
        what the resolver says (none on an error). */
    method Resolve(host: string, resolved: Option<seq<Addr>>, asked: int, at: int, now: int)
      returns (ips: seq<Addr>, ok: bool, ghost hit: bool)
      requires Valid() && clock <= now
      modifies this`entries, this`clock, this`log
      ensures Valid() && clock <= now
      ensures hit ==> old(Known(host, asked)) == Some((ips, ok)) && log == old(log)
      ensures !hit ==> IsResolved(host, resolved, ips, ok, at)
      ensures !hit && !IsBlank(host) ==> old(Known(host, Since(asked))) == None
    {
      var found;
      ips, ok, found := Get(host, asked);
      hit := found;
      if !found {
        ok := resolved.Some?;
        ips := if ok then resolved.value else [];
        ghost var _ := Set(host, ips, ok, at, now);
      }
    }

    /** The answer is the resolver's, and is what the cache then knows unless the host is blank. */
    ghost predicate IsResolved(host: string, resolved: Option<seq<Addr>>, ips: seq<Addr>, ok: bool, at: int)
      reads this
    {
      && ok == resolved.Some? && ips == (if ok then resolved.value else [])
      && (!IsBlank(host) ==> forall t :: Known(host, t) == if t < at + Ttl(ok) then Some((ips, ok)) else None)
    }

    /** `lookup` by one caller: read, then read again and resolve inside the flight. */
    method Lookup(host: string, resolved: Option<seq<Addr>>, asked: int, again: int, at: int, now: int)
      returns (ips: seq<Addr>, ok: bool, ghost hit: bool)
      requires Valid() && asked <= again && clock <= now
      modifies this`entries, this`clock, this`log
      ensures Valid()
      ensures IsBlank(host) ==> !ok && log == old(log)
      ensures !IsBlank(host) ==>
                var h := NormalizeHost(host);
                && (hit ==> old(Known(h, asked)) == Some((ips, ok)) && log == old(log))
                && (!hit ==> IsResolved(h, resolved, ips, ok, at))
                && (!hit && !IsBlank(h) ==> old(Known(h, Since(asked))) == None)
    {
      var h := NormalizeHost(host);
      hit := false;
      if h == "" {
        return [], false, false;
      }
      var found;
      ips, ok, found := Get(h, asked);
      hit := found;
      if !found {
        ips, ok, hit := Resolve(h, resolved, again, at, now);
      }
    }
  }

  predicate EndsInDot(s: string) {
    s != "" && s[|s| - 1] == '.'
  }

  lemma SmallerMap(a: map<string, CacheEntry>, b: map<string, CacheEntry>)
    requires a.Keys <= b.Keys
    ensures |a| <= |b|
    ensures |a| >= |b| ==> a.Keys == b.Keys
  {
    assert b.Keys == a.Keys + (b.Keys - a.Keys);
    assert |a.Keys| == |a| && |b.Keys| == |b|;
  }
}
