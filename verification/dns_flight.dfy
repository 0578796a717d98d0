/** Any number of concurrent `lookup` calls of the DNS cache, one cache access or group access per step: the
    first read of the cache, the single flight per host, and inside it the second read, the resolver and the
    store. What an entry's age does is in module Dns; here an entry may be gone or too old at any time. */
module DnsFlight {
  import opened Options
  import opened Cidr

  type Flight = nat

  /** What a lookup returns: the addresses, or none after a failed resolution. */
  type Answer = Option<seq<Addr>>

  datatype Point =
    | Missed(host: string)
    | Waits(host: string, f: Flight)
    | Leads(host: string, f: Flight)
    | Resolving(host: string, f: Flight)
    | Resolved(host: string, f: Flight, answer: Answer)
    | Returned(host: string, answer: Answer)

  datatype FlightState = FlightState(host: string, leader: nat, done: bool, answer: Answer)

  /** `group`: the flights of the single-flight group, by host. `flights`: every flight ever begun. `said`
      (history): what the resolver has said, with the host it was asked for. */
  datatype State = State(
    cache: map<string, Answer>, group: map<string, Flight>, flights: map<Flight, FlightState>, next: nat,
    at: map<nat, Point>, said: set<(string, Answer)>)

  const Init := State(map[], map[], map[], 0, map[], {})

  /** `young`: an entry that is found has not expired. */
  datatype Event =
    | Read(g: nat, host: string, young: bool)
    | Enter(g: nat)
    | ReadAgain(g: nat, young: bool)
    | Resolve(g: nat, answer: Answer)
    | Finish(g: nat)
    | Wake(g: nat)
    | Drop(host: string)

  function Move(s: State, g: nat, p: Point): State {
    s.(at := s.at[g := p])
  }

  function Next(s: State, e: Event): State {
    match e
    case Read(g, host, young) =>
      if g in s.at then s
      else Move(s, g, if young && host in s.cache then Returned(host, s.cache[host]) else Missed(host))
    case Drop(host) => s.(cache := s.cache - {host})
    case _ => if e.g in s.at then Step(s, e.g, s.at[e.g], e) else s
  }

  function Step(s: State, g: nat, p: Point, e: Event): State {
    match e
    case Enter(_) =>
      if !p.Missed? then s
      else if p.host in s.group then Move(s, g, Waits(p.host, s.group[p.host]))
      else Move(s.(group := s.group[p.host := s.next],
                   flights := s.flights[s.next := FlightState(p.host, g, false, None)],
                   next := s.next + 1), g, Leads(p.host, s.next))
    case ReadAgain(_, young) =>
      if !p.Leads? then s
      else if young && p.host in s.cache then Move(s, g, Resolved(p.host, p.f, s.cache[p.host]))
      else Move(s, g, Resolving(p.host, p.f))
    case Resolve(_, answer) =>
      if !p.Resolving? then s
      else Move(s.(cache := s.cache[p.host := answer], said := s.said + {(p.host, answer)}),
                g, Resolved(p.host, p.f, answer))
    case Finish(_) =>
      if !p.Resolved? || p.f !in s.flights then s
      else Move(s.(group := s.group - {p.host},
                   flights := s.flights[p.f := s.flights[p.f].(done := true, answer := p.answer)]),
                g, Returned(p.host, p.answer))
    case Wake(_) =>
      if !p.Waits? || p.f !in s.flights || !s.flights[p.f].done then s
      else Move(s, g, Returned(p.host, s.flights[p.f].answer))
    case _ => s
  }

  function Run(es: seq<Event>): State {
    if es == [] then Init else Next(Run(es[..|es| - 1]), es[|es| - 1])
  }

  // ---- what every interleaving keeps ------------------------------------------------------------------

  predicate IsLeader(p: Point) {
    p.Leads? || p.Resolving? || p.Resolved?
  }

  predicate PointOk(s: State, g: nat, p: Point) {
    && (p.Waits? || IsLeader(p) ==> p.f in s.flights && s.flights[p.f].host == p.host)
    && (IsLeader(p) ==>
          s.flights[p.f].leader == g && !s.flights[p.f].done && p.host in s.group && s.group[p.host] == p.f)
    && (p.Resolved? || p.Returned? ==> (p.host, p.answer) in s.said)
  }

  predicate FlightOk(s: State, f: Flight, x: FlightState) {
    && f < s.next
    && (x.done ==> (x.host, x.answer) in s.said)
    && (!x.done ==> x.leader in s.at && IsLeader(s.at[x.leader]) && s.at[x.leader].f == f)
  }

  ghost predicate Points(s: State) {
    forall g :: g in s.at ==> PointOk(s, g, s.at[g])
  }

  ghost predicate Flights(s: State) {
    forall f :: f in s.flights ==> FlightOk(s, f, s.flights[f])
  }

  ghost predicate Tables(s: State) {
    && (forall h :: h in s.group ==>
          s.group[h] in s.flights && s.flights[s.group[h]].host == h && !s.flights[s.group[h]].done)
    && (forall h :: h in s.cache ==> (h, s.cache[h]) in s.said)
  }

  ghost predicate Inv(s: State) {
    Points(s) && Flights(s) && Tables(s)
  }

  lemma StepPoints(s: State, e: Event)
    requires Inv(s) && !e.Read? && !e.Drop? && e.g in s.at
    ensures Points(Next(s, e))
  {
    var t := Next(s, e);
    assert PointOk(s, e.g, s.at[e.g]);
    forall g | g in t.at ensures PointOk(t, g, t.at[g]) {
      if g != e.g { assert t.at[g] == s.at[g] && PointOk(s, g, s.at[g]); }
    }
  }

  lemma StepFlights(s: State, e: Event)
    requires Inv(s) && !e.Read? && !e.Drop? && e.g in s.at
    ensures Flights(Next(s, e))
  {
    var t := Next(s, e);
    assert PointOk(s, e.g, s.at[e.g]);
    forall f | f in t.flights ensures FlightOk(t, f, t.flights[f]) {
      if f in s.flights { assert FlightOk(s, f, s.flights[f]); }
    }
  }

  lemma StepTables(s: State, e: Event)
    requires Inv(s) && !e.Read? && !e.Drop? && e.g in s.at
    ensures Tables(Next(s, e))
  {
    assert PointOk(s, e.g, s.at[e.g]);
    assert forall f :: f in s.flights ==> FlightOk(s, f, s.flights[f]);
  }

  lemma StepKeeps(s: State, e: Event)
    requires Inv(s)
    ensures Inv(Next(s, e))
  {
    if e.Read? || e.Drop? {
      var t := Next(s, e);
      forall g | g in t.at ensures PointOk(t, g, t.at[g]) {
        if g in s.at { assert PointOk(s, g, s.at[g]); }
      }
      forall f | f in t.flights ensures FlightOk(t, f, t.flights[f]) { assert FlightOk(s, f, s.flights[f]); }
    } else if e.g in s.at {
      StepPoints(s, e);
      StepFlights(s, e);
      StepTables(s, e);
    }
  }

  lemma {:induction false} RunIsSound(es: seq<Event>)
    ensures Inv(Run(es))
  {
    if es != [] {
      RunIsSound(es[..|es| - 1]);
      StepKeeps(Run(es[..|es| - 1]), es[|es| - 1]);
    }
  }

  predicate Leading(s: State, g: nat) {
    g in s.at && IsLeader(s.at[g])
  }

  /** In every interleaving a host has at most one call that resolves it, and the group holds exactly the hosts
      that have one. */
  lemma OneLookupPerHost(es: seq<Event>)
    ensures var s := Run(es);
            && (forall g, h :: Leading(s, g) && Leading(s, h) && s.at[g].host == s.at[h].host ==> g == h)
            && (forall host :: host in s.group <==> exists g :: Leading(s, g) && s.at[g].host == host)
  {
    var s := Run(es);
    RunIsSound(es);
    forall g, h | Leading(s, g) && Leading(s, h) && s.at[g].host == s.at[h].host ensures g == h {
      assert PointOk(s, g, s.at[g]) && PointOk(s, h, s.at[h]);
    }
    forall host ensures host in s.group <==> exists g :: Leading(s, g) && s.at[g].host == host {
      if host in s.group {
        var f := s.group[host];
        assert FlightOk(s, f, s.flights[f]) && Leading(s, s.flights[f].leader);
        assert PointOk(s, s.flights[f].leader, s.at[s.flights[f].leader]);
      }
      if g :| Leading(s, g) && s.at[g].host == host { assert PointOk(s, g, s.at[g]); }
    }
  }

  /** Every call that returned, from the cache, as a leader or as a waiter, returned something that the resolver
      said about the host the call itself asked for. */
  lemma AnswersAreForTheirHost(es: seq<Event>, g: nat)
    requires g in Run(es).at && Run(es).at[g].Returned?
    ensures (Run(es).at[g].host, Run(es).at[g].answer) in Run(es).said
  {
    RunIsSound(es);
    assert PointOk(Run(es), g, Run(es).at[g]);
  }

  /** A waiter's flight is for its own host, and is over or still led. */
  lemma WaitersAreServed(es: seq<Event>, g: nat)
    requires g in Run(es).at && Run(es).at[g].Waits?
    ensures var s := Run(es);
            var f := s.at[g].f;
            && f in s.flights && s.flights[f].host == s.at[g].host
            && (if s.flights[f].done then (s.at[g].host, s.flights[f].answer) in s.said
                else Leading(s, s.flights[f].leader) && s.at[s.flights[f].leader].f == f)
  {
    RunIsSound(es);
    assert PointOk(Run(es), g, Run(es).at[g]);
    assert FlightOk(Run(es), Run(es).at[g].f, Run(es).flights[Run(es).at[g].f]);
  }
}
