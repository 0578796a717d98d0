/** `CheckCredentials` when reloads overlap it, for one (username, password) key, any number of calls and one
    read, store or lock section per step. A call reads the users before the generation, a reload stores the
    users before the generation, and neither a cache entry's key nor a flight's key holds the generation. */
module AuthRace {
  import opened Options

  /** A cached answer: the generation it is filed under, the version of the users it is about and (history)
      the call that stored it. */
  datatype Entry = Entry(generation: nat, users: nat, author: nat)

  /** How far a call is. Answers are given by the version of the users they are about. */
  datatype Stage =
    | HasUsers
    | HasBoth
    | Outdated
    | Missed
    | Waits(leader: nat)
    | Leads
    | Derived
    | Cached
    | Returned(answer: nat)

  /** The users and (from `HasBoth` on) the generation that the call has read. */
  datatype Call = Call(users: nat, generation: nat, at: Stage)

  /** `users` counts the user tables stored so far, `generation` those published; `inflight`: the call that
      leads the flight of the key. */
  datatype State = State(
    users: nat, generation: nat, cache: Option<Entry>, inflight: Option<nat>, calls: map<nat, Call>)

  const Init := State(0, 0, None, None, map[])

  /** `known`: the user is in the table. `expired`: the entry is past its time. */
  datatype Event =
    | StoreUsers
    | BumpGeneration
    | ReadUsers(g: nat, known: bool)
    | ReadGeneration(g: nat)
    | ReadCache(g: nat, expired: bool)
    | DeleteEntry(g: nat)
    | Join(g: nat)
    | Derive(g: nat)
    | StoreEntry(g: nat)
    | Publish(g: nat)
    | Wake(g: nat)
    | Evict

  function Put(s: State, g: nat, at: Stage): State
    requires g in s.calls
  {
    s.(calls := s.calls[g := s.calls[g].(at := at)])
  }

  /** The entry that a call of generation `n` takes for its answer. */
  predicate Hits(s: State, n: nat, expired: bool) {
    s.cache.Some? && s.cache.value.generation == n && !expired
  }

  /** The steps of call `g` after its first read. */
  function Step(s: State, g: nat, e: Event): State
    requires g in s.calls
  {
    var c := s.calls[g];
    match e
    case ReadGeneration(_) =>
      if c.at.HasUsers? then s.(calls := s.calls[g := Call(c.users, s.generation, HasBoth)]) else s
    case ReadCache(_, expired) =>
      if !c.at.HasBoth? then s
      else if Hits(s, c.generation, expired) then Put(s, g, Returned(s.cache.value.users))
      else Put(s, g, if s.cache.Some? then Outdated else Missed)
    case DeleteEntry(_) => if c.at.Outdated? then Put(s.(cache := None), g, Missed) else s
    case Join(_) =>
      if !c.at.Missed? then s
      else if s.inflight.Some? then Put(s, g, Waits(s.inflight.value))
      else Put(s.(inflight := Some(g)), g, Leads)
    case Derive(_) => if c.at.Leads? then Put(s, g, Derived) else s
    case StoreEntry(_) =>
      if c.at.Derived? then Put(s.(cache := Some(Entry(c.generation, c.users, g))), g, Cached) else s
    case Publish(_) => if c.at.Cached? then Put(s.(inflight := None), g, Returned(c.users)) else s
    case Wake(_) =>
      if c.at.Waits? && c.at.leader in s.calls && s.calls[c.at.leader].at.Returned?
      then Put(s, g, Returned(s.calls[c.at.leader].at.answer)) else s
    case _ => s
  }

  /** Reloads do not overlap each other. An event whose guard does not hold changes nothing. */
  function Next(s: State, e: Event): State {
    match e
    case StoreUsers => if s.users == s.generation then s.(users := s.users + 1) else s
    case BumpGeneration => if s.users == s.generation + 1 then s.(generation := s.generation + 1) else s
    case ReadUsers(g, known) =>
      if g in s.calls then s
      else s.(calls := s.calls[g := Call(s.users, 0, if known then HasUsers else Returned(s.users))])
    case Evict => s.(cache := None)
    case _ => if e.g in s.calls then Step(s, e.g, e) else s
  }

  function RunFrom(s: State, es: seq<Event>): State {
    if es == [] then s else Next(RunFrom(s, es[..|es| - 1]), es[|es| - 1])
  }

  // ---- what every interleaving keeps ---------------------------------------------------------------

  predicate IsLeading(c: Call) {
    c.at.Leads? || c.at.Derived? || c.at.Cached?
  }

  ghost predicate CallOk(s: State, g: nat)
    requires g in s.calls
  {
    var c := s.calls[g];
    && c.users <= s.users && c.generation <= s.generation
    && (IsLeading(c) ==> s.inflight == Some(g))
    && (c.at.Waits? ==> LeaderKnown(s, c.at.leader))
  }

  /** The call leads its flight, or has returned the answer it derived itself. */
  predicate LeaderKnown(s: State, g: nat) {
    g in s.calls && (IsLeading(s.calls[g]) || s.calls[g].at == Returned(s.calls[g].users))
  }

  /** The entry holds the pair that the call which stored it has read. */
  predicate CacheOk(s: State) {
    s.cache.Some? ==>
      var e := s.cache.value;
      e.author in s.calls && s.calls[e.author].users == e.users && s.calls[e.author].generation == e.generation
      && !s.calls[e.author].at.HasUsers?
  }

  ghost predicate Inv(s: State) {
    && s.generation <= s.users <= s.generation + 1
    && (forall g :: g in s.calls ==> CallOk(s, g))
    && (s.inflight.Some? ==> s.inflight.value in s.calls && IsLeading(s.calls[s.inflight.value]))
    && CacheOk(s)
  }

  lemma CallStepKeeps(s: State, e: Event)
    requires Inv(s) && !e.StoreUsers? && !e.BumpGeneration? && !e.ReadUsers? && !e.Evict? && e.g in s.calls
    ensures Inv(Step(s, e.g, e))
  {
    var t := Step(s, e.g, e);
    assert CallOk(s, e.g);
    forall g | g in t.calls ensures CallOk(t, g) {
      assert CallOk(s, g);
    }
  }

  lemma StepKeeps(s: State, e: Event)
    requires Inv(s)
    ensures Inv(Next(s, e)) && s.users <= Next(s, e).users && s.generation <= Next(s, e).generation
  {
    if e.StoreUsers? || e.BumpGeneration? || e.ReadUsers? || e.Evict? {
      var t := Next(s, e);
      forall g | g in t.calls ensures CallOk(t, g) {
        if g in s.calls { assert CallOk(s, g); }
      }
    } else if e.g in s.calls {
      CallStepKeeps(s, e);
    }
  }

  lemma {:induction false} RunKeeps(s: State, es: seq<Event>)
    requires Inv(s)
    ensures Inv(RunFrom(s, es)) && s.users <= RunFrom(s, es).users && s.generation <= RunFrom(s, es).generation
  {
    if es != [] {
      RunKeeps(s, es[..|es| - 1]);
      StepKeeps(RunFrom(s, es[..|es| - 1]), es[|es| - 1]);
    }
  }

  // ---- whose users an answer is about ------------------------------------------------------------------

  /** The users that the answer of call `g` is, or will be, about, once that is settled. */
  function Settled(s: State, g: nat): Option<nat> {
    if g !in s.calls then None
    else match s.calls[g].at
      case Returned(answer) => Some(answer)
      case Waits(leader) => if leader in s.calls then Some(s.calls[leader].users) else None
      case Leads => Some(s.calls[g].users)
      case Derived => Some(s.calls[g].users)
      case Cached => Some(s.calls[g].users)
      case _ => None
  }

  lemma SettledStays(s: State, e: Event, g: nat)
    requires Inv(s) && Settled(s, g).Some?
    ensures Settled(Next(s, e), g) == Settled(s, g)
  {
    assert CallOk(s, g);
  }

  /** What is settled is what the call returns, in every continuation. */
  lemma {:induction false} SettledIsReturned(s: State, es: seq<Event>, g: nat)
    requires Inv(s) && Settled(s, g).Some?
    ensures Settled(RunFrom(s, es), g) == Settled(s, g)
    ensures var t := RunFrom(s, es);
            g in t.calls && t.calls[g].at.Returned? ==> Some(t.calls[g].at.answer) == Settled(s, g)
  {
    if es != [] {
      SettledIsReturned(s, es[..|es| - 1], g);
      RunKeeps(s, es[..|es| - 1]);
      SettledStays(RunFrom(s, es[..|es| - 1]), es[|es| - 1], g);
    }
  }

  /** A call reads the users, the generation and the cache, and joins or leads a flight. */
  function Consults(g: nat, known: bool, expired: bool): seq<Event> {
    [ReadUsers(g, known), ReadGeneration(g), ReadCache(g, expired), DeleteEntry(g), Join(g)]
  }

  /** A new call would be answered about users that a reload which is over has replaced: by the cached entry
      of the current generation or, if there is none it can use, by the call that leads the flight. */
  predicate AnswersOld(s: State, expired: bool) {
    if Hits(s, s.generation, expired) then s.cache.value.users < s.generation
    else s.inflight.Some? && s.inflight.value in s.calls && s.calls[s.inflight.value].users < s.generation
  }

  lemma OneMore(s: State, es: seq<Event>, e: Event)
    ensures RunFrom(s, es + [e]) == Next(RunFrom(s, es), e)
  {
    assert (es + [e])[..|es|] == es;
  }

  /** The state after a call has read the users and the generation and nothing else has happened. */
  function WithBoth(s: State, g: nat): State {
    s.(calls := s.calls[g := Call(s.users, s.generation, HasBoth)])
  }

  function Consulted(s: State, g: nat, expired: bool): State {
    Next(Next(Next(WithBoth(s, g), ReadCache(g, expired)), DeleteEntry(g)), Join(g))
  }

  lemma ConsultsEndIn(s: State, g: nat, expired: bool)
    requires g !in s.calls
    ensures RunFrom(s, Consults(g, true, expired)) == Consulted(s, g, expired)
  {
    var es := Consults(g, true, expired);
    OneMore(s, [], es[0]);
    OneMore(s, [es[0]], es[1]);
    OneMore(s, [es[0], es[1]], es[2]);
    OneMore(s, [es[0], es[1], es[2]], es[3]);
    OneMore(s, [es[0], es[1], es[2], es[3]], es[4]);
    assert [] + [es[0]] == [es[0]] && [es[0]] + [es[1]] == [es[0], es[1]];
    assert [es[0], es[1]] + [es[2]] == [es[0], es[1], es[2]];
    assert [es[0], es[1], es[2]] + [es[3]] == [es[0], es[1], es[2], es[3]];
    assert [es[0], es[1], es[2], es[3]] + [es[4]] == es;
    assert Next(Next(s, es[0]), es[1]) == WithBoth(s, g);
  }

  lemma ConsultSettles(s: State, g: nat, expired: bool)
    requires Inv(s) && g !in s.calls
    ensures Settled(Consulted(s, g, expired), g)
         == Some(if Hits(s, s.generation, expired) then s.cache.value.users
                 else if s.inflight.Some? then s.calls[s.inflight.value].users
                 else s.users)
  {
    var a := WithBoth(s, g);
    var b := Next(a, ReadCache(g, expired));
    var c := Next(b, DeleteEntry(g));
    if !Hits(s, s.generation, expired) {
      assert c.calls[g].at.Missed? && c.inflight == s.inflight && c.calls[g].users == s.users;
    }
  }

  /** In every run, whatever came before and whatever comes after: a call that starts now returns an answer
      about users which a reload that is over has replaced if and only if the state says so now. */
  lemma OldAnswerIff(before: seq<Event>, g: nat, expired: bool, after: seq<Event>)
    requires g !in RunFrom(Init, before).calls
    ensures var s := RunFrom(Init, before);
            var t := RunFrom(RunFrom(s, Consults(g, true, expired)), after);
            && g in t.calls
            && (t.calls[g].at.Returned? ==> (t.calls[g].at.answer < s.generation <==> AnswersOld(s, expired)))
  {
    var s := RunFrom(Init, before);
    RunKeeps(Init, before);
    var m := RunFrom(s, Consults(g, true, expired));
    RunKeeps(s, Consults(g, true, expired));
    ConsultsEndIn(s, g, expired);
    ConsultSettles(s, g, expired);
    SettledIsReturned(m, after, g);
  }

  // ---- a call whose own steps are interleaved with anything ---------------------------------------------

  /** In this step call `g` takes its answer about users before version `n` from the cache or from a flight. */
  predicate TakesOld(s: State, e: Event, g: nat, n: nat) {
    && g in s.calls
    && (|| (&& e.ReadCache? && e.g == g && s.calls[g].at.HasBoth? && Hits(s, s.calls[g].generation, e.expired)
            && s.cache.value.users < n)
        || (&& e == Join(g) && s.calls[g].at.Missed? && s.inflight.Some? && s.inflight.value in s.calls
            && s.calls[s.inflight.value].users < n))
  }

  ghost predicate TookOld(s: State, es: seq<Event>, g: nat, n: nat) {
    es != [] && (TookOld(s, es[..|es| - 1], g, n) || TakesOld(RunFrom(s, es[..|es| - 1]), es[|es| - 1], g, n))
  }

  lemma SettlesOldIff(s: State, e: Event, g: nat, n: nat)
    requires Inv(s) && g in s.calls && n <= s.calls[g].users && Settled(s, g).None?
    ensures Settled(Next(s, e), g).Some? ==> (Settled(Next(s, e), g).value < n <==> TakesOld(s, e, g, n))
    ensures Settled(Next(s, e), g).None? ==> !TakesOld(s, e, g, n)
  {
    assert CallOk(s, g);
  }

  lemma SettledTakesNothing(s: State, e: Event, g: nat, n: nat)
    requires Settled(s, g).Some?
    ensures !TakesOld(s, e, g, n)
  {
  }

  /** In every interleaving: the answer of a call is about users that had been replaced when the call began if
      and only if it took it from a cache entry or joined a flight about such users. */
  lemma {:induction false} OldOnlyIfTaken(before: seq<Event>, es: seq<Event>, g: nat)
    requires g !in RunFrom(Init, before).calls
    ensures var n := RunFrom(Init, before).generation;
            var s := Next(RunFrom(Init, before), ReadUsers(g, true));
            var t := RunFrom(s, es);
            && (Settled(t, g).Some? ==> (Settled(t, g).value < n <==> TookOld(s, es, g, n)))
            && (Settled(t, g).None? ==> !TookOld(s, es, g, n))
  {
    var s := Next(RunFrom(Init, before), ReadUsers(g, true));
    RunKeeps(Init, before);
    StepKeeps(RunFrom(Init, before), ReadUsers(g, true));
    if es != [] {
      var front := es[..|es| - 1];
      OldOnlyIfTaken(before, front, g);
      RunKeeps(s, front);
      UsersStay(s, front, g);
      OldStep(RunFrom(s, front), es[|es| - 1], g, RunFrom(Init, before).generation);
    }
  }

  lemma OldStep(s: State, e: Event, g: nat, n: nat)
    requires Inv(s) && g in s.calls && n <= s.calls[g].users
    ensures Settled(s, g).None? && Settled(Next(s, e), g).Some? ==>
              (Settled(Next(s, e), g).value < n <==> TakesOld(s, e, g, n))
    ensures Settled(s, g).None? && Settled(Next(s, e), g).None? ==> !TakesOld(s, e, g, n)
    ensures Settled(s, g).Some? ==> Settled(Next(s, e), g) == Settled(s, g) && !TakesOld(s, e, g, n)
  {
    if Settled(s, g).None? {
      SettlesOldIff(s, e, g, n);
    } else {
      SettledStays(s, e, g);
      SettledTakesNothing(s, e, g, n);
    }
  }

  /** A call for a user that is not in the table is answered about the users it has just read. */
  lemma UnknownUserIsCurrent(before: seq<Event>, g: nat)
    requires g !in RunFrom(Init, before).calls
    ensures var s := RunFrom(Init, before);
            Settled(Next(s, ReadUsers(g, false)), g) == Some(s.users) && s.users >= s.generation
  {
    RunKeeps(Init, before);
  }

  // ---- when the state says so: a whole reload, between two reads or since a read ------------------------

  /** A reload stores its users within the events. */
  ghost predicate StoresWithin(s: State, es: seq<Event>) {
    es != [] && var n := |es| - 1;
    var t := RunFrom(s, es[..n]);
    StoresWithin(s, es[..n]) || (es[n] == StoreUsers && t.users == t.generation)
  }

  /** A reload stores its users and then its generation within the events. */
  ghost predicate ReloadWithin(s: State, es: seq<Event>) {
    es != [] && var n := |es| - 1;
    var t := RunFrom(s, es[..n]);
    || ReloadWithin(s, es[..n])
    || (StoresWithin(s, es[..n]) && es[n] == BumpGeneration && t.users == t.generation + 1)
  }

  lemma Counters(s: State, e: Event)
    ensures Next(s, e).users == s.users + (if e == StoreUsers && s.users == s.generation then 1 else 0)
    ensures Next(s, e).generation
         == s.generation + (if e == BumpGeneration && s.users == s.generation + 1 then 1 else 0)
  {
  }

  lemma {:induction false} UsersGrowIffStored(s: State, es: seq<Event>)
    requires Inv(s)
    ensures RunFrom(s, es).users > s.users <==> StoresWithin(s, es)
  {
    if es != [] {
      UsersGrowIffStored(s, es[..|es| - 1]);
      RunKeeps(s, es[..|es| - 1]);
      Counters(RunFrom(s, es[..|es| - 1]), es[|es| - 1]);
    }
  }

  lemma {:induction false} ReplacedIffReload(s: State, es: seq<Event>)
    requires Inv(s)
    ensures s.users < RunFrom(s, es).generation <==> ReloadWithin(s, es)
  {
    if es != [] {
      ReplacedIffReload(s, es[..|es| - 1]);
      UsersGrowIffStored(s, es[..|es| - 1]);
      RunKeeps(s, es[..|es| - 1]);
      Counters(RunFrom(s, es[..|es| - 1]), es[|es| - 1]);
    }
  }

  lemma {:induction false} UsersStay(s: State, es: seq<Event>, g: nat)
    requires g in s.calls
    ensures g in RunFrom(s, es).calls && RunFrom(s, es).calls[g].users == s.calls[g].users
  {
    if es != [] {
      UsersStay(s, es[..|es| - 1], g);
    }
  }

  lemma {:induction false} StillHasUsers(s: State, es: seq<Event>, g: nat)
    requires g in s.calls && s.calls[g].at.HasUsers? && ReadGeneration(g) !in es
    ensures g in RunFrom(s, es).calls && RunFrom(s, es).calls[g] == s.calls[g]
  {
    if es != [] {
      assert ReadGeneration(g) !in es[..|es| - 1] && es[|es| - 1] in es;
      StillHasUsers(s, es[..|es| - 1], g);
    }
  }

  /** The pair a call has read, and so its cache entry, is old from the start, its users older than its
      generation, if and only if a whole reload lies between its two reads. */
  lemma CrossedIffReloadBetween(before: seq<Event>, es: seq<Event>, g: nat)
    requires g !in RunFrom(Init, before).calls && ReadGeneration(g) !in es
    ensures var s := Next(RunFrom(Init, before), ReadUsers(g, true));
            var t := Next(RunFrom(s, es), ReadGeneration(g));
            && g in t.calls && t.calls[g].at == HasBoth
            && (t.calls[g].users < t.calls[g].generation <==> ReloadWithin(s, es))
  {
    RunKeeps(Init, before);
    var s := Next(RunFrom(Init, before), ReadUsers(g, true));
    StepKeeps(RunFrom(Init, before), ReadUsers(g, true));
    StillHasUsers(s, es, g);
    ReplacedIffReload(s, es);
  }

  /** The users a leader has read are replaced ones if and only if a whole reload lies since that read. */
  lemma LeaderIsOldIffReloadSince(before: seq<Event>, es: seq<Event>, g: nat)
    requires g !in RunFrom(Init, before).calls
    ensures var s := Next(RunFrom(Init, before), ReadUsers(g, true));
            var t := RunFrom(s, es);
            && g in t.calls
            && (t.inflight == Some(g) ==> (t.calls[g].users < t.generation <==> ReloadWithin(s, es)))
  {
    RunKeeps(Init, before);
    var s := Next(RunFrom(Init, before), ReadUsers(g, true));
    StepKeeps(RunFrom(Init, before), ReadUsers(g, true));
    UsersStay(s, es, g);
    ReplacedIffReload(s, es);
  }

  /** An entry of the current generation is about replaced users if and only if the call that stored it read
      its users and its generation from different reloads. */
  lemma EntryIsOldIffCrossed(es: seq<Event>)
    ensures var s := RunFrom(Init, es);
            s.cache.Some? && s.cache.value.generation == s.generation ==>
              var author := s.cache.value.author;
              && author in s.calls
              && (s.cache.value.users < s.generation <==> s.calls[author].users < s.calls[author].generation)
  {
    RunKeeps(Init, es);
  }

  // ---- both happen ---------------------------------------------------------------------------------------

  /** No reload is under way, no flight either, and the cache answers a new call about replaced users. */
  predicate OldInCache(s: State) {
    s.users == s.generation && s.inflight.None? && AnswersOld(s, false)
  }

  /** No reload is under way, nothing is cached and every call has read users and generation of one reload,
      and yet the flight answers a new call about replaced users. */
  predicate OldInFlight(s: State) {
    && s.users == s.generation && s.cache.None? && AnswersOld(s, false)
    && forall g :: g in s.calls ==> s.calls[g].users == s.calls[g].generation
  }

  /** A reload between the two reads of call 0: its answer, about users 0, is filed under generation 1. */
  lemma OldAnswerIsCached()
    ensures exists es :: OldInCache(RunFrom(Init, es))
  {
    var es := CrossedRun();
    CrossedRunEnds();
    OneMore(Init, es, Derive(0));
    OneMore(Init, es + [Derive(0)], StoreEntry(0));
    OneMore(Init, es + [Derive(0)] + [StoreEntry(0)], Publish(0));
    var s := RunFrom(Init, es + [Derive(0)] + [StoreEntry(0)] + [Publish(0)]);
    assert s == State(1, 1, Some(Entry(1, 0, 0)), None, map[0 := Call(0, 1, Returned(0))]);
    assert OldInCache(s);
  }

  function CrossedRun(): seq<Event> {
    [ReadUsers(0, true), StoreUsers, BumpGeneration, ReadGeneration(0), ReadCache(0, false), Join(0)]
  }

  lemma CrossedRunEnds()
    ensures RunFrom(Init, CrossedRun()) == State(1, 1, None, Some(0), map[0 := Call(0, 1, Leads)])
  {
    var es := CrossedRun();
    forall k | 0 <= k < 6 ensures es[..k + 1][..k] == es[..k] {}
    assert RunFrom(Init, es[..1]) == State(0, 0, None, None, map[0 := Call(0, 0, HasUsers)]);
    assert RunFrom(Init, es[..2]) == State(1, 0, None, None, map[0 := Call(0, 0, HasUsers)]);
    assert RunFrom(Init, es[..3]) == State(1, 1, None, None, map[0 := Call(0, 0, HasUsers)]);
    assert RunFrom(Init, es[..4]) == State(1, 1, None, None, map[0 := Call(0, 1, HasBoth)]);
    assert RunFrom(Init, es[..5]) == State(1, 1, None, None, map[0 := Call(0, 1, Missed)]);
    assert es[..6] == es;
  }

  /** A reload while call 0 leads a flight begun before it: no call reads across a reload, and yet a call that
      starts after the reload joins that flight. */
  lemma OldAnswerIsJoined()
    ensures exists es :: OldInFlight(RunFrom(Init, es))
  {
    var es := [ReadUsers(0, true), ReadGeneration(0), ReadCache(0, false), Join(0), StoreUsers, BumpGeneration];
    forall k | 0 <= k < 6 ensures es[..k + 1][..k] == es[..k] {}
    assert RunFrom(Init, es[..1]) == State(0, 0, None, None, map[0 := Call(0, 0, HasUsers)]);
    assert RunFrom(Init, es[..2]) == State(0, 0, None, None, map[0 := Call(0, 0, HasBoth)]);
    assert RunFrom(Init, es[..3]) == State(0, 0, None, None, map[0 := Call(0, 0, Missed)]);
    assert RunFrom(Init, es[..4]) == State(0, 0, None, Some(0), map[0 := Call(0, 0, Leads)]);
    assert RunFrom(Init, es[..5]) == State(1, 0, None, Some(0), map[0 := Call(0, 0, Leads)]);
    assert es[..6] == es;
    assert RunFrom(Init, es) == State(1, 1, None, Some(0), map[0 := Call(0, 0, Leads)]);
  }
}
