/** The session tables of one UDP association, one lock section per step: the association's own loop
    (look up, open, insert, send, remove after a failed send, `closeAllSessions` at its end) and one
    reader goroutine per session. The direct and the broker table have the same shape; a key says which. */
module UdpSessions {
  import opened Options

  datatype Key = Direct(target: string) | ViaBroker(key: string)

  type Sid = nat

  datatype Reader = NotStarted | Reading | ClosedOwn | Gone

  /** `closed`: the session's flag. `inserted` (history): it was put in the table. `connClosed`: its
      socket or broker session is closed. */
  datatype Session = Session(key: Key, closed: bool, inserted: bool, connClosed: bool, reader: Reader)

  /** Program point of the association's loop. */
  datatype Point =
    | Top
    | Opening(key: Key)
    | Opened(key: Key, sid: Sid)
    | Sending(key: Key, sid: Sid)
    | SendFailed(key: Key, sid: Sid)
    | Ended

  /** `client`: the bound client address; `accepted` (history): source addresses of accepted datagrams. */
  datatype State = State(
    table: map<Key, Sid>, sess: map<Sid, Session>, next: Sid, main: Point,
    client: Option<string>, accepted: set<string>)

  const Init := State(map[], map[], 0, Top, None, {})

  datatype Event =
    | Datagram(source: string)
    | Lookup(key: Key)
    | OpenFails
    | OpenSucceeds
    | Insert
    | SendOk
    | SendFails
    | RemoveFailed
    | ReaderEnds(sid: Sid)
    | ReaderRemoves(sid: Sid)
    | EndAssociation

  function CloseSession(x: Session): Session {
    x.(closed := true, connClosed := true)
  }

  predicate IsLive(s: State, sid: Sid) {
    sid in s.sess && !s.sess[sid].closed
  }

  /** `delete` guarded by `current == session`. */
  function RemoveOwn(table: map<Key, Sid>, key: Key, sid: Sid): map<Key, Sid> {
    if key in table && table[key] == sid then table - {key} else table
  }

  function Next(s: State, e: Event): State {
    match e
    case Datagram(source) =>
      if s.main != Top then s
      else if s.client.None? then s.(client := Some(source), accepted := s.accepted + {source})
      else if s.client.value == source then s.(accepted := s.accepted + {source})
      else s
    case Lookup(key) =>
      if s.main != Top then s
      else if key in s.table then
        if IsLive(s, s.table[key]) then s.(main := Sending(key, s.table[key]))
        else s.(table := s.table - {key}, main := Opening(key))
      else s.(main := Opening(key))
    case OpenFails => if s.main.Opening? then s.(main := Top) else s
    case OpenSucceeds =>
      if !s.main.Opening? then s
      else s.(sess := s.sess[s.next := Session(s.main.key, false, false, false, NotStarted)],
              next := s.next + 1,
              main := Opened(s.main.key, s.next))
    case Insert =>
      if !s.main.Opened? || s.main.sid !in s.sess then s
      else
        var key, sid := s.main.key, s.main.sid;
        if key in s.table && IsLive(s, s.table[key]) then
          s.(sess := s.sess[sid := s.sess[sid].(connClosed := true)], main := Sending(key, s.table[key]))
        else
          s.(table := s.table[key := sid],
             sess := s.sess[sid := s.sess[sid].(inserted := true, reader := Reading)],
             main := Sending(key, sid))
    case SendOk => if s.main.Sending? then s.(main := Top) else s
    case SendFails =>
      if !s.main.Sending? || s.main.sid !in s.sess then s
      else s.(sess := s.sess[s.main.sid := CloseSession(s.sess[s.main.sid])],
              main := SendFailed(s.main.key, s.main.sid))
    case RemoveFailed =>
      if !s.main.SendFailed? then s
      else s.(table := RemoveOwn(s.table, s.main.key, s.main.sid), main := Top)
    case ReaderEnds(sid) =>
      if sid !in s.sess || s.sess[sid].reader != Reading then s
      else s.(sess := s.sess[sid := CloseSession(s.sess[sid]).(reader := ClosedOwn)])
    case ReaderRemoves(sid) =>
      if sid !in s.sess || s.sess[sid].reader != ClosedOwn then s
      else s.(table := RemoveOwn(s.table, s.sess[sid].key, sid), sess := s.sess[sid := s.sess[sid].(reader := Gone)])
    case EndAssociation =>
      if s.main != Top then s
      else s.(sess := map sid | sid in s.sess ::
                        if sid in s.table.Values then CloseSession(s.sess[sid]) else s.sess[sid],
              table := map[],
              main := Ended)
  }

  function Run(es: seq<Event>): State {
    if es == [] then Init else Next(Run(es[..|es| - 1]), es[|es| - 1])
  }

  ghost predicate SessionOk(s: State, sid: Sid)
    requires sid in s.sess
  {
    var x := s.sess[sid];
    && sid < s.next
    && (x.inserted && !x.closed ==> x.key in s.table && s.table[x.key] == sid)
    && (x.closed ==> x.connClosed)
    && (!x.inserted ==> x.connClosed || (s.main.Opened? && s.main.sid == sid))
    && (!x.inserted ==> x.reader == NotStarted)
    && (x.reader == ClosedOwn || x.reader == Gone ==> x.closed)
  }

  ghost predicate TableOk(s: State) {
    forall k :: k in s.table ==>
      s.table[k] in s.sess && s.sess[s.table[k]].key == k && s.sess[s.table[k]].inserted
  }

  ghost predicate MainOk(s: State) {
    && (s.main.Opened? ==>
          s.main.sid in s.sess && s.sess[s.main.sid].key == s.main.key && !s.sess[s.main.sid].inserted)
    && (s.main.Sending? ==>
          s.main.sid in s.sess && s.sess[s.main.sid].inserted && s.sess[s.main.sid].key == s.main.key)
    && (s.main.SendFailed? ==> s.main.sid in s.sess && s.sess[s.main.sid].closed)
    && (s.main == Ended ==> s.table == map[])
    && (if s.client.None? then s.accepted == {} else s.accepted == {s.client.value})
  }

  ghost predicate Inv(s: State) {
    (forall sid :: sid in s.sess ==> SessionOk(s, sid)) && TableOk(s) && MainOk(s)
  }

  lemma OpenKeeps(s: State)
    requires Inv(s) && s.main.Opening?
    ensures Inv(Next(s, OpenSucceeds))
  {
    var t := Next(s, OpenSucceeds);
    assert s.next !in s.sess;
    forall sid | sid in t.sess ensures SessionOk(t, sid) {
      if sid in s.sess { assert SessionOk(s, sid); }
    }
  }

  lemma InsertKeeps(s: State)
    requires Inv(s) && s.main.Opened?
    ensures Inv(Next(s, Insert))
  {
    var t := Next(s, Insert);
    forall sid | sid in t.sess ensures SessionOk(t, sid) {
      assert SessionOk(s, sid);
    }
  }

  /** Taking a closed session's own entry out, or any entry of a closed session. */
  lemma RemoveKeeps(s: State, k: Key)
    requires Inv(s) && k in s.table && s.sess[s.table[k]].closed
    ensures Inv(s.(table := s.table - {k}))
  {
    var t := s.(table := s.table - {k});
    forall sid | sid in t.sess ensures SessionOk(t, sid) {
      assert SessionOk(s, sid);
    }
  }

  lemma LookupKeeps(s: State, key: Key)
    requires Inv(s) && s.main == Top
    ensures Inv(Next(s, Lookup(key)))
  {
    var t := Next(s, Lookup(key));
    if key in s.table && !IsLive(s, s.table[key]) { RemoveKeeps(s, key); }
    forall sid | sid in t.sess ensures SessionOk(t, sid) {
      assert SessionOk(s, sid);
    }
  }

  lemma RemovalsKeep(s: State, e: Event)
    requires Inv(s) && (e.RemoveFailed? || e.ReaderRemoves?)
    ensures Inv(Next(s, e))
  {
    var t := Next(s, e);
    forall sid | sid in t.sess ensures SessionOk(t, sid) {
      assert SessionOk(s, sid);
    }
  }

  lemma EndKeeps(s: State)
    requires Inv(s) && s.main == Top
    ensures Inv(Next(s, EndAssociation))
  {
    var t := Next(s, EndAssociation);
    forall sid | sid in t.sess ensures SessionOk(t, sid) {
      assert SessionOk(s, sid);
      if sid !in s.table.Values && s.sess[sid].inserted { assert s.sess[sid].closed; }
    }
  }

  lemma ClosesKeep(s: State, e: Event)
    requires Inv(s) && (e.SendFails? || e.ReaderEnds?)
    ensures Inv(Next(s, e))
  {
    var t := Next(s, e);
    forall sid | sid in t.sess ensures SessionOk(t, sid) {
      assert SessionOk(s, sid);
    }
  }

  lemma StepKeeps(s: State, e: Event)
    requires Inv(s)
    ensures Inv(Next(s, e))
  {
    match e
    case Lookup(key) => if s.main == Top { LookupKeeps(s, key); }
    case OpenSucceeds => if s.main.Opening? { OpenKeeps(s); }
    case Insert => if s.main.Opened? { InsertKeeps(s); }
    case SendFails => ClosesKeep(s, e);
    case ReaderEnds(_) => ClosesKeep(s, e);
    case RemoveFailed => RemovalsKeep(s, e);
    case ReaderRemoves(_) => RemovalsKeep(s, e);
    case EndAssociation => if s.main == Top { EndKeeps(s); }
    case Datagram(_) => TopOnlyKeeps(s, e);
    case OpenFails => TopOnlyKeeps(s, e);
    case SendOk => TopOnlyKeeps(s, e);
  }

  lemma TopOnlyKeeps(s: State, e: Event)
    requires Inv(s) && (e.Datagram? || e.OpenFails? || e.SendOk?)
    ensures Inv(Next(s, e))
  {
    var t := Next(s, e);
    forall sid | sid in t.sess ensures SessionOk(t, sid) {
      assert SessionOk(s, sid);
    }
  }

  lemma {:induction false} RunKeeps(es: seq<Event>)
    ensures Inv(Run(es))
  {
    if es != [] {
      RunKeeps(es[..|es| - 1]);
      StepKeeps(Run(es[..|es| - 1]), es[|es| - 1]);
    }
  }

  /** In every interleaving: a session that was inserted and is no longer in the table is closed, with its
      connection; and a key has at most one live session. */
  lemma TableHoldsTheLiveSessions(es: seq<Event>, a: Sid, b: Sid)
    requires a in Run(es).sess && b in Run(es).sess && Run(es).sess[a].inserted
    ensures var s := Run(es);
            var x := s.sess[a];
            && (!(x.key in s.table && s.table[x.key] == a) ==> x.closed && x.connClosed)
            && (!x.closed && s.sess[b].inserted && !s.sess[b].closed && s.sess[b].key == x.key ==> a == b)
  {
    RunKeeps(es);
    assert SessionOk(Run(es), a) && SessionOk(Run(es), b);
  }

  /** The key of the datagram that the association's loop handles: the last one it looked up. */
  function LookedUp(es: seq<Event>): Option<Key> {
    if es == [] then None else
      var n := |es| - 1;
      if es[n].Lookup? && Run(es[..n]).main == Top then Some(es[n].key) else LookedUp(es[..n])
  }

  predicate HasKey(m: Point) {
    m != Top && m != Ended
  }

  lemma {:induction false} KeyIsLookedUp(es: seq<Event>)
    ensures HasKey(Run(es).main) ==> LookedUp(es) == Some(Run(es).main.key)
  {
    if es != [] {
      KeyIsLookedUp(es[..|es| - 1]);
    }
  }

  /** In every interleaving the session that a datagram is sent on was opened for the very key that was looked up
      for the datagram. */
  lemma SentOnItsOwnKey(es: seq<Event>)
    requires Run(es).main.Sending?
    ensures var s := Run(es);
            && s.main.sid in s.sess && s.sess[s.main.sid].inserted
            && LookedUp(es) == Some(s.sess[s.main.sid].key)
  {
    RunKeeps(es);
    KeyIsLookedUp(es);
  }

  /** Once the association has ended, every session it ever opened has its connection closed, inserted or
      not, and no step opens another. */
  lemma AllClosedAtEnd(es: seq<Event>)
    requires Run(es).main == Ended
    ensures forall sid :: sid in Run(es).sess ==> Run(es).sess[sid].connClosed
    ensures forall e :: Next(Run(es), e).sess.Keys == Run(es).sess.Keys && Next(Run(es), e).main == Ended
  {
    var s := Run(es);
    RunKeeps(es);
    forall sid | sid in s.sess ensures s.sess[sid].connClosed {
      assert SessionOk(s, sid);
    }
  }

  /** The events that end session `sid`: its own reader, a failed send on it, the end of the association. */
  predicate EndsSession(s: State, e: Event, sid: Sid) {
    e == ReaderEnds(sid) || e == EndAssociation || (e == SendFails && s.main.Sending? && s.main.sid == sid)
  }

  /** None of the events from the `k`-th on ends session `sid`. */
  ghost predicate Spared(es: seq<Event>, k: nat, sid: Sid) {
    |es| > k ==>
      var n := |es| - 1;
      Spared(es[..n], k, sid) && !EndsSession(Run(es[..n]), es[n], sid)
  }

  /** A session that is live after `k` events of a run is live and in the table after all of them, unless one
      of its own events came: nothing that a dying predecessor or any other session does removes it. */
  lemma {:induction false} SuccessorSurvives(es: seq<Event>, k: nat, sid: Sid)
    requires k <= |es| && sid in Run(es[..k]).sess
    requires Run(es[..k]).sess[sid].inserted && !Run(es[..k]).sess[sid].closed
    requires Spared(es, k, sid)
    ensures var s := Run(es);
            && sid in s.sess && s.sess[sid].inserted && !s.sess[sid].closed
            && s.sess[sid].key in s.table && s.table[s.sess[sid].key] == sid
  {
    RunKeeps(es);
    if k == |es| {
      assert es[..k] == es;
    } else {
      var n := |es| - 1;
      assert es[..n][..k] == es[..k];
      SuccessorSurvives(es[..n], k, sid);
      RunKeeps(es[..n]);
      StaysLive(Run(es[..n]), es[n], sid);
    }
    assert SessionOk(Run(es), sid);
  }

  lemma StaysLive(s: State, e: Event, sid: Sid)
    requires Inv(s) && sid in s.sess && s.sess[sid].inserted && !s.sess[sid].closed && !EndsSession(s, e, sid)
    ensures var t := Next(s, e); sid in t.sess && t.sess[sid].inserted && !t.sess[sid].closed
  {
    assert SessionOk(s, sid);
  }

  /** All datagrams an association accepts come from the one address it bound first. */
  lemma OneClient(es: seq<Event>, a: string, b: string)
    requires a in Run(es).accepted && b in Run(es).accepted
    ensures a == b
  {
    RunKeeps(es);
  }

  // ---- the broker table's keys -------------------------------------------------------------

  function SessionKey(route: string, target: string): string {
    route + "|" + target
  }

  function BeforeBar(s: string): string {
    if s == "" || s[0] == '|' then "" else [s[0]] + BeforeBar(s[1..])
  }

  lemma {:induction false} RouteOfKey(route: string, target: string)
    requires '|' !in route
    ensures BeforeBar(SessionKey(route, target)) == route
  {
    var k := SessionKey(route, target);
    if route == "" {
      assert k[0] == '|';
    } else {
      RouteOfKey(route[1..], target);
      assert k[0] == route[0] && k[1..] == SessionKey(route[1..], target);
    }
  }

  /** Different (route, target) pairs have different keys as long as route names hold no '|'. */
  lemma KeysAreDistinct(r1: string, t1: string, r2: string, t2: string)
    requires '|' !in r1 && '|' !in r2 && SessionKey(r1, t1) == SessionKey(r2, t2)
    ensures r1 == r2 && t1 == t2
  {
    RouteOfKey(r1, t1);
    RouteOfKey(r2, t2);
    assert t1 == SessionKey(r1, t1)[|r1| + 1..];
    assert t2 == SessionKey(r2, t2)[|r2| + 1..];
  }

  /** The target under the shorter route that shares its key with target `t` under the longer one. */
  function Twin(short: string, long: string, t: string): string
    requires short + "|" <= long + "|"
  {
    (long + "|")[|short| + 1..] + t
  }

  /** When one route, with the bar, starts the other, every target of the longer one has a twin. */
  lemma Collide(short: string, long: string, t: string)
    requires short + "|" <= long + "|"
    ensures SessionKey(short, Twin(short, long, t)) == SessionKey(long, t)
  {
    var rest := (long + "|")[|short| + 1..];
    assert short + "|" + rest == long + "|";
    assert short + "|" + (rest + t) == short + "|" + rest + t;
  }

  /** Some targets under two routes share a key if and only if one route, with the bar, starts the other; then
      every target of the longer route shares its key with one of the shorter. */
  lemma KeysCollideIff(r1: string, r2: string)
    ensures (exists t1, t2 :: SessionKey(r1, t1) == SessionKey(r2, t2)) <==>
              r1 + "|" <= r2 + "|" || r2 + "|" <= r1 + "|"
    ensures r1 + "|" <= r2 + "|" ==> forall t :: SessionKey(r1, Twin(r1, r2, t)) == SessionKey(r2, t)
  {
    if t1, t2 :| SessionKey(r1, t1) == SessionKey(r2, t2) {
      var k := SessionKey(r1, t1);
      assert k[..|r1| + 1] == r1 + "|" && k[..|r2| + 1] == r2 + "|";
    }
    if r1 + "|" <= r2 + "|" {
      forall t ensures SessionKey(r1, Twin(r1, r2, t)) == SessionKey(r2, t) { Collide(r1, r2, t); }
      assert SessionKey(r1, Twin(r1, r2, "")) == SessionKey(r2, "");
    } else if r2 + "|" <= r1 + "|" {
      Collide(r2, r1, "");
    }
  }
}
