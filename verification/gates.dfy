/** A worker session's `setConn` against `close`, one lock section or channel close per step. */
module SessionConn {

  datatype Closer = NotStarted | DoneClosed | Took(had: bool) | Complete

  datatype Setter = NotDialled | Dialled | Stored | Refused | RefusedAndClosed

  datatype Who = Nobody | TheCloser | TheCaller

  /** `done`: `s.done` is closed. `conn`: `s.conn` is not nil. `closer` and `setter` are the program
      points of the one `close` that `closeOnce` lets run and of the one `openTCP` of the session.
      `closedBy` (history): who closed the dialled connection. */
  datatype State = State(done: bool, conn: bool, closer: Closer, setter: Setter, closedBy: Who)

  const Init := State(false, false, NotStarted, NotDialled, Nobody)

  datatype Event = Dial | SetConn | CallerCloses | CloseDone | TakeConn | CloseConn

  function Next(s: State, e: Event): State {
    match e
    case Dial => if s.setter == NotDialled then s.(setter := Dialled) else s
    case SetConn =>
      if s.setter != Dialled then s
      else if s.done then s.(setter := Refused)
      else s.(conn := true, setter := Stored)
    case CallerCloses => if s.setter == Refused then s.(setter := RefusedAndClosed, closedBy := TheCaller) else s
    case CloseDone => if s.closer == NotStarted then s.(done := true, closer := DoneClosed) else s
    case TakeConn => if s.closer == DoneClosed then s.(conn := false, closer := Took(s.conn)) else s
    case CloseConn =>
      if !s.closer.Took? then s
      else s.(closer := Complete, closedBy := if s.closer.had then TheCloser else s.closedBy)
  }

  function Run(es: seq<Event>): State {
    if es == [] then Init else Next(Run(es[..|es| - 1]), es[|es| - 1])
  }

  ghost predicate Inv(s: State) {
    && (s.done <==> s.closer != NotStarted)
    && (s.conn ==> s.setter == Stored)
    && (s.closer == Took(true) || s.closedBy == TheCloser ==> s.setter == Stored && !s.conn)
    && (s.setter == Stored ==>
          match s.closer
          case NotStarted => s.conn && s.closedBy == Nobody
          case DoneClosed => s.conn && s.closedBy == Nobody
          case Took(had) => had && !s.conn && s.closedBy == Nobody
          case Complete => !s.conn && s.closedBy == TheCloser)
    && (s.setter == RefusedAndClosed <==> s.closedBy == TheCaller)
  }

  lemma {:induction false} RunKeeps(es: seq<Event>)
    ensures Inv(Run(es))
  {
    if es != [] {
      RunKeeps(es[..|es| - 1]);
    }
  }

  /** In every interleaving: once `close` has completed and `openTCP` is past its `setConn`, `s.conn` is
      nil and the dialled connection was closed by exactly the right one of the two, never by neither. */
  lemma DialledConnectionIsClosed(es: seq<Event>)
    requires var s := Run(es); s.closer == Complete && (s.setter == Stored || s.setter == RefusedAndClosed)
    ensures var s := Run(es);
            && !s.conn
            && (s.setter == Stored ==> s.closedBy == TheCloser)
            && (s.setter == RefusedAndClosed ==> s.closedBy == TheCaller)
  {
    RunKeeps(es);
  }

  /** `setConn` stores the connection exactly when `close` has not begun. */
  lemma StoredIffBeforeClose(es: seq<Event>)
    requires Run(es).setter == Dialled
    ensures Next(Run(es), SetConn).setter == Stored <==> Run(es).closer == NotStarted
  {
    RunKeeps(es);
  }
}

/** The proxy's dial gate `getBrokerConnection`, with any number of goroutines, one lock section per step. */
module DialGate {
  import opened Options

  type Chan = nat
  type Conn = nat

  /** Where a goroutine is in `getBrokerConnection`. */
  datatype Point =
    | Start
    | Waiting(ch: Chan)
    | Dialling(ch: Chan)
    | DialEnded(ch: Chan, result: Option<Conn>)
    | Returned(result: Option<Conn>)

  /** `conn`, `dialing`, `waitCh`: the three globals. `closedChs`: wait channels already closed.
      `dead`: connections whose `close` has closed `c.done`; `cleared`: those whose `close` is past its
      `brokerConn == c` section; `early` (history): those already past it when they were published. */
  datatype State = State(
    conn: Option<Conn>, dialing: bool, waitCh: Chan, closedChs: set<Chan>,
    nextCh: nat, nextConn: nat, at: map<nat, Point>,
    dead: set<Conn>, cleared: set<Conn>, early: set<Conn>)

  const Init := State(None, false, 0, {}, 1, 0, map[], {}, {}, {})

  datatype Event =
    | Call(g: nat)
    | Enter(g: nat)
    | Wake(g: nat)
    | DialReturns(g: nat, ok: bool)
    | Publish(g: nat)
    | Die(c: Conn)
    | Clear(c: Conn)

  function Next(s: State, e: Event): State {
    match e
    case Call(g) => if g in s.at && !s.at[g].Returned? then s else s.(at := s.at[g := Start])
    case Enter(g) =>
      if g !in s.at || s.at[g] != Start then s
      else if s.conn.Some? then s.(at := s.at[g := Returned(s.conn)])
      else if s.dialing then s.(at := s.at[g := Waiting(s.waitCh)])
      else s.(dialing := true, waitCh := s.nextCh, nextCh := s.nextCh + 1, at := s.at[g := Dialling(s.nextCh)])
    case Wake(g) =>
      if g in s.at && s.at[g].Waiting? && s.at[g].ch in s.closedChs then s.(at := s.at[g := Start]) else s
    case DialReturns(g, ok) =>
      if g !in s.at || !s.at[g].Dialling? then s
      else if ok then s.(nextConn := s.nextConn + 1, at := s.at[g := DialEnded(s.at[g].ch, Some(s.nextConn))])
      else s.(at := s.at[g := DialEnded(s.at[g].ch, None)])
    case Publish(g) =>
      if g !in s.at || !s.at[g].DialEnded? then s
      else
        var r := s.at[g].result;
        s.(conn := if r.Some? then r else s.conn, dialing := false, closedChs := s.closedChs + {s.at[g].ch},
           early := if r.Some? && r.value in s.cleared then s.early + {r.value} else s.early,
           at := s.at[g := Returned(r)])
    case Die(c) => if c < s.nextConn then s.(dead := s.dead + {c}) else s
    case Clear(c) =>
      if c !in s.dead then s
      else s.(cleared := s.cleared + {c}, conn := if s.conn == Some(c) && c !in s.cleared then None else s.conn)
  }

  function RunFrom(s: State, es: seq<Event>): State {
    if es == [] then s else Next(RunFrom(s, es[..|es| - 1]), es[|es| - 1])
  }

  function Run(es: seq<Event>): State {
    RunFrom(Init, es)
  }

  predicate Dials(p: Point) {
    p.Dialling? || p.DialEnded?
  }

  ghost predicate Inv(s: State) {
    && (forall g, h :: g in s.at && h in s.at && Dials(s.at[g]) && Dials(s.at[h]) ==> g == h)
    && (s.dialing <==> exists g :: g in s.at && Dials(s.at[g]))
    && (forall g :: g in s.at && Dials(s.at[g]) ==> s.at[g].ch == s.waitCh)
    && (s.dialing ==> s.waitCh != 0 && s.waitCh !in s.closedChs && s.conn == None)
    && (!s.dialing ==> s.waitCh == 0 || s.waitCh in s.closedChs)
    && (forall g :: g in s.at && s.at[g].Waiting? ==>
          s.at[g].ch in s.closedChs || (s.dialing && s.at[g].ch == s.waitCh))
    && (forall c :: c in s.closedChs ==> c < s.nextCh) && s.waitCh < s.nextCh && s.nextCh > 0
    && s.cleared <= s.dead && s.early <= s.cleared && (forall c :: c in s.dead ==> c < s.nextConn)
    && (s.conn.Some? ==> s.conn.value < s.nextConn && (s.conn.value in s.cleared <==> s.conn.value in s.early))
    && (forall g :: g in s.at && s.at[g].DialEnded? && s.at[g].result.Some? ==>
          s.at[g].result.value < s.nextConn && s.at[g].result.value !in s.early)
  }

  lemma EnterKeeps(s: State, g: nat)
    requires Inv(s)
    ensures Inv(Next(s, Enter(g)))
  {
    var t := Next(s, Enter(g));
    if g in s.at && s.at[g] == Start {
      if s.conn.None? && !s.dialing {
        assert Dials(t.at[g]);
      } else if s.dialing {
        var d :| d in s.at && Dials(s.at[d]);
        assert Dials(t.at[d]);
      }
    }
  }

  lemma PublishKeeps(s: State, g: nat)
    requires Inv(s)
    ensures Inv(Next(s, Publish(g)))
  {
    var t := Next(s, Publish(g));
    if g in s.at && s.at[g].DialEnded? {
      assert Dials(s.at[g]);
      forall h | h in t.at ensures !Dials(t.at[h]) {
        if h != g { assert t.at[h] == s.at[h]; }
      }
    }
  }

  lemma OtherKeeps(s: State, e: Event)
    requires Inv(s) && !e.Enter? && !e.Publish?
    ensures Inv(Next(s, e))
  {
    if e.Die? || e.Clear? {
      DeathKeeps(s, e);
    } else if e.DialReturns? {
      DialReturnsKeeps(s, e.g, e.ok);
    } else if s.dialing {
      var d :| d in s.at && Dials(s.at[d]);
      assert Dials(Next(s, e).at[d]);
    }
  }

  lemma DialReturnsKeeps(s: State, g: nat, ok: bool)
    requires Inv(s)
    ensures Inv(Next(s, DialReturns(g, ok)))
  {
    if s.dialing {
      var d :| d in s.at && Dials(s.at[d]);
      assert Dials(Next(s, DialReturns(g, ok)).at[d]);
    }
  }

  lemma DeathKeeps(s: State, e: Event)
    requires Inv(s) && (e.Die? || e.Clear?)
    ensures Inv(Next(s, e))
  {
    assert Next(s, e).at == s.at;
  }

  lemma {:induction false} RunKeeps(es: seq<Event>)
    ensures Inv(Run(es))
  {
    if es != [] {
      var s, e := Run(es[..|es| - 1]), es[|es| - 1];
      RunKeeps(es[..|es| - 1]);
      if e.Enter? { EnterKeeps(s, e.g); }
      else if e.Publish? { PublishKeeps(s, e.g); }
      else { OtherKeeps(s, e); }
    }
  }

  /** In every interleaving at most one goroutine dials; `brokerDialing` holds exactly while there is one,
      and exactly while its wait channel is there and open; a waiting goroutine's channel is already closed,
      or it belongs to the dial in progress, whose end will close it. */
  lemma OneDialAtATime(es: seq<Event>)
    ensures var s := Run(es);
            && (forall g, h :: InDial(s, g) && InDial(s, h) ==> g == h)
            && (s.dialing <==> exists g :: InDial(s, g))
            && (s.dialing <==> s.waitCh != 0 && s.waitCh !in s.closedChs)
            && (forall g :: InDial(s, g) ==> s.at[g].ch == s.waitCh)
            && (forall g :: g in s.at && s.at[g].Waiting? ==>
                  s.at[g].ch in s.closedChs || exists d :: InDial(s, d) && s.at[d].ch == s.at[g].ch)
  {
    RunKeeps(es);
    var s := Run(es);
    if s.dialing {
      var d :| d in s.at && Dials(s.at[d]);
      assert InDial(s, d);
    }
  }

  predicate InDial(s: State, g: nat) {
    g in s.at && Dials(s.at[g])
  }

  /** Event `k` of the run publishes connection `c`. */
  ghost predicate PublishedAt(es: seq<Event>, k: nat, c: Conn) {
    && k < |es| && es[k].Publish?
    && var s := Run(es[..k]);
       es[k].g in s.at && s.at[es[k].g].DialEnded? && s.at[es[k].g].result == Some(c)
  }

  /** The connection published by event `k` is, as long as it is the current one, one whose close is over if and
      only if that close was over before the event: a close that ends later clears it. */
  lemma StaleIffClosedEarly(es: seq<Event>, k: nat, c: Conn)
    requires PublishedAt(es, k, c)
    ensures Run(es).conn == Some(c) ==> (c in Run(es).cleared <==> c in Run(es[..k]).cleared)
  {
    RunKeeps(es);
    EarlyIsFixed(es, k, c);
  }

  /** No goroutine is about to publish connection `c`, and no dial will return it again. */
  ghost predicate Spent(s: State, c: Conn) {
    c < s.nextConn && forall g :: g in s.at && s.at[g].DialEnded? ==> s.at[g].result != Some(c)
  }

  lemma SpentAtOnce(s: State, g: nat, c: Conn)
    requires Inv(s) && g in s.at && s.at[g].DialEnded? && s.at[g].result == Some(c)
    ensures var t := Next(s, Publish(g)); Spent(t, c) && (c in t.early <==> c in s.cleared)
  {
    assert Dials(s.at[g]);
    assert forall h :: h in s.at && s.at[h].DialEnded? ==> Dials(s.at[h]);
  }

  lemma SpentStays(s: State, e: Event, c: Conn)
    requires Spent(s, c)
    ensures Spent(Next(s, e), c) && (c in Next(s, e).early <==> c in s.early)
  {
  }

  lemma {:induction false} EarlyIsFixed(es: seq<Event>, k: nat, c: Conn)
    requires PublishedAt(es, k, c)
    ensures Spent(Run(es), c) && (c in Run(es).early <==> c in Run(es[..k]).cleared)
  {
    var n := |es| - 1;
    if k == n {
      RunKeeps(es[..n]);
      SpentAtOnce(Run(es[..n]), es[n].g, c);
    } else {
      assert es[..n][..k] == es[..k];
      EarlyIsFixed(es[..n], k, c);
      SpentStays(Run(es[..n]), es[n], c);
    }
  }

  /** Then no step ever replaces it: every later caller is handed the dead connection. */
  lemma {:induction false} StaleForever(s: State, es: seq<Event>)
    requires Inv(s) && s.conn.Some? && s.conn.value in s.cleared
    ensures RunFrom(s, es).conn == s.conn && Inv(RunFrom(s, es)) && s.cleared <= RunFrom(s, es).cleared
  {
    if es != [] {
      var t, e := RunFrom(s, es[..|es| - 1]), es[|es| - 1];
      StaleForever(s, es[..|es| - 1]);
      if e.Enter? { EnterKeeps(t, e.g); }
      else if e.Publish? { PublishKeeps(t, e.g); }
      else { OtherKeeps(t, e); }
      assert forall g :: g in t.at ==> !Dials(t.at[g]);
    }
  }

  /** Such a state is reachable: the connection dies between the end of its dial and its publication. */
  lemma StaleIsReachable()
    ensures var s := Run([Call(0), Enter(0), DialReturns(0, true), Die(0), Clear(0), Publish(0)]);
            s.conn == Some(0) && 0 in s.cleared
  {
    var es := [Call(0), Enter(0), DialReturns(0, true), Die(0), Clear(0), Publish(0)];
    var s1 := Next(Init, es[0]);
    var s2 := Next(s1, es[1]);
    assert s2.at == map[0 := Dialling(1)];
    var s3 := Next(s2, es[2]);
    assert s3.at == map[0 := DialEnded(1, Some(0))];
    var s4 := Next(s3, es[3]);
    var s5 := Next(s4, es[4]);
    assert s5.cleared == {0};
    forall k | 0 <= k < 6 ensures es[..k + 1] == es[..k] + [es[k]] {}
    RunOnce(Init, es[..0], es[0]);
    RunOnce(Init, es[..1], es[1]);
    RunOnce(Init, es[..2], es[2]);
    RunOnce(Init, es[..3], es[3]);
    RunOnce(Init, es[..4], es[4]);
    RunOnce(Init, es[..5], es[5]);
    assert es[..6] == es;
  }

  lemma RunOnce(s: State, es: seq<Event>, e: Event)
    ensures RunFrom(s, es + [e]) == Next(RunFrom(s, es), e)
  {
    assert (es + [e])[..|es|] == es;
  }
}
