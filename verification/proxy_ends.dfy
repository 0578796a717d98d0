/** How the sessions of a proxy connection begin and end: what a frame from the broker does to the session it is
    for, and how the broker learns that a handler is over. */
module ProxyEnds {
  import opened Frames
  import opened ProxyLink

  /** A data frame met a full queue: more was received than the session took and still holds. */
  predicate Overflowed(s: State, id: Id)
    requires id in s.sess
  {
    |s.sess[id].inward.taken| + |s.sess[id].inward.queue| < |Payloads(s.recv, id)|
  }

  /** The broker knows that the session is over: it was told, or it said so itself, or the connection is closed;
      only a session that was dropped because its queue was full ends without a word. */
  ghost predicate Announced(s: State, id: Id)
    requires id in s.sess
  {
    || Has(s.sent, id, CMD_CLOSE)
    || Has(s.recv, id, CMD_CLOSE) || Has(s.recv, id, CMD_ERROR)
    || s.done
    || Overflowed(s, id)
  }

  /** A session is closed if and only if it is not listed; a close or an error frame closes it, a confirmation
      reaches its slot, and an end is announced. */
  ghost predicate Settled(s: State, id: Id) {
    id in s.sess ==>
      var x := s.sess[id];
      && (id in s.table <==> !x.done)
      && (x.slot == Failed || x.phase == Finished ==> x.done)
      && (Has(s.recv, id, CMD_CLOSE) || Has(s.recv, id, CMD_ERROR) ==> x.done)
      && (Has(s.recv, id, CMD_CONNECTED) ==> x.slot == Connected || x.confirmed || x.done)
      && (x.done ==> Announced(s, id))
  }

  /** Nothing of a new id has been received. */
  ghost predicate Unheard(s: State, e: Event, id: Id) {
    e.Open? && e.id == id ==> !Mentions(s.recv, id)
  }

  lemma NothingHeard(recv: seq<Wire>, id: Id)
    requires !Mentions(recv, id)
    ensures forall cmd :: !Has(recv, id, cmd)
    ensures Payloads(recv, id) == []
  {
    PayloadsIffData(recv, id);
    assert forall m :: m in recv ==> !IsFor(m, id);
  }

  lemma OpenSettles(s: State, e: Event, id: Id)
    requires e.Open? && Inv(s, id) && Settled(s, id) && Unheard(s, e, id)
    ensures Settled(Next(s, e), id)
  {
    var t := Next(s, e);
    if e.id == id {
      if id !in s.sess { NothingHeard(s.recv, id); }
    } else {
      SentGrows(s, t, id);
    }
  }

  /** Of a session that stays as it is, nothing is forgotten. */
  lemma SentGrows(s: State, t: State, id: Id)
    requires Settled(s, id) && (id in t.sess <==> id in s.sess) && (id in s.sess ==> t.sess[id] == s.sess[id])
    requires (id in t.table <==> id in s.table) && t.recv == s.recv && s.sent <= t.sent && (s.done ==> t.done)
    ensures Settled(t, id)
  {
    if Has(s.sent, id, CMD_CLOSE) {
      var m :| m in s.sent && Carries(m, id, CMD_CLOSE);
      MemberOfPrefix(s.sent, t.sent, m);
    }
  }

  lemma ReceiveSettles(s: State, m: Wire, id: Id)
    requires Inv(s, id) && Settled(s, id) && id in s.sess
    ensures Settled(Next(s, Receive(m)), id)
  {
    AppendedTo(s.recv, m, id);
    if IsFor(m, id) {
      if id in s.table { ReceivesListed(s, m, id); }
    } else {
      ReceivesOther(s, m, id);
    }
  }

  lemma ReceivesOther(s: State, m: Wire, id: Id)
    requires id in s.sess && !IsFor(m, id)
    ensures var t := Next(s, Receive(m));
            && t.recv == s.recv + [m] && t.sent == s.sent && t.done == s.done && id in t.sess
            && t.sess[id] == s.sess[id] && (id in t.table <==> id in s.table)
  {
  }

  lemma ReceivesListed(s: State, m: Wire, id: Id)
    requires Inv(s, id) && Settled(s, id) && id in s.sess && id in s.table && IsFor(m, id)
    ensures Settled(Next(s, Receive(m)), id)
  {
    if IsData(m, id) { DataSettles(s, m, id); } else { ControlSettles(s, m, id); }
  }

  lemma DataSettles(s: State, m: Wire, id: Id)
    requires Inv(s, id) && Settled(s, id) && id in s.sess && id in s.table && IsData(m, id)
    ensures Settled(Next(s, Receive(m)), id)
  {
    AppendedTo(s.recv, m, id);
    var x, t := s.sess[id], Next(s, Receive(m));
    assert x.inward.taken + x.inward.queue == Payloads(s.recv, id);
    assert t.recv == s.recv + [m] && t.sent == s.sent;
    assert |x.inward.queue| >= DATA_QUEUE ==> t.sess[id] == Fail(x);
  }

  lemma ControlSettles(s: State, m: Wire, id: Id)
    requires Inv(s, id) && Settled(s, id) && id in s.sess && id in s.table && IsFor(m, id) && !IsData(m, id)
    ensures Settled(Next(s, Receive(m)), id)
  {
    var x, t := s.sess[id], Next(s, Receive(m));
    ControlActs(s, m, id);
    AppendedTo(s.recv, m, id);
    if x.done || t.sess[id].done { assert t.sess[id].done && Announced(t, id); }
  }

  /** What a frame of a listed session does, unless it is data. */
  lemma ControlActs(s: State, m: Wire, id: Id)
    requires id in s.sess && id in s.table && IsFor(m, id) && !IsData(m, id)
    ensures var x, t := s.sess[id], Next(s, Receive(m));
            && t.recv == s.recv + [m] && t.sent == s.sent && t.done == s.done && id in t.sess
            && t.sess[id] == (if CmdOf(m) == CMD_CLOSE || CmdOf(m) == CMD_ERROR then Fail(x)
                              else if CmdOf(m) == CMD_CONNECTED && x.slot == Empty then x.(slot := Connected)
                              else x)
            && (id in t.table <==> CmdOf(m) != CMD_CLOSE && CmdOf(m) != CMD_ERROR)
  {
  }

  lemma EndSettles(s: State, id: Id, x: Sess, sendOk: bool)
    requires id in s.sess && Settled(s, id) && x.done == s.sess[id].done && x.slot in {s.sess[id].slot, Empty}
    requires s.sess[id].confirmed ==> x.confirmed
    requires |x.inward.taken| + |x.inward.queue| == |s.sess[id].inward.taken| + |s.sess[id].inward.queue|
    requires |id| == ID_LEN
    ensures Settled(EndHandler(s, id, x, sendOk), id)
  {
    var close := Binary(Packet(id, CMD_CLOSE, []));
    PacketParses(id, CMD_CLOSE, []);
    AppendedTo(s.sent, close, id);
  }

  /** A step of the session's own goroutines that leaves it open: what it took it took from the queue. */
  lemma StepSettles(s: State, id: Id, x: Sess, t: State)
    requires id in s.sess && Settled(s, id) && t.sess == s.sess[id := x] && t.table == s.table
    requires t.recv == s.recv && s.sent <= t.sent && t.done == s.done
    requires x.done == s.sess[id].done && (x.phase == Finished ==> s.sess[id].phase == Finished)
    requires x.slot == s.sess[id].slot || (x.slot == Empty && x.confirmed)
    requires s.sess[id].confirmed ==> x.confirmed
    requires |x.inward.taken| + |x.inward.queue| == |s.sess[id].inward.taken| + |s.sess[id].inward.queue|
    ensures Settled(t, id)
  {
    if Has(s.sent, id, CMD_CLOSE) {
      var m :| m in s.sent && Carries(m, id, CMD_CLOSE);
      MemberOfPrefix(s.sent, t.sent, m);
    }
  }

  lemma ConfirmSettles(s: State, e: Event, id: Id)
    requires Inv(s, id) && Settled(s, id) && id in s.sess && e.Confirm? && e.id == id
    ensures Settled(Next(s, e), id)
  {
    var x := s.sess[id];
    if x.phase == Waiting && x.slot == Connected {
      var y := x.(slot := Empty, phase := Running, confirmed := true);
      if e.respOk {
        StepSettles(s, id, y.(outward := y.outward.(on := true)), Next(s, e));
      } else {
        EndSettles(s, id, y, e.sendOk);
      }
    }
  }

  lemma DeliverSettles(s: State, e: Event, id: Id)
    requires Inv(s, id) && Settled(s, id) && id in s.sess && e.Deliver? && e.id == id
    ensures Settled(Next(s, e), id)
  {
    var x := s.sess[id];
    if x.phase == Running && x.inward.queue != [] {
      var chunk := x.inward.queue[0];
      var k := if e.writeOk || e.n > |chunk| then |chunk| else e.n;
      var y := x.(inward := Inward(x.inward.queue[1..], x.inward.taken + [chunk], x.inward.written + chunk[..k]));
      if e.writeOk { StepSettles(s, id, y, Next(s, e)); } else { EndSettles(s, id, y, e.sendOk); }
    }
  }

  lemma OwnSettles(s: State, e: Event, id: Id)
    requires Inv(s, id) && Settled(s, id) && id in s.sess
    requires !e.Open? && !e.Receive? && !e.CloseConn? && e.id == id
    ensures Settled(Next(s, e), id)
  {
    var x, t := s.sess[id], Next(s, e);
    match e
    case Confirm(_, _, _) => ConfirmSettles(s, e, id);
    case NotConnected(_, sendOk) => EndSettles(s, id, x, sendOk);
    case Finish(_, sendOk) => EndSettles(s, id, x, sendOk);
    case ClientRead(_, _, _) => if t != s { StepSettles(s, id, t.sess[id], t); }
    case Deliver(_, _, _, _) => DeliverSettles(s, e, id);
    case ClientEnd(_) => StepSettles(s, id, t.sess[id], t);
  }

  /** A step of another session, or of the client that it serves. */
  lemma OtherSettles(s: State, e: Event, id: Id)
    requires Settled(s, id) && !e.Open? && !e.Receive? && !e.CloseConn? && e.id != id
    ensures Settled(Next(s, e), id)
  {
    SentGrows(s, Next(s, e), id);
  }

  lemma CloseSettles(s: State, id: Id)
    requires Inv(s, id) && Settled(s, id)
    ensures Settled(Next(s, CloseConn), id)
  {
  }

  /** Every event of the connection keeps every session settled. */
  lemma EventSettles(s: State, e: Event, id: Id)
    requires Inv(s, id) && Settled(s, id) && Unheard(s, e, id)
    ensures Settled(Next(s, e), id)
  {
    if e.Open? {
      OpenSettles(s, e, id);
    } else if e.Receive? {
      if id in s.sess { ReceiveSettles(s, e.m, id); }
    } else if e.CloseConn? {
      CloseSettles(s, id);
    } else if e.id != id {
      OtherSettles(s, e, id);
    } else if id in s.sess {
      OwnSettles(s, e, id);
    }
  }

  // ---- a session that is dropped because its queue is full -----------------------------------------

  /** From `s` to `t` a closed session stays closed, and a close of the session is sent only as it is closed. */
  ghost predicate SaysOnlyAtEnd(s: State, t: State, id: Id)
    requires id in s.sess
  {
    && id in t.sess && (s.sess[id].done ==> t.sess[id].done)
    && (Has(t.sent, id, CMD_CLOSE) ==> Has(s.sent, id, CMD_CLOSE) || (!s.sess[id].done && t.sess[id].done))
  }

  lemma EndSays(s: State, x: Id, y: Sess, sendOk: bool, id: Id)
    requires id in s.sess && x in s.sess && |x| == ID_LEN && y.done == s.sess[x].done
    ensures SaysOnlyAtEnd(s, EndHandler(s, x, y, sendOk), id)
  {
    PacketParses(x, CMD_CLOSE, []);
    AppendedTo(s.sent, Binary(Packet(x, CMD_CLOSE, [])), id);
  }

  lemma ClientReadSays(s: State, e: Event, id: Id)
    requires id in s.sess && e.ClientRead? && e.id in s.sess && |e.id| == ID_LEN
    ensures SaysOnlyAtEnd(s, Next(s, e), id)
  {
    var cmd := if s.sess[e.id].udp then CMD_UDP_DATA else CMD_DATA;
    PacketParses(e.id, cmd, e.data);
    AppendedTo(s.sent, Binary(Packet(e.id, cmd, e.data)), id);
  }

  lemma DeliverSays(s: State, e: Event, id: Id)
    requires id in s.sess && e.Deliver? && e.id in s.sess && |e.id| == ID_LEN
    ensures SaysOnlyAtEnd(s, Next(s, e), id)
  {
    var x := s.sess[e.id];
    if x.phase == Running && x.inward.queue != [] {
      var chunk := x.inward.queue[0];
      var k := if e.writeOk || e.n > |chunk| then |chunk| else e.n;
      var y := x.(inward := Inward(x.inward.queue[1..], x.inward.taken + [chunk], x.inward.written + chunk[..k]));
      EndSays(s, e.id, y, e.sendOk, id);
    }
  }

  lemma StepSays(s: State, e: Event, id: Id)
    requires id in s.sess && !e.Open? && !e.Receive? && !e.CloseConn? && e.id in s.sess && |e.id| == ID_LEN
    ensures SaysOnlyAtEnd(s, Next(s, e), id)
  {
    var x := s.sess[e.id];
    match e
    case Confirm(_, _, sendOk) => EndSays(s, e.id, x.(slot := Empty, phase := Running, confirmed := true), sendOk, id);
    case NotConnected(_, sendOk) => EndSays(s, e.id, x, sendOk, id);
    case Finish(_, sendOk) => EndSays(s, e.id, x, sendOk, id);
    case ClientRead(_, _, _) => ClientReadSays(s, e, id);
    case Deliver(_, _, _, _) => DeliverSays(s, e, id);
    case ClientEnd(_) =>
  }

  lemma OpenSays(s: State, e: Event, id: Id)
    requires id in s.sess && e.Open?
    ensures SaysOnlyAtEnd(s, Next(s, e), id)
  {
    var mode := if e.mode == "" then "tcp" else e.mode;
    AppendedTo(s.sent, Text(Request(e.id, e.route, e.target, mode)), id);
  }

  lemma EventSays(s: State, e: Event, id: Id)
    requires Inv(s, id) && id in s.sess && (!e.Open? && !e.Receive? && !e.CloseConn? ==> Inv(s, e.id))
    ensures SaysOnlyAtEnd(s, Next(s, e), id)
  {
    if e.Open? {
      OpenSays(s, e, id);
    } else if !e.Receive? && !e.CloseConn? && e.id in s.sess {
      StepSays(s, e, id);
    }
  }

  /** A close has been sent only of a session that is closed. */
  ghost predicate SentIfDone(s: State, id: Id) {
    id in s.sess && Has(s.sent, id, CMD_CLOSE) ==> s.sess[id].done
  }

  lemma OpensUnsaid(s: State, e: Event, id: Id)
    requires Inv(s, id) && id !in s.sess
    ensures SentIfDone(Next(s, e), id)
  {
    if e.Open? {
      var mode := if e.mode == "" then "tcp" else e.mode;
      AppendedTo(s.sent, Text(Request(e.id, e.route, e.target, mode)), id);
    }
  }

  /** A data frame that meets the full queue of a session closes it without a word. */
  lemma OverflowCloses(s: State, m: Wire, id: Id)
    requires Inv(s, id) && id in s.table && IsData(m, id) && |s.sess[id].inward.queue| >= DATA_QUEUE
    ensures var t := Next(s, Receive(m)); id in t.sess && t.sess[id].done && t.sent == s.sent
  {
  }
}
