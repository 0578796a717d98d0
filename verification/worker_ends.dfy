/** How the sessions of a worker link begin and end: what a close from the broker does, what is released before
    the broker is told that a session is over, and how UDP datagrams stay whole. */
module WorkerEnds {
  import opened Frames
  import opened WorkerLink

  /** The session has begun to close, or its dial failed. */
  predicate IsEnding(s: State, id: Id) {
    id in s.sess && (s.sess[id].life.closed || s.sess[id].life.phase == WorkerLink.Failed)
  }

  /** A close from the broker, handled by a link whose reader is free, ends the session if and only if the session
      has been stored by then; one that is still listed has its `done` closed. */
  lemma CloseTakesEffectIff(s: State, m: Wire, choice: Choice, id: Id)
    requires Inv(s, id) && Carries(m, id, CMD_CLOSE) && !IsBusy(s)
    ensures IsEnding(Next(s, Receive(m, choice)), id) <==> id in s.sess
    ensures id in s.sess && s.sess[id].life.listed ==> Next(s, Receive(m, choice)).sess[id].life.closed
  {
  }

  /** A session that has begun to end does not begin again. */
  lemma EndingStays(s: State, e: Event, id: Id)
    requires IsEnding(s, id)
    ensures IsEnding(Next(s, e), id)
  {
    if e.Receive? {
      if IsFrame(e.m) && !IsBusy(s) { EnqueueEnding(s.(recv := s.recv + [e.m], busy := []), e.m, e.choice, id); }
    } else if !e.Store? && !e.CloseLink? && e.id in s.sess {
      StepEnding(s, e, e.id, id);
    }
  }

  lemma EndingLife(l: Life, e: Event)
    ensures l.closed ==> LifeStep(l, e).closed
    ensures l.phase == Failed ==> LifeStep(l, e).phase == Failed
  {
  }

  lemma StepEnding(s: State, e: Event, x: Id, id: Id)
    requires IsEnding(s, id) && x in s.sess
    ensures IsEnding(SessionStep(s, e, x), id)
  {
    EndingLife(s.sess[x].life, e);
  }

  lemma EnqueueEnding(s: State, m: Wire, choice: Choice, id: Id)
    requires IsEnding(s, id) && IsFrame(m)
    ensures IsEnding(ReceiveFrame(s, m, choice), id)
  {
  }

  /** Whatever is said of the session's end, its dialled connection has been closed and released by then; and every
      connect frame that was handled has its open under way or its session stored. */
  ghost predicate Released(s: State, id: Id) {
    && (Has(s.sent, id, CMD_CLOSE) && id in s.sess ==>
          !s.sess[id].life.listed && !s.sess[id].life.conn && !s.sess[id].life.sock)
    && (forall m :: m in s.recv && IsConnect(m, id) ==>
          id in s.sess || (id, PayloadOf(m), CmdOf(m) == CMD_UDP_CONNECT) in s.opens)
  }

  lemma UnlistedStays(l: Life, e: Event)
    requires LifeOk(l)
    ensures !l.listed ==> !LifeStep(l, e).listed && !LifeStep(l, e).conn && !LifeStep(l, e).sock
  {
  }

  /** A close is put on the queue only for a session that is not listed any more. */
  lemma CloseMeansUnlisted(x: Sess, e: Event, done: bool, canSend: bool)
    requires LifeOk(x.life)
    ensures var (y, out) := Act(x, e, done, canSend);
            && (out.Emit? && out.cmd == CMD_CLOSE ==> !y.life.listed && !y.life.conn && !y.life.sock)
            && (!x.life.listed ==> !y.life.listed && !y.life.conn && !y.life.sock)
  {
    UnlistedStays(x.life, e);
  }

  lemma StepReleases(s: State, e: Event, id: Id)
    requires Inv(s, id) && Released(s, id) && id in s.sess
    ensures Released(SessionStep(s, e, id), id)
  {
    var (y, out) := Act(s.sess[id], e, s.done, CanSend(s, e, id));
    CloseMeansUnlisted(s.sess[id], e, s.done, CanSend(s, e, id));
    EmitNeedsSend(s.sess[id], e, s.done, CanSend(s, e, id));
    if out.Emit? {
      PacketParses(id, out.cmd, out.data);
      AppendedTo(s.sent, Binary(Packet(id, out.cmd, out.data)), id);
    }
  }

  lemma OtherReleases(s: State, e: Event, x: Id, id: Id)
    requires Released(s, id) && x != id && x in s.sess
    ensures Released(SessionStep(s, e, x), id)
  {
    var (y, out) := Act(s.sess[x], e, s.done, CanSend(s, e, x));
    EmitNeedsSend(s.sess[x], e, s.done, CanSend(s, e, x));
    if out.Emit? {
      PacketParses(x, out.cmd, out.data);
      AppendedTo(s.sent, Binary(Packet(x, out.cmd, out.data)), id);
    }
  }

  lemma ReceiveReleases(s: State, m: Wire, choice: Choice, id: Id)
    requires Released(s, id) && !IsBusy(s)
    ensures Released(Next(s, Receive(m, choice)), id)
  {
    var t := Next(s, Receive(m, choice));
    assert t.recv == s.recv + [m] && t.sent == s.sent && s.opens <= t.opens && s.sess.Keys <= t.sess.Keys;
    assert id in s.sess ==> t.sess[id].life == s.sess[id].life || t.sess[id].life == s.sess[id].life.(closed := true);
  }

  /** Every event of the link keeps this of every session. */
  lemma EventReleases(s: State, e: Event, id: Id)
    requires Inv(s, id) && Released(s, id)
    ensures Released(Next(s, e), id)
  {
    if e.Receive? {
      if !IsBusy(s) { ReceiveReleases(s, e.m, e.choice, id); }
    } else if !e.Store? && !e.CloseLink? && e.id in s.sess {
      if e.id == id { StepReleases(s, e, id); } else { OtherReleases(s, e, e.id, id); }
    }
  }

  /** A failed dial is reported with a close, if the send is taken. */
  lemma FailedDialIsQueued(s: State, id: Id)
    requires id in s.sess && s.sess[id].life.phase == Dialing && |id| == ID_LEN
    ensures Has(Next(s, DialFail(id, true)).sent, id, CMD_CLOSE)
  {
    PacketParses(id, CMD_CLOSE, []);
    var close := Binary(Packet(id, CMD_CLOSE, []));
    assert Act(s.sess[id], DialFail(id, true), s.done, true).1 == Emit(CMD_CLOSE, []);
    AppendedTo(s.sent, close, id);
  }

  // ---- a session whose goroutines have stopped ----------------------------------------------------

  /** A session closes when its reader stops, when its writer stops (unless the link is closing), when its queue
      overflows and when its confirmation cannot be sent. */
  ghost predicate StoppedIsClosing(s: State, id: Id) {
    id in s.sess ==>
      var x := s.sess[id];
      && (x.life.hadConn && !x.outward.on ==> x.life.closed)
      && (x.life.hadConn && !x.inward.on ==> x.life.closed || s.done)
      && (x.inward.cut ==> x.life.closed)
      && (x.outward.announced ==> x.life.closed || Has(s.sent, id, CMD_CONNECTED))
  }

  /** One step of the session's goroutines, as far as `StoppedIsClosing` looks at it. */
  lemma ActStops(x: Sess, e: Event, done: bool, canSend: bool)
    requires LifeOk(x.life)
    ensures var (y, out) := Act(x, e, done, canSend);
            && (x.life.closed ==> y.life.closed) && y.inward.cut == x.inward.cut
            && (y.life.hadConn && !y.outward.on ==> (x.life.hadConn && !x.outward.on) || y.life.closed)
            && (y.life.hadConn && !y.inward.on ==> (x.life.hadConn && !x.inward.on) || y.life.closed || done)
            && (y.outward.announced ==> x.outward.announced || y.life.closed || out == Emit(CMD_CONNECTED, []))
  {
    ActRest(x, e, done, canSend);
    LifeKeeps(x.life, e);
  }

  lemma OwnStops(s: State, e: Event, id: Id)
    requires Inv(s, id) && id in s.sess && StoppedIsClosing(s, id)
    ensures StoppedIsClosing(SessionStep(s, e, id), id)
  {
    var (y, out) := Act(s.sess[id], e, s.done, CanSend(s, e, id));
    ActStops(s.sess[id], e, s.done, CanSend(s, e, id));
    EmitNeedsSend(s.sess[id], e, s.done, CanSend(s, e, id));
    if out.Emit? {
      PacketParses(id, out.cmd, out.data);
      AppendedTo(s.sent, Binary(Packet(id, out.cmd, out.data)), id);
    }
  }

  lemma OtherStops(s: State, e: Event, x: Id, id: Id)
    requires StoppedIsClosing(s, id) && x != id && x in s.sess
    ensures StoppedIsClosing(SessionStep(s, e, x), id)
  {
    var (y, out) := Act(s.sess[x], e, s.done, CanSend(s, e, x));
    EmitNeedsSend(s.sess[x], e, s.done, CanSend(s, e, x));
    if out.Emit? { PacketSeen(s.sent, x, out.cmd, out.data, id); }
  }

  lemma ReceiveStops(s: State, m: Wire, choice: Choice, id: Id)
    requires Inv(s, id) && StoppedIsClosing(s, id) && id in s.sess && !IsBusy(s)
    ensures StoppedIsClosing(Next(s, Receive(m, choice)), id)
  {
    var x, t := s.sess[id], Next(s, Receive(m, choice));
    assert t.sent == s.sent && t.done == s.done;
    ReceiveLeaves(s, m, choice, id);
    if IsData(m, id) { DataEffect(s, m, choice, id); } else { NoDataEffect(s, m, choice, id); }
  }

  lemma EventStops(s: State, e: Event, id: Id)
    requires Inv(s, id) && StoppedIsClosing(s, id)
    ensures StoppedIsClosing(Next(s, e), id)
  {
    if e.Receive? {
      if !IsBusy(s) && id in s.sess { ReceiveStops(s, e.m, e.choice, id); }
    } else if !e.Store? && !e.CloseLink? && e.id in s.sess {
      if e.id == id { OwnStops(s, e, id); } else { OtherStops(s, e, e.id, id); }
    }
  }

  /** The steps that complete a close: the connection is released, its socket closed, the session unlisted and the
      broker told. */
  function Closing(id: Id): seq<Event> {
    [ReleaseConn(id), CloseSocket(id), Unlist(id), SendClose(id, true)]
  }

  lemma CloseCompletes(s: State, id: Id)
    requires id in s.sess && s.sess[id].life.closed && LifeOk(s.sess[id].life) && |id| == ID_LEN
    ensures var t := Next(Next(Next(Next(s, Closing(id)[0]), Closing(id)[1]), Closing(id)[2]), Closing(id)[3]);
            && id in t.sess && !t.sess[id].life.listed && !t.sess[id].life.conn && !t.sess[id].life.sock
            && Has(t.sent, id, CMD_CLOSE)
  {
    var s1 := Next(s, ReleaseConn(id));
    var s2 := Next(s1, CloseSocket(id));
    LifeMoves(s, ReleaseConn(id), id);
    LifeMoves(s1, CloseSocket(id), id);
    LifeMoves(s2, Unlist(id), id);
    CloseIsSent(Next(s2, Unlist(id)), id);
  }

  lemma LifeMoves(s: State, e: Event, id: Id)
    requires id in s.sess && e in {ReleaseConn(id), CloseSocket(id), Unlist(id)}
    ensures id in Next(s, e).sess && Next(s, e).sess[id].life == LifeStep(s.sess[id].life, e)
  {
  }

  lemma CloseIsSent(s: State, id: Id)
    requires id in s.sess && !s.sess[id].life.listed && |id| == ID_LEN
    ensures var t := Next(s, SendClose(id, true));
            id in t.sess && t.sess[id].life == s.sess[id].life && Has(t.sent, id, CMD_CLOSE)
  {
    PacketParses(id, CMD_CLOSE, []);
    assert Act(s.sess[id], SendClose(id, true), s.done, true).1 == Emit(CMD_CLOSE, []);
    AppendedTo(s.sent, Binary(Packet(id, CMD_CLOSE, [])), id);
  }

  // ---- datagrams --------------------------------------------------------------------------------

  /** The datagrams of a UDP session: each data frame queued is one datagram read, whole and in order; one more may
      still be pending, and none is lost while the reader runs. */
  ghost predicate Whole(queued: seq<Bytes>, hadConn: bool, o: Outward, datagrams: seq<Bytes>) {
    && queued <= datagrams
    && (o.on ==> queued + (if o.pending == [] then [] else [o.pending]) == datagrams)
    && (!hadConn ==> datagrams == [] && !o.on && o.pending == [] && queued == [])
  }

  /** The datagram that a step reads from the target, if it reads one. */
  function ReadBy(x: Sess, e: Event): seq<Bytes> {
    if e.TargetRead? && x.outward.on && x.life.sock && x.outward.pending == [] && e.data != []
       && |e.data| <= READ_BUFFER then [e.data] else []
  }

  lemma ActStaysWhole(queued: seq<Bytes>, x: Sess, e: Event, done: bool, canSend: bool, datagrams: seq<Bytes>)
    requires x.udp && LifeOk(x.life) && Whole(queued, x.life.hadConn, x.outward, datagrams)
    ensures var (y, out) := Act(x, e, done, canSend);
            Whole(QueuedBy(queued, out), y.life.hadConn, y.outward, datagrams + ReadBy(x, e))
  {
    if IsLifeEvent(e) {
      assert QueuedBy(queued, Act(x, e, done, canSend).1) == queued;
    } else {
      FlowEffect(x, e, done, canSend);
      ReaderStaysWhole(queued, x, e, canSend, datagrams);
    }
  }

  lemma ReaderStaysWhole(queued: seq<Bytes>, x: Sess, e: Event, canSend: bool, datagrams: seq<Bytes>)
    requires x.udp && LifeOk(x.life) && Whole(queued, x.life.hadConn, x.outward, datagrams) && !IsLifeEvent(e)
    ensures var (o, out, _) := ReaderStep(x.outward, x.life, x.udp, e, canSend);
            Whole(QueuedBy(queued, out), x.life.hadConn, o, datagrams + ReadBy(x, e))
  {
    var o := x.outward;
    if e.SendFragment? && o.on && o.pending != [] && canSend {
      assert o.pending[..|o.pending|] == o.pending && o.pending[|o.pending|..] == [];
    } else if e.TargetRead? && o.on && o.pending == [] {
      assert queued + [] == queued;
    }
  }

  /** What the target of the session has sent so far. */
  function FromTarget(s: State, id: Id): Bytes {
    if id in s.sess then s.sess[id].outward.fromTarget else []
  }

  /** What was read in a step: the bytes by which that grew, as one piece. */
  function Grown(before: Bytes, after: Bytes): seq<Bytes> {
    if |before| >= |after| then [] else [after[|before|..]]
  }

  lemma ReadIsGrowth(x: Sess, e: Event, done: bool, canSend: bool)
    ensures var after := Act(x, e, done, canSend).0.outward.fromTarget;
            x.outward.fromTarget <= after && Grown(x.outward.fromTarget, after) == ReadBy(x, e)
  {
  }

  ghost predicate WholeIn(s: State, id: Id, datagrams: seq<Bytes>) {
    && (id !in s.sess ==> datagrams == [])
    && (id in s.sess ==> !s.sess[id].life.hadConn ==> datagrams == [])
    && (id in s.sess && s.sess[id].udp ==>
          Whole(Payloads(s.sent, id), s.sess[id].life.hadConn, s.sess[id].outward, datagrams))
  }

  lemma OwnStaysWhole(s: State, e: Event, id: Id, datagrams: seq<Bytes>)
    requires Inv(s, id) && id in s.sess && WholeIn(s, id, datagrams)
    ensures var t := SessionStep(s, e, id);
            && id in t.sess && FromTarget(s, id) <= FromTarget(t, id)
            && WholeIn(t, id, datagrams + Grown(FromTarget(s, id), FromTarget(t, id)))
  {
    var x, can := s.sess[id], CanSend(s, e, id);
    var (y, out) := Act(x, e, s.done, can);
    ReadIsGrowth(x, e, s.done, can);
    EmitNeedsSend(x, e, s.done, can);
    SentAfter(s, id, y, out);
    ActRest(x, e, s.done, can);
    NoReadBefore(x, e);
    if x.udp { ActStaysWhole(Payloads(s.sent, id), x, e, s.done, can, datagrams); }
  }

  /** Nothing is read before the connection is stored. */
  lemma NoReadBefore(x: Sess, e: Event)
    requires LifeOk(x.life)
    ensures !LifeStep(x.life, e).hadConn ==> ReadBy(x, e) == []
  {
  }

  lemma OthersStayWhole(s: State, e: Event, x: Id, id: Id, datagrams: seq<Bytes>)
    requires x != id && x in s.sess && WholeIn(s, id, datagrams)
    ensures WholeIn(SessionStep(s, e, x), id, datagrams) && FromTarget(SessionStep(s, e, x), id) == FromTarget(s, id)
  {
    var (y, out) := Act(s.sess[x], e, s.done, CanSend(s, e, x));
    EmitNeedsSend(s.sess[x], e, s.done, CanSend(s, e, x));
    if out.Emit? { PacketSeen(s.sent, x, out.cmd, out.data, id); }
  }

  lemma ReceiveStaysWhole(s: State, m: Wire, choice: Choice, id: Id, datagrams: seq<Bytes>)
    requires WholeIn(s, id, datagrams)
    ensures var t := Next(s, Receive(m, choice)); WholeIn(t, id, datagrams) && FromTarget(t, id) == FromTarget(s, id)
  {
    if !IsBusy(s) {
      var t := Next(s, Receive(m, choice));
      assert t.sent == s.sent && (id in t.sess <==> id in s.sess);
      if id in s.sess { ReceiveLeaves(s, m, choice, id); }
    }
  }

  lemma ReceiveLeaves(s: State, m: Wire, choice: Choice, id: Id)
    requires id in s.sess && !IsBusy(s)
    ensures var x, y := s.sess[id], Next(s, Receive(m, choice)).sess[id];
            y.outward == x.outward && y.udp == x.udp && y.life.hadConn == x.life.hadConn
  {
  }

  /** Every event of the link keeps the datagrams of every UDP session whole. */
  lemma EventStaysWhole(s: State, e: Event, id: Id, datagrams: seq<Bytes>)
    requires Inv(s, id) && WholeIn(s, id, datagrams)
    ensures var t := Next(s, e);
            WholeIn(t, id, datagrams + Grown(FromTarget(s, id), FromTarget(t, id)))
  {
    if e.Receive? {
      ReceiveStaysWhole(s, e.m, e.choice, id, datagrams);
    } else if e.Store? {
      PayloadsIffData(s.sent, id);
    } else if !e.CloseLink? && e.id in s.sess {
      if e.id == id { OwnStaysWhole(s, e, id, datagrams); } else { OthersStayWhole(s, e, e.id, id, datagrams); }
    }
    assert datagrams + [] == datagrams;
  }
}
