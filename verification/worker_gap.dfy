/** When the bytes written to a target are not a prefix of the bytes received for it.
    `enqueueSessionWrite` chooses at random between a closed `done` and a queue with room, so a frame
    can be turned away and the next one queued, and `sessionWriter` makes the same random choice. */
module WorkerGap {
  import opened Frames
  import opened WorkerLink

  /** The session is connected, its frame reader is free and its connection can still be written. */
  predicate Writable(s: State, id: Id) {
    && id in s.sess && !IsBusy(s)
    && s.sess[id].life.listed && s.sess[id].life.conn
    && !s.sess[id].inward.refused && !s.sess[id].inward.cut
  }

  /** The link or the session has begun to close. */
  predicate Closing(s: State, id: Id)
    requires id in s.sess
  {
    s.done || s.sess[id].life.closed
  }

  /** The writer waits for the next chunk and none is queued. */
  predicate Idle(s: State, id: Id)
    requires id in s.sess
  {
    s.sess[id].inward.on && s.sess[id].inward.queue == [] && s.sess[id].inward.writing == []
  }

  /** A data frame for a writable session can be turned away exactly when `done` of the link or of the
      session is closed. */
  lemma RefusedIffClosing(s: State, m: Wire, id: Id)
    requires Inv(s, id) && Writable(s, id) && IsData(m, id)
    ensures (exists choice :: Next(s, Receive(m, choice)).sess[id].inward.refused) <==> Closing(s, id)
  {
    if s.done {
      assert Next(s, Receive(m, TakeDone)).sess[id].inward.refused;
    } else if s.sess[id].life.closed {
      assert Next(s, Receive(m, TakeSessionDone)).sess[id].inward.refused;
    }
  }

  /** The choice that turns a frame away. */
  function Turning(s: State): Choice {
    if s.done then TakeDone else TakeSessionDone
  }

  /** The first frame is turned away, the second queued, taken and its first byte written. */
  function WithGap(s: State, a: Wire, b: Wire, id: Id): State {
    FirstByteWritten(SecondQueued(s, a, b), id)
  }

  function SecondQueued(s: State, a: Wire, b: Wire): State {
    Next(Next(s, Receive(a, Turning(s))), Receive(b, TakeQueue))
  }

  function FirstByteWritten(s: State, id: Id): State {
    Next(Next(s, WriterTake(id)), WriterWrite(id, 1))
  }

  /** The target holds fewer bytes than were received for it, and no prefix of them. */
  ghost predicate IsGapped(s: State, id: Id) {
    && id in s.sess && !(s.sess[id].inward.toTarget <= Flatten(Payloads(s.recv, id)))
    && |s.sess[id].inward.toTarget| <= |Flatten(Payloads(s.recv, id))|
  }

  /** From any closing state, the first of two frames can be lost and the second written: the target then
      holds bytes that are no prefix of what was received, though fewer. */
  lemma GapFollows(s: State, a: Wire, b: Wire, id: Id)
    requires Inv(s, id) && Writable(s, id) && Closing(s, id) && Idle(s, id) && IsData(a, id) && IsData(b, id)
    requires PayloadOf(a) != [] && PayloadOf(b) != [] && PayloadOf(a)[0] != PayloadOf(b)[0]
    ensures IsGapped(WithGap(s, a, b, id), id)
  {
    var x := s.sess[id];
    OnlySecondIsQueued(s, a, b, id);
    TakenAndWritten(SecondQueued(s, a, b), id, PayloadOf(b));
    GapInBytes(s.recv, a, b, x.inward, x.life, id);
  }

  lemma OnlySecondIsQueued(s: State, a: Wire, b: Wire, id: Id)
    requires Writable(s, id) && Closing(s, id) && Idle(s, id) && IsData(a, id) && IsData(b, id)
    ensures var t := SecondQueued(s, a, b);
            && id in t.sess && t.recv == s.recv + [a] + [b]
            && t.sess[id].life == s.sess[id].life && t.sess[id].inward.queue == [PayloadOf(b)]
            && t.sess[id].inward.on && t.sess[id].inward.writing == []
            && t.sess[id].inward.toTarget == s.sess[id].inward.toTarget
  {
    FirstIsRefused(s, a, id);
    SecondIsQueued(Next(s, Receive(a, Turning(s))), b, id);
  }

  lemma FirstIsRefused(s: State, m: Wire, id: Id)
    requires IsData(m, id) && Writable(s, id) && Closing(s, id)
    ensures var t := Next(s, Receive(m, Turning(s)));
            && id in t.sess && !IsBusy(t) && t.recv == s.recv + [m]
            && t.sess[id].life == s.sess[id].life && t.sess[id].inward.queue == s.sess[id].inward.queue
            && t.sess[id].inward.on == s.sess[id].inward.on && t.sess[id].inward.writing == s.sess[id].inward.writing
            && t.sess[id].inward.toTarget == s.sess[id].inward.toTarget
  {
  }

  lemma SecondIsQueued(s: State, m: Wire, id: Id)
    requires IsData(m, id) && id in s.sess && !IsBusy(s) && s.sess[id].life.listed && s.sess[id].inward.queue == []
    ensures var t := Next(s, Receive(m, TakeQueue));
            && id in t.sess && t.sess[id].life == s.sess[id].life && t.sess[id].inward.queue == [PayloadOf(m)]
            && t.sess[id].inward.on == s.sess[id].inward.on && t.sess[id].inward.writing == s.sess[id].inward.writing
            && t.sess[id].inward.toTarget == s.sess[id].inward.toTarget && t.recv == s.recv + [m]
  {
  }

  lemma TakenAndWritten(s: State, id: Id, b: Bytes)
    requires id in s.sess && s.sess[id].life.conn && s.sess[id].life.sock && b != []
    requires s.sess[id].inward.on && s.sess[id].inward.queue == [b] && s.sess[id].inward.writing == []
    ensures var t := FirstByteWritten(s, id);
            && id in t.sess && t.recv == s.recv
            && t.sess[id].inward.toTarget == s.sess[id].inward.toTarget + b[..1]
  {
    var t := Next(s, WriterTake(id));
    assert t.sess[id].inward.writing == b && t.sess[id].inward.on && t.sess[id].life.sock;
  }

  lemma GapInBytes(recv: seq<Wire>, a: Wire, b: Wire, i: Inward, l: Life, id: Id)
    requires IsData(a, id) && IsData(b, id) && PayloadOf(a) != [] && PayloadOf(b) != []
    requires PayloadOf(a)[0] != PayloadOf(b)[0]
    requires InwardOk(Flatten(Payloads(recv, id)), |Payloads(recv, id)|, l, i)
    requires !i.refused && !i.cut && !l.over && i.queue == [] && i.writing == []
    ensures var received := Flatten(Payloads(recv + [a] + [b], id));
            && |i.toTarget + PayloadOf(b)[..1]| <= |received|
            && !(i.toTarget + PayloadOf(b)[..1] <= received)
  {
    AppendedTo(recv, a, id);
    AppendedTo(recv + [a], b, id);
    assert Flatten([]) == [];
    assert i.toTarget + i.writing + Flatten(i.queue) == i.toTarget;
    var n := |i.toTarget|;
    assert Flatten(Payloads(recv + [a] + [b], id))[n] == PayloadOf(a)[0];
    assert (i.toTarget + PayloadOf(b)[..1])[n] == PayloadOf(b)[0];
  }
}
