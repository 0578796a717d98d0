/** `BrokerConnection` as the object it is: the methods that change its tables in place, each proved to
    take the step of `ProxyLink` that the protocol proofs are about. */
module ProxyConn {
  import opened Frames
  import P = ProxyLink

  /** Every session's payloads are accounted for, in both directions, and no id is asked for twice. */
  ghost predicate Sound(s: P.State) {
    P.DistinctRequests(s.sent) && forall id :: P.Inv(s, id)
  }

  lemma SoundStep(s: P.State, e: P.Event)
    requires Sound(s) && forall id :: P.Fresh(s, e, id)
    ensures Sound(P.Next(s, e))
  {
    P.RequestsStayDistinct(s, e);
    forall id ensures P.Inv(P.Next(s, e), id) {
      assert P.Inv(s, id) && P.Fresh(s, e, id);
      P.StepKeeps(s, e, id);
    }
  }

  lemma SoundEnd(s: P.State, id: Id, sendOk: bool)
    requires Sound(s) && id in s.sess
    ensures Sound(P.EndHandler(s, id, s.sess[id], sendOk))
  {
    assert P.Inv(s, id);
    forall x ensures P.Inv(P.EndHandler(s, id, s.sess[id], sendOk), x) {
      assert P.Inv(s, x);
      if x == id { P.FinishedKeeps(s, id, s.sess[id], sendOk); } else { P.FinishedOther(s, id, s.sess[id], sendOk, x); }
    }
  }

  class BrokerConnection {
    var done: bool
    var table: set<Id>
    var sess: map<Id, P.Sess>
    var recv: seq<Wire>
    var sent: seq<Wire>

    ghost function Value(): P.State
      reads this
    {
      P.State(done, table, sess, recv, sent)
    }

    /** A listed session exists. */
    ghost predicate Listed()
      reads this
    {
      table <= sess.Keys
    }

    ghost predicate Valid()
      reads this
    {
      Sound(Value())
    }

    lemma ValidIsListed()
      requires Valid()
      ensures Listed()
    {
      forall id | id in table ensures id in sess { assert P.Inv(Value(), id); }
    }

    constructor ()
      ensures Valid() && Value() == P.Init
    {
      done, table, sess, recv, sent := false, {}, map[], [], [];
    }

    /** A closed connection refuses, unless the `select` still takes the queue. */
    method Send(m: Wire, sendOk: bool) returns (failed: bool)
      modifies this`sent
      ensures failed <==> done && !sendOk
      ensures Value() == P.Queue(old(Value()), m, sendOk)
    {
      failed := done && !sendOk;
      if !failed {
        sent := sent + [m];
      }
    }

    /** `openSession`. Session ids are random, so a used id does not come up again; the model ignores one. */
    method OpenSession(id: Id, route: string, target: Bytes, mode: string, sendOk: bool) returns (ok: bool)
      requires Valid()
      modifies this
      ensures Value() == P.Next(old(Value()), P.Open(id, route, target, mode, sendOk))
      ensures Payloads(old(recv), id) == [] ==> Valid()
      ensures ok ==> id in table
    {
      ValidIsListed();
      ok := TakeOpen(id, route, target, mode, sendOk);
      if Payloads(old(recv), id) == [] {
        SoundStep(old(Value()), P.Open(id, route, target, mode, sendOk));
      }
    }

    method TakeOpen(id: Id, route: string, target: Bytes, mode: string, sendOk: bool) returns (ok: bool)
      requires Listed()
      modifies this
      ensures Value() == P.Next(old(Value()), P.Open(id, route, target, mode, sendOk))
      ensures ok ==> id in table
    {
      var m := if mode == "" then "tcp" else mode;
      if (m != "tcp" && m != "udp") || id in sess || |id| != ID_LEN {
        return false;
      }
      var x := P.NewSession(target, m == "udp");
      table := table + {id};
      sess := sess[id := x];
      var failed := Send(Text(Request(id, route, target, m)), sendOk);
      if failed {
        table := table - {id};
        sess := sess[id := P.Fail(x)];
        assert table == old(table);
      }
      ok := !failed;
    }

    /** One turn of `readLoop`. */
    method HandleMessage(m: Wire)
      requires Valid()
      modifies this
      ensures Valid() && Value() == P.Next(old(Value()), P.Receive(m))
    {
      ValidIsListed();
      TakeMessage(m);
      SoundStep(old(Value()), P.Receive(m));
    }

    method TakeMessage(m: Wire)
      requires Listed()
      modifies this
      ensures Value() == P.Next(old(Value()), P.Receive(m))
    {
      recv := recv + [m];
      if !IsFrame(m) {
        return;
      }
      var id, cmd := IdOf(m), CmdOf(m);
      if id !in table {
        return;
      }
      var x := sess[id];
      if cmd == CMD_CONNECTED {
        if x.slot == P.Empty {
          sess := sess[id := x.(slot := P.Connected)];
        }
      } else if cmd == CMD_DATA || cmd == CMD_UDP_DATA {
        if |x.inward.queue| < P.DATA_QUEUE {
          sess := sess[id := x.(inward := x.inward.(queue := x.inward.queue + [PayloadOf(m)]))];
        } else {
          DropSession(id);
        }
      } else if cmd == CMD_CLOSE || cmd == CMD_ERROR {
        DropSession(id);
      }
    }

    method DropSession(id: Id)
      requires Listed() && id in sess
      modifies this`table, this`sess
      ensures Listed() && table == old(table) - {id} && Value() == P.Drop(old(Value()), id, old(sess)[id])
    {
      table := table - {id};
      sess := sess[id := P.Fail(sess[id])];
    }

    /** `close`: every session in the table is taken out of it and closed with the error. */
    method Close()
      requires Valid()
      modifies this
      ensures Valid() && Value() == P.Next(old(Value()), P.CloseConn)
    {
      ValidIsListed();
      TakeClose();
      SoundStep(old(Value()), P.CloseConn);
    }

    method TakeClose()
      requires Listed()
      modifies this
      ensures Value() == P.Next(old(Value()), P.CloseConn)
    {
      done := true;
      while table != {}
        invariant done && recv == old(recv) && sent == old(sent) && table <= old(table)
        invariant Listed() && sess.Keys == old(sess).Keys
        invariant forall id :: id in sess ==>
                    sess[id] == if id in old(table) - table then P.Fail(old(sess)[id]) else old(sess)[id]
        decreases table
      {
        var id :| id in table;
        DropSession(id);
      }
    }

    /** The deferred `closeBrokerSession` of a handler that returns. */
    method CloseBrokerSession(id: Id, sendOk: bool)
      requires Valid() && id in sess
      modifies this
      ensures Valid() && Value() == P.EndHandler(old(Value()), id, old(sess)[id], sendOk)
    {
      EndSession(id, sendOk);
      SoundEnd(old(Value()), id, sendOk);
    }

    method EndSession(id: Id, sendOk: bool)
      requires id in sess
      modifies this
      ensures Value() == P.EndHandler(old(Value()), id, old(sess)[id], sendOk)
    {
      var y := sess[id].(phase := P.Finished);
      sess := sess[id := y];
      if y.done {
        return;
      }
      var _ := Send(Binary(Packet(id, CMD_CLOSE, [])), sendOk);
      table := table - {id};
      sess := sess[id := y.(done := true)];
    }
  }
}
