/** The worker's tables as the objects they are: the frame switch of `handleBrokerConnection`,
    `enqueueSessionWrite` and the steps of `openTCP` and `closeSession` that change a session in place,
    each proved to take the step of `WorkerLink` that the protocol proofs are about. */
module WorkerConn {
  import opened Frames
  import W = WorkerLink

  class Link {
    var done: bool
    var busy: Id
    var opens: set<(Id, Bytes, bool)>
    var sess: map<Id, W.Sess>
    var recv: seq<Wire>
    var sent: seq<Wire>

    ghost function Value(): W.State
      reads this
    {
      W.State(done, busy, opens, sess, recv, sent)
    }

    /** Every session's bytes are accounted for, in both directions. */
    ghost predicate Valid()
      reads this
    {
      forall id :: W.Inv(Value(), id)
    }

    constructor ()
      ensures Value() == W.Init && Valid()
    {
      done, busy, opens, sess, recv, sent := false, [], {}, map[], [], [];
    }

    method EnqueueSessionWrite(id: Id, data: Bytes, choice: W.Choice) returns (closes: bool)
      requires id in sess
      modifies this`sess
      ensures sess == old(sess)[id := W.Enqueue(old(sess)[id], done, data, choice)]
      ensures closes <==> W.Overflows(old(sess)[id], done)
    {
      closes := false;
      var x := sess[id];
      if (choice == W.TakeDone && done) || (choice == W.TakeSessionDone && x.life.closed) {
        Refuse(id);
      } else if |x.inward.queue| < W.SESSION_WRITE_QUEUE {
        var queue := x.inward.queue + [data];
        sess := sess[id := x.(inward := x.inward.(queue := queue, accepted := x.inward.accepted + 1))];
      } else if done || x.life.closed {
        Refuse(id);
      } else {
        sess := sess[id := W.Close(x.(inward := x.inward.(cut := true)))];
        closes := true;
      }
    }

    method Refuse(id: Id)
      requires id in sess
      modifies this`sess
      ensures sess == old(sess)[id := W.Refuse(old(sess)[id])]
    {
      if !sess[id].life.over {
        sess := sess[id := sess[id].(inward := sess[id].inward.(refused := true))];
      }
    }

    /** One turn of the frame loop; it is not entered while the loop is still closing a session. The
        invariant is kept unless data comes for a session that was never stored. */
    method HandleMessage(m: Wire, choice: W.Choice)
      requires Valid() && !W.IsBusy(Value())
      modifies this
      ensures Value() == W.Next(old(Value()), W.Receive(m, choice))
      ensures (forall id :: W.InOrder(old(Value()), W.Receive(m, choice), id)) ==> Valid()
    {
      TakeMessage(m, choice);
      if forall id :: W.InOrder(old(Value()), W.Receive(m, choice), id) {
        forall id ensures W.Inv(Value(), id) {
          W.StepKeeps(old(Value()), W.Receive(m, choice), id);
        }
      }
    }

    method TakeMessage(m: Wire, choice: W.Choice)
      requires !W.IsBusy(Value())
      modifies this
      ensures Value() == W.Next(old(Value()), W.Receive(m, choice))
    {
      recv := recv + [m];
      busy := [];
      if !IsFrame(m) {
        return;
      }
      var id, cmd := IdOf(m), CmdOf(m);
      if cmd == CMD_CONNECT || cmd == CMD_UDP_CONNECT {
        opens := opens + {(id, PayloadOf(m), cmd == CMD_UDP_CONNECT)};
      } else if id in sess && sess[id].life.listed {
        if cmd == CMD_DATA || cmd == CMD_UDP_DATA {
          var closes := EnqueueSessionWrite(id, PayloadOf(m), choice);
          busy := if closes then id else [];
        } else if cmd == CMD_CLOSE {
          busy := id;
          sess := sess[id := W.Close(sess[id])];
        }
      }
    }

    /** `openTCP`/`openUDP` up to the store: the first to store an id keeps it. */
    method StoreSession(id: Id, target: Bytes, udp: bool)
      requires Valid()
      modifies this`opens, this`sess
      ensures Valid() && Value() == W.Next(old(Value()), W.Store(id, target, udp))
    {
      if (id, target, udp) in opens {
        opens := opens - {(id, target, udp)};
        if id !in sess {
          sess := sess[id := W.NewSession(target, udp)];
        }
      }
      forall x ensures W.Inv(Value(), x) {
        W.StepKeeps(old(Value()), W.Store(id, target, udp), x);
      }
    }

  }
}
