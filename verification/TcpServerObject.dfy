/** `TcpServer` and the lifecycle methods of `TcpConnection`, updating their fields in place. */
module TcpServerObjects {
  import opened ConnectionStates
  import opened TcpServers
  import opened TcpHazards

  /** The server, the connections it made, and the queues and iterations of their loops. */
  class TcpServer {
    const poller: PollerKind
    const loop: LoopId
    var nextConnId: nat
    var connections: set<ConnId>
    var peers: map<ConnId, Peer>
    var queues: map<LoopId, seq<Functor>>
    var loops: map<LoopId, Iteration>
    ghost var calls: multiset<Functor>
    ghost var ran: seq<Functor>

    ghost function View(): World
      reads this
    {
      World(poller, loop, nextConnId, connections, peers, queues, loops, calls, ran)
    }

    constructor (poller: PollerKind, loop: LoopId, threads: set<LoopId>)
      ensures View() == Start(poller, loop, threads) && Inv(View()) && Tuned(View()) && RawSafe(View())
    {
      this.poller, this.loop := poller, loop;
      nextConnId, connections, peers := 1, {}, map[];
      queues := map l | l in threads + {loop} :: [];
      loops := map l | l in threads + {loop} :: AT_POLL;
      calls, ran := multiset{}, [];
      new;
      StartInv(poller, loop, threads);
      StartTuned(poller, loop, threads);
      StartRaw(poller, loop, threads);
    }

    method DoQueueInLoop(l: LoopId, f: Functor)
      requires l in queues
      modifies this`queues
      ensures View() == QueueInLoop(old(View()), l, f)
    {
      queues := queues[l := queues[l] + [f]];
    }

    /** `update()` after a change of the mask: the poller looks up where it has the channel. */
    method UpdateChannel(c: ConnId, mask: Mask)
      requires c in peers
      modifies this`peers
      ensures peers == old(peers)[c := Updated(poller, old(peers)[c], mask)]
    {
      var p := peers[c];
      var added := if poller == EpollLoop then p.watched else p.registered;
      if mask == NONE_EVENT && added {
        p := p.(watched := false);
      } else {
        p := p.(watched := true);
      }
      peers := peers[c := p.(mask := mask, registered := true)];
    }

    method DoNewConnection(ioLoop: LoopId)
      requires Inv(View()) && Enabled(View(), Accept(ioLoop))
      modifies this
      ensures View() == NewConnection(old(View()), ioLoop) && Inv(View())
    {
      hide Placed, Called, NoGhosts, Timed, Phased;
      StepKeepsInv(View(), Accept(ioLoop));
      var c := nextConnId;
      nextConnId := nextConnId + 1;
      peers := peers[c := Peer(ioLoop, Connecting, NONE_EVENT, true, false, false)];
      connections := connections + {c};
      if ioLoop == loop {
        DoConnectEstablished(c);
      } else {
        DoQueueInLoop(ioLoop, Established(c));
      }
    }

    method DoConnectEstablished(c: ConnId)
      requires c in peers && peers[c].state == Connecting
      modifies this`peers, this`ran
      ensures View() == ConnectEstablished(old(View()), c)
    {
      peers := peers[c := peers[c].(state := Connected)];
      UpdateChannel(c, peers[c].mask.(read := true));
      ran := ran + [Established(c)];
    }

    method DoRemoveConnectionInLoop(c: ConnId)
      requires Wired(View()) && c in peers && c in connections
      modifies this`connections, this`queues, this`ran
      ensures View() == RemoveConnectionInLoop(old(View()), c)
    {
      var n := |connections| - |connections - {c}|;
      connections := connections - {c};
      assert n == 1;
      ran := ran + [RemoveInLoop(c)];
      DoQueueInLoop(peers[c].loop, Destroyed(c));
    }

    method DoRemoveConnection(c: ConnId)
      requires Wired(View()) && c in peers && c in connections
      modifies this`connections, this`queues, this`ran
      ensures View() == RemoveConnection(old(View()), c)
    {
      if peers[c].loop == loop {
        DoRemoveConnectionInLoop(c);
      } else {
        DoQueueInLoop(loop, RemoveInLoop(c));
      }
    }

    method DoHandleClose(c: ConnId)
      requires Wired(View()) && c in peers && c in connections && Open(peers[c])
      modifies this`peers, this`connections, this`queues, this`ran
      ensures View() == HandleCloseOf(old(View()), c)
    {
      CloseChannel(c);
      DoRemoveConnection(c);
    }

    method CloseChannel(c: ConnId)
      requires c in peers
      modifies this`peers
      ensures peers == old(peers)[c := ClosedPeer(poller, old(peers)[c])]
    {
      peers := peers[c := peers[c].(state := Disconnected)];
      UpdateChannel(c, NONE_EVENT);
    }

    method DoConnectDestroyed(c: ConnId)
      requires c in peers && peers[c].registered && (peers[c].state != Connected ==> peers[c].mask == NONE_EVENT)
      modifies this`peers, this`ran
      ensures View() == ConnectDestroyed(old(View()), c)
    {
      if peers[c].state == Connected {
        CloseChannel(c);
      }
      assert peers[c].mask == NONE_EVENT;
      peers := peers[c := peers[c].(registered := false, watched := false)];
      ran := ran + [Destroyed(c)];
    }

    /** A report of end of stream or a hang-up is handled; the close asserts that it meets an open connection. */
    method HandleReport(c: ConnId)
      requires Inv(View()) && Runnable(View(), CloseEvent(c)) && Open(peers[c])
      modifies this
      ensures View() == ApplyStep(old(View()), CloseEvent(c)) && Inv(View())
    {
      hide Orderly, Phased, HandleCloseOf;
      InvWired(View());
      StepKeepsInv(View(), CloseEvent(c));
      RegisteredIsClosed(View(), c);
      var l := peers[c].loop;
      loops := loops[l := loops[l].(reports := loops[l].reports - {c})];
      DoHandleClose(c);
    }

    method DoStopReadInLoop(c: ConnId)
      requires Inv(View()) && Enabled(View(), StopRead(c))
      modifies this`peers
      ensures View() == ApplyStep(old(View()), StopRead(c)) && Inv(View())
    {
      hide Orderly, Phased;
      InvWired(View());
      StepKeepsInv(View(), StopRead(c));
      if peers[c].reading || peers[c].mask.read {
        UpdateChannel(c, peers[c].mask.(read := false));
        peers := peers[c := peers[c].(reading := false)];
      }
    }

    method DoStartReadInLoop(c: ConnId)
      requires Inv(View()) && Enabled(View(), StartRead(c))
      modifies this`peers
      ensures View() == ApplyStep(old(View()), StartRead(c)) && Inv(View())
    {
      hide Orderly, Phased;
      InvWired(View());
      StepKeepsInv(View(), StartRead(c));
      if !peers[c].reading || !peers[c].mask.read {
        UpdateChannel(c, peers[c].mask.(read := true));
        peers := peers[c := peers[c].(reading := true)];
      }
    }

    /** `forceClose` up to its call of `queueInloop`. */
    method DoForceClose(c: ConnId) returns (goesOn: bool)
      requires Inv(View()) && c in peers
      modifies this`peers, this`calls
      ensures View() == (if goesOn then Calling(old(View()), c, ForceCloseInLoop(c)) else old(View())) && Inv(View())
      ensures goesOn <==> Open(old(peers)[c])
    {
      hide Orderly, Phased;
      InvWired(View());
      StepKeepsInv(View(), ForceClose(c));
      goesOn := Open(peers[c]);
      if goesOn {
        peers := peers[c := peers[c].(state := Disconnecting)];
        calls := calls + multiset{ForceCloseInLoop(c)};
      }
    }

    /** `shutdown` in another thread, up to its call of `runInLoop`. */
    method DoShutdown(c: ConnId) returns (goesOn: bool)
      requires Inv(View()) && c in peers
      modifies this`peers, this`calls
      ensures View() == (if goesOn then Calling(old(View()), c, ShutdownRaw(c)) else old(View())) && Inv(View())
      ensures goesOn <==> old(peers)[c].state == Connected
    {
      hide Orderly, Phased;
      InvWired(View());
      StepKeepsInv(View(), ShutdownCall(c, false));
      goesOn := peers[c].state == Connected;
      if goesOn {
        peers := peers[c := peers[c].(state := Disconnecting)];
        calls := calls + multiset{ShutdownRaw(c)};
      }
    }

    /** The rest of such a call; queued pointers stay safe unless it comes too late. */
    method FinishCall(f: Functor)
      requires Inv(View()) && RawSafe(View()) && f in calls
      modifies this`queues, this`calls
      ensures Runnable(old(View()), Push(f)) && View() == Pushed(old(View()), f) && Inv(View())
      ensures !(f.ShutdownRaw? && Late(old(View()), f.c)) ==> RawSafe(View())
    {
      hide Orderly, Phased, RawSafe, Late;
      InvWired(View());
      StepKeepsInv(View(), Push(f));
      if !(f.ShutdownRaw? && Late(View(), f.c)) { StepKeepsRaw(View(), Push(f)); }
      calls := calls - multiset{f};
      DoQueueInLoop(peers[f.c].loop, f);
    }

    /** The start of `doPendingFunctors`: everything queued by now is the batch. */
    method DoTakeBatch(l: LoopId)
      requires Inv(View()) && Enabled(View(), TakeBatch(l))
      modifies this`loops
      ensures View() == ApplyStep(old(View()), TakeBatch(l)) && Inv(View())
    {
      hide Orderly, Phased;
      InvWired(View());
      StepKeepsInv(View(), TakeBatch(l));
      loops := loops[l := Iteration(Running, {}, |queues[l]|, set f | f in queues[l])];
    }

    /** One functor of the batch, where the source's assertions hold. */
    method RunFunctor(l: LoopId)
      requires Inv(View()) && Runnable(View(), RunFront(l)) && SourceAsserts(View(), RunFront(l))
      modifies this
      ensures View() == ApplyStep(old(View()), RunFront(l)) && Inv(View())
    {
      hide Orderly, Phased, HandleCloseOf, ConnectDestroyed, ConnectEstablished, RemoveConnectionInLoop;
      InvWired(View());
      StepKeepsInv(View(), RunFront(l));
      var f := queues[l][0];
      RegisteredIsClosed(View(), f.c);
      PoppedWired(View(), l);
      queues := queues[l := queues[l][1..]];
      loops := loops[l := loops[l].(left := loops[l].left - 1)];
      Execute(f);
    }

    method Execute(f: Functor)
      requires Wired(View()) && f.c in peers
      requires match f
               case Established(c) => peers[c].state == Connecting
               case RemoveInLoop(c) => c in connections
               case Destroyed(c) => peers[c].state == Disconnected && peers[c].mask == NONE_EVENT && peers[c].registered
               case ForceCloseInLoop(c) => Open(peers[c]) ==> c in connections
               case _ => true
      modifies this`peers, this`connections, this`queues, this`ran
      ensures View() == Run(old(View()), f)
    {
      match f
      case Established(c) => DoConnectEstablished(c);
      case RemoveInLoop(c) => DoRemoveConnectionInLoop(c);
      case Destroyed(c) => DoConnectDestroyed(c);
      case ForceCloseInLoop(c) =>
        if Open(peers[c]) {
          DoHandleClose(c);
        }
      case ShutdownRaw(c) =>
    }

    /** The end of `doPendingFunctors`: the functors are destroyed with the vector. */
    method DoEndBatch(l: LoopId)
      requires Inv(View()) && Enabled(View(), EndBatch(l))
      modifies this`loops
      ensures View() == ApplyStep(old(View()), EndBatch(l)) && Inv(View())
    {
      hide Orderly, Phased;
      InvWired(View());
      StepKeepsInv(View(), EndBatch(l));
      loops := loops[l := AT_POLL];
    }
  }
}
