/**
  When the life of connections goes wrong, and when it does not (`muduo/net/TcpConnection.cc`,
  `muduo/net/EventLoop.cc`, `muduo/net/poller/EPollPoller.cc`). Two hazards are told apart: a closed
  connection that epoll watches again, and a raw pointer that is queued too late.
 */
module TcpHazards {
  import opened ConnectionStates
  import opened TcpServers
  import P = Pollers

  /** `connectDestroyed` is due before the connection's loop polls again. */
  predicate Ending(w: World, c: ConnId)
    requires Wired(w) && c in w.peers
  {
    var l := w.peers[c].loop;
    || (At(w, l, Handling) && Destroyed(c) in w.queues[l])
    || (At(w, l, Running) && w.loops[l].left <= |w.queues[l]| && Destroyed(c) in w.queues[l][..w.loops[l].left])
  }

  /**
    A closed connection comes to be watched, for longer than the iteration at hand, or to have a
    mask. With epoll, `disableAll` re-adds the channel of a connection that neither reads nor
    writes: in `forceCloseInLoop`, or on a report from before the mask was emptied. With epoll,
    `stopRead` after the close re-adds it too; with either poller, `startRead` does.
   */
  predicate WatchHazard(w: World, step: Step)
    requires Wired(w) && Runnable(w, step)
  {
    match step
    case RunFront(l) => (
      var f := w.queues[l][0];
      f.ForceCloseInLoop? && Open(w.peers[f.c]) && w.peers[f.c].mask == NONE_EVENT && w.poller == EpollLoop)
    case CloseEvent(c) => w.peers[c].mask == NONE_EVENT && w.poller == EpollLoop && w.peers[c].loop != w.base
    case StopRead(c) => !Open(w.peers[c]) && w.peers[c].reading && w.poller == EpollLoop && !Ending(w, c)
    case StartRead(c) => !Open(w.peers[c])
    case _ => false
  }

  /** No step of the run is such a hazard. */
  ghost predicate Careful(w: World, steps: seq<Step>)
    requires Runs(w, steps)
    decreases |steps|
  {
    steps == [] || (!WatchHazard(w, steps[0]) && Careful(ApplyStep(w, steps[0]), steps[1..]))
  }

  // ---------------------------------------------------------------- masks and reports in careful runs

  /** An open connection is watched exactly while it has a mask, a closed one has none. */
  predicate TunedPeer(p: Peer) {
    && (Open(p) ==> (p.watched <==> p.mask != NONE_EVENT) && p.reading == p.mask.read)
    && (!Open(p) ==> p.mask == NONE_EVENT)
    && (!Open(p) && p.watched ==> !p.reading)
    && (p.state == Connecting ==> p.reading && !p.watched)
  }

  predicate TunedConn(w: World, c: ConnId)
    requires Wired(w) && c in w.peers
  {
    TunedPeer(w.peers[c]) && (w.peers[c].watched && !Open(w.peers[c]) ==> Ending(w, c))
  }

  ghost predicate ReportsOpen(w: World) {
    forall l, c | l in w.loops && c in w.loops[l].reports :: c in w.peers && Open(w.peers[c])
  }

  ghost predicate Tuned(w: World)
    requires Wired(w)
  {
    (forall c | c in w.peers :: TunedConn(w, c)) && ReportsOpen(w)
  }

  /** What is due before the next poll stays so while nothing is taken from the queue. */
  lemma EndingKept(w: World, w': World, c: ConnId)
    requires Wired(w) && Wired(w') && c in w.peers && c in w'.peers && w'.peers[c].loop == w.peers[c].loop
    requires var l := w.peers[c].loop;
             && w.queues[l] <= w'.queues[l]
             && w'.loops[l].phase == w.loops[l].phase && w'.loops[l].left == w.loops[l].left
    ensures Ending(w, c) ==> Ending(w', c)
  {
    var l := w.peers[c].loop;
    if At(w, l, Running) && w.loops[l].left <= |w.queues[l]| {
      assert w'.queues[l][..w.loops[l].left] == w.queues[l][..w.loops[l].left];
    }
  }

  /** A connection that nothing happens to. */
  lemma TunedAside(w: World, w': World, c: ConnId)
    requires Wired(w) && Wired(w') && c in w.peers && c in w'.peers && w'.peers[c] == w.peers[c]
    requires var l := w.peers[c].loop;
             && w.queues[l] <= w'.queues[l]
             && w'.loops[l].phase == w.loops[l].phase && w'.loops[l].left == w.loops[l].left
    requires TunedConn(w, c)
    ensures TunedConn(w', c)
  {
    hide Ending;
    EndingKept(w, w', c);
  }

  lemma EstablishedTuned(poller: PollerKind, p: Peer)
    requires TunedPeer(p) && p.state == Connecting
    ensures TunedPeer(EstablishedPeer(poller, p)) && Open(EstablishedPeer(poller, p))
  {
  }

  /** Closing an open connection leaves it watched exactly if epoll had set it aside. */
  lemma ClosedTuned(poller: PollerKind, p: Peer)
    requires TunedPeer(p) && Open(p) && p.registered
    ensures TunedPeer(ClosedPeer(poller, p)) && !Open(ClosedPeer(poller, p))
    ensures ClosedPeer(poller, p).watched <==> poller == EpollLoop && p.mask == NONE_EVENT
  {
  }

  lemma DestroyedTuned(poller: PollerKind, p: Peer)
    requires TunedPeer(p) && p.state == Disconnected
    ensures TunedPeer(DestroyedPeer(poller, p)) && !DestroyedPeer(poller, p).watched
  {
  }

  lemma MaskTuned(poller: PollerKind, p: Peer, on: bool)
    requires TunedPeer(p) && p.registered && Open(p)
    ensures p.mask.write != on ==> TunedPeer(Updated(poller, p, p.mask.(write := on)))
    ensures TunedPeer(StoppedPeer(poller, p)) && TunedPeer(StartedPeer(poller, p))
  {
  }

  lemma StoppedTuned(poller: PollerKind, p: Peer)
    requires TunedPeer(p) && p.registered && p.state == Disconnected
    ensures TunedPeer(StoppedPeer(poller, p)) && !Open(StoppedPeer(poller, p))
    ensures StoppedPeer(poller, p).watched ==> p.watched || (p.reading && poller == EpollLoop)
  {
  }

  // ---------------------------------------------------------------- every careful step

  lemma TunedPoll(w: World, l: LoopId, reported: set<ConnId>)
    requires Orderly(w) && Tuned(w) && Enabled(w, Poll(l, reported))
    ensures var w' := WithLoop(w, l, Iteration(Handling, reported, 0, {})); Wired(w') && Tuned(w')
  {
    hide Placed, Called, NoGhosts, Timed;
    var w' := WithLoop(w, l, Iteration(Handling, reported, 0, {}));
    forall c | c in w'.peers ensures TunedConn(w', c) {
      assert TunedConn(w, c);
      if w.peers[c].loop != l { TunedAside(w, w', c); }
    }
    forall c | c in reported ensures c in w'.peers && Open(w'.peers[c]) { assert TunedConn(w, c); }
  }

  lemma TunedTake(w: World, l: LoopId)
    requires Orderly(w) && Tuned(w) && Enabled(w, TakeBatch(l))
    ensures var w' := ApplyStep(w, TakeBatch(l)); Wired(w') && Tuned(w')
  {
    hide Placed, Called, NoGhosts, Timed;
    var w' := ApplyStep(w, TakeBatch(l));
    forall c | c in w'.peers ensures TunedConn(w', c) {
      assert TunedConn(w, c);
      if w.peers[c].loop != l { TunedAside(w, w', c); } else { assert w.queues[l][..|w.queues[l]|] == w.queues[l]; }
    }
  }

  lemma TunedEnd(w: World, l: LoopId)
    requires Orderly(w) && Tuned(w) && Enabled(w, EndBatch(l))
    ensures var w' := WithLoop(w, l, AT_POLL); Wired(w') && Tuned(w')
  {
    hide Placed, Called, NoGhosts, Timed;
    var w' := WithLoop(w, l, AT_POLL);
    forall c | c in w'.peers ensures TunedConn(w', c) {
      assert TunedConn(w, c);
      if w.peers[c].loop != l { TunedAside(w, w', c); }
    }
  }

  lemma TunedDispatch(w: World, c: ConnId)
    requires Orderly(w) && Tuned(w) && Reported(w, c)
    ensures Wired(Dispatched(w, c)) && Tuned(Dispatched(w, c))
  {
    hide Placed, Called, NoGhosts, Timed, TunedConn;
    var w' := Dispatched(w, c);
    forall d | d in w'.peers ensures TunedConn(w', d) {
      assert TunedConn(w, d);
      TunedAside(w, w', d);
    }
  }

  /** One connection changes, functors are added, no loop goes on; if it was open, it still is or has no report. */
  lemma TunedChange(w: World, w': World, c: ConnId)
    requires Wired(w) && Wired(w') && Tuned(w) && c in w'.peers && TunedConn(w', c) && w'.loops == w.loops
    requires forall d | d in w'.peers && d != c :: d in w.peers && w'.peers[d] == w.peers[d]
    requires forall d | d in w.peers :: d in w'.peers
    requires forall l | l in w.queues :: l in w'.queues && w.queues[l] <= w'.queues[l]
    requires Open(w'.peers[c]) || c !in w.peers || !Open(w.peers[c])
             || forall l | l in w.loops :: c !in w.loops[l].reports
    ensures Tuned(w')
  {
    hide TunedPeer, Ending;
    forall d | d in w'.peers && d != c ensures TunedConn(w', d) {
      assert TunedConn(w, d);
      TunedAside(w, w', d);
    }
  }

  lemma TunedMask(w: World, c: ConnId, p: Peer)
    requires Wired(w) && Tuned(w) && c in w.peers && Open(w.peers[c]) && Open(p) && TunedPeer(p)
    requires p.loop == w.peers[c].loop
    ensures Wired(WithPeer(w, c, p)) && Tuned(WithPeer(w, c, p))
  {
    hide TunedPeer, Tuned;
    TunedChange(w, WithPeer(w, c, p), c);
  }

  lemma RegisteredIsClosed(w: World, c: ConnId)
    requires Inv(w) && c in w.peers
    ensures w.peers[c].registered && !Open(w.peers[c]) ==> w.peers[c].state == Disconnected
    ensures Open(w.peers[c]) ==> w.peers[c].registered && c in w.connections
  {
    hide Placed, Called, NoGhosts, Timed, Pending, Done;
    var ph :| InPhase(w, c, ph);
  }

  lemma TunedSetWriting(w: World, c: ConnId, on: bool)
    requires Inv(w) && Tuned(w) && Enabled(w, SetWriting(c, on))
    ensures var w' := ApplyStep(w, SetWriting(c, on)); Wired(w') && Tuned(w')
  {
    hide Placed, Called, NoGhosts, Timed, Phased, Updated;
    RegisteredIsClosed(w, c);
    assert TunedConn(w, c);
    MaskTuned(w.poller, w.peers[c], on);
    Unmoved(w.poller, w.peers[c], on);
    TunedMask(w, c, Updated(w.poller, w.peers[c], w.peers[c].mask.(write := on)));
  }

  /** Changes of the mask keep loop and state. */
  lemma Unmoved(poller: PollerKind, p: Peer, on: bool)
    ensures var q := Updated(poller, p, p.mask.(write := on)); q.loop == p.loop && q.state == p.state
    ensures StoppedPeer(poller, p).loop == p.loop && StoppedPeer(poller, p).state == p.state
    ensures StartedPeer(poller, p).loop == p.loop && StartedPeer(poller, p).state == p.state
  {
  }

  lemma TunedStartRead(w: World, c: ConnId)
    requires Inv(w) && Tuned(w) && Enabled(w, StartRead(c)) && Open(w.peers[c])
    ensures var w' := ApplyStep(w, StartRead(c)); Wired(w') && Tuned(w')
  {
    hide Placed, Called, NoGhosts, Timed, Phased, StartedPeer;
    RegisteredIsClosed(w, c);
    assert TunedConn(w, c);
    MaskTuned(w.poller, w.peers[c], true);
    Unmoved(w.poller, w.peers[c], true);
    TunedMask(w, c, StartedPeer(w.poller, w.peers[c]));
  }

  lemma TunedStopRead(w: World, c: ConnId)
    requires Inv(w) && Tuned(w) && Enabled(w, StopRead(c)) && !WatchHazard(w, StopRead(c))
    ensures var w' := ApplyStep(w, StopRead(c)); Wired(w') && Tuned(w')
  {
    hide Placed, Called, NoGhosts, Timed, Phased, StoppedPeer, Ending;
    RegisteredIsClosed(w, c);
    assert TunedConn(w, c);
    var p := StoppedPeer(w.poller, w.peers[c]);
    Unmoved(w.poller, w.peers[c], true);
    var w' := WithPeer(w, c, p);
    if Open(w.peers[c]) {
      MaskTuned(w.poller, w.peers[c], true);
      TunedMask(w, c, p);
    } else {
      StoppedTuned(w.poller, w.peers[c]);
      EndingKept(w, w', c);
      TunedChange(w, w', c);
    }
  }

  lemma TunedCalls(w: World, calls: multiset<Functor>)
    requires Wired(w) && Tuned(w)
    ensures Wired(w.(calls := calls)) && Tuned(w.(calls := calls))
  {
    hide TunedPeer, Ending;
    var w' := w.(calls := calls);
    forall c | c in w'.peers ensures TunedConn(w', c) {
      assert TunedConn(w, c);
      TunedAside(w, w', c);
    }
  }

  lemma TunedDisconnecting(w: World, c: ConnId)
    requires Wired(w) && Tuned(w) && c in w.peers && Open(w.peers[c])
    ensures var w' := WithPeer(w, c, w.peers[c].(state := Disconnecting)); Wired(w') && Tuned(w')
  {
    hide Ending;
    assert TunedConn(w, c);
    TunedMask(w, c, w.peers[c].(state := Disconnecting));
  }

  lemma TunedCalling(w: World, c: ConnId, f: Functor)
    requires Wired(w) && Tuned(w) && c in w.peers && Open(w.peers[c])
    ensures Wired(Calling(w, c, f)) && Tuned(Calling(w, c, f))
  {
    hide Tuned;
    TunedDisconnecting(w, c);
    TunedCalls(WithPeer(w, c, w.peers[c].(state := Disconnecting)), w.calls + multiset{f});
  }

  lemma TunedQueue(w: World, l: LoopId, f: Functor)
    requires Wired(w) && Tuned(w) && l in w.queues
    ensures Wired(QueueInLoop(w, l, f)) && Tuned(QueueInLoop(w, l, f))
  {
    hide TunedPeer, Ending;
    var w' := QueueInLoop(w, l, f);
    forall c | c in w'.peers ensures TunedConn(w', c) {
      assert TunedConn(w, c);
      TunedAside(w, w', c);
    }
  }

  lemma TunedPushed(w: World, f: Functor)
    requires Wired(w) && Tuned(w) && f.c in w.peers
    ensures Wired(Pushed(w, f)) && Tuned(Pushed(w, f))
  {
    hide Tuned;
    TunedCalls(w, w.calls - multiset{f});
    TunedQueue(w.(calls := w.calls - multiset{f}), w.peers[f.c].loop, f);
  }

  lemma TunedEstablished(w: World, c: ConnId)
    requires Wired(w) && Tuned(w) && c in w.peers && w.peers[c].state == Connecting
    ensures Wired(ConnectEstablished(w, c)) && Tuned(ConnectEstablished(w, c))
  {
    hide Ending, EstablishedPeer, TunedPeer;
    assert TunedConn(w, c);
    EstablishedTuned(w.poller, w.peers[c]);
    EstablishedLoop(w.poller, w.peers[c]);
    TunedChange(w, ConnectEstablished(w, c), c);
  }

  lemma EstablishedLoop(poller: PollerKind, p: Peer)
    ensures EstablishedPeer(poller, p).loop == p.loop && EstablishedPeer(poller, p).state == Connected
    ensures ClosedPeer(poller, p).loop == p.loop && DestroyedPeer(poller, p).loop == p.loop
  {
  }

  lemma TunedAccept(w: World, l: LoopId)
    requires Orderly(w) && Tuned(w) && l in w.queues
    ensures Wired(NewConnection(w, l)) && Tuned(NewConnection(w, l))
  {
    hide Placed, Called, NoGhosts, Timed, Ending;
    var c, w1 := w.nextConnId, Admitted(w, l);
    TunedChange(w, w1, c);
    if l == w.base { TunedEstablished(w1, c); } else { TunedQueue(w1, l, Established(c)); }
  }

  /** `handleClose` on an open connection that no report is left on. */
  lemma TunedClose(w: World, c: ConnId)
    requires Wired(w) && Tuned(w) && c in w.peers && Open(w.peers[c]) && w.peers[c].registered
    requires forall l | l in w.loops :: c !in w.loops[l].reports
    requires w.poller == EpollLoop && w.peers[c].mask == NONE_EVENT ==>
               w.peers[c].loop == w.base && At(w, w.base, Handling)
    ensures Wired(HandleCloseOf(w, c)) && Tuned(HandleCloseOf(w, c))
  {
    hide TunedPeer, ClosedPeer, Tuned;
    assert TunedConn(w, c) by { assert Tuned(w); TunedOne(w, c); }
    ClosedTuned(w.poller, w.peers[c]);
    ClosedAbout(w, c);
    var w' := HandleCloseOf(w, c);
    ClosedHere(w, c);
    TunedChange(w, w', c);
  }

  lemma TunedOne(w: World, c: ConnId)
    requires Wired(w) && Tuned(w) && c in w.peers
    ensures TunedConn(w, c)
  {
  }

  lemma ClosedHere(w: World, c: ConnId)
    requires Wired(w) && c in w.peers
    ensures var w' := HandleCloseOf(w, c);
            && Wired(w') && c in w'.peers && w'.peers[c] == ClosedPeer(w.poller, w.peers[c])
            && (w.peers[c].loop == w.base && At(w, w.base, Handling) ==> Ending(w', c))
  {
    EstablishedLoop(w.poller, w.peers[c]);
  }

  lemma TunedCloseEvent(w: World, c: ConnId)
    requires Inv(w) && Tuned(w) && Reported(w, c)
    requires w.peers[c].mask == NONE_EVENT && w.poller == EpollLoop ==> w.peers[c].loop == w.base
    ensures Open(w.peers[c]) && Wired(Dispatched(w, c))
    ensures Wired(HandleCloseOf(Dispatched(w, c), c)) && Tuned(HandleCloseOf(Dispatched(w, c), c))
  {
    hide Placed, Called, NoGhosts, Phased, TunedConn, HandleCloseOf;
    RegisteredIsClosed(w, c);
    TunedDispatch(w, c);
    var l := w.peers[c].loop;
    var w1 := Dispatched(w, c);
    forall k | k in w1.loops ensures c !in w1.loops[k].reports { assert TimedLoop(w, k); }
    TunedClose(w1, c);
  }

  /** The next functor of a batch is taken: what is due before the next poll stays due, but for itself. */
  lemma TunedPop(w: World, l: LoopId, c: ConnId)
    requires Wired(w) && TunedAll(w) && c in w.peers && l in w.queues && w.queues[l] != [] && w.loops[l].left > 0
    requires At(w, l, Running) && w.queues[l][0] != Destroyed(c)
    ensures Wired(Popped(w, l)) && TunedConn(Popped(w, l), c)
  {
    hide TunedPeer;
    assert TunedConn(w, c);
    var w' := Popped(w, l);
    if w.peers[c].loop != l {
      TunedAside(w, w', c);
    } else if w.loops[l].left <= |w.queues[l]| {
      var q, n := w.queues[l], w.loops[l].left;
      assert q[..n] == [q[0]] + q[1..][..n - 1];
    }
  }

  ghost predicate TunedAll(w: World)
    requires Wired(w)
  {
    forall c | c in w.peers :: TunedConn(w, c)
  }

  lemma PoppedReports(w: World, l: LoopId)
    requires Wired(w) && ReportsOpen(w) && l in w.queues && w.queues[l] != [] && w.loops[l].left > 0
    ensures ReportsOpen(Popped(w, l))
  {
    forall k, c | k in Popped(w, l).loops && c in Popped(w, l).loops[k].reports
      ensures c in w.peers && Open(w.peers[c])
    {
      assert k in w.loops && c in w.loops[k].reports;
    }
  }

  lemma TunedRunDestroyed(w: World, l: LoopId, c: ConnId)
    requires Orderly(w) && Tuned(w) && Enabled(w, RunFront(l)) && w.queues[l][0] == Destroyed(c)
    requires c in w.peers && w.peers[c].state == Disconnected
    ensures var w' := ConnectDestroyed(Popped(w, l), c); Wired(w') && Tuned(w')
  {
    hide Placed, Called, NoGhosts, Timed, TunedPeer, DestroyedPeer, Ending;
    var w1 := Popped(w, l);
    var w' := ConnectDestroyed(w1, c);
    PoppedWired(w, l);
    EstablishedLoop(w.poller, w.peers[c]);
    assert TunedConn(w, c);
    DestroyedTuned(w.poller, w.peers[c]);
    forall d | d in w'.peers ensures TunedConn(w', d) {
      if d != c {
        TunedPop(w, l, d);
        TunedAside(w1, w', d);
      }
    }
    PoppedReports(w, l);
  }

  lemma TunedRunFront(w: World, l: LoopId)
    requires Inv(w) && Tuned(w) && Runnable(w, RunFront(l)) && !WatchHazard(w, RunFront(l))
    ensures var w' := ApplyStep(w, RunFront(l)); Wired(w') && Tuned(w')
  {
    hide Placed, Called, NoGhosts, Phased, TunedConn, InPhase, HandleCloseOf;
    var f, w1 := w.queues[l][0], Popped(w, l);
    PoppedWired(w, l);
    if f.Destroyed? {
      FrontPhase(w, l, Erased);
      ErasedIsClosed(w, f.c);
      TunedRunDestroyed(w, l, f.c);
    } else {
      forall c | c in w1.peers ensures TunedConn(w1, c) { TunedPop(w, l, c); }
      PoppedReports(w, l);
      match f
      case Established(c) =>
        FrontPhase(w, l, Accepted);
        AcceptedIsConnecting(w, c);
        TunedEstablished(w1, c);
      case RemoveInLoop(c) => TunedRemoved(w1, c);
      case ForceCloseInLoop(c) =>
        if Open(w.peers[c]) {
          RegisteredIsClosed(w, c);
          NotReported(w, l, c);
          TunedClose(w1, c);
        }
      case ShutdownRaw(c) =>
    }
  }

  lemma ErasedIsClosed(w: World, c: ConnId)
    requires Wired(w) && c in w.peers && InPhase(w, c, Erased)
    ensures w.peers[c].state == Disconnected && w.peers[c].registered
  {
  }

  lemma AcceptedIsConnecting(w: World, c: ConnId)
    requires Wired(w) && c in w.peers && InPhase(w, c, Accepted)
    ensures w.peers[c].state == Connecting && !w.peers[c].registered
  {
  }

  lemma TunedRemoved(w: World, c: ConnId)
    requires Wired(w) && Tuned(w) && c in w.peers
    ensures Wired(RemoveConnectionInLoop(w, c)) && Tuned(RemoveConnectionInLoop(w, c))
  {
    hide TunedPeer, Ending;
    ClosedAbout(w, c);
    var w' := RemoveConnectionInLoop(w, c);
    assert w'.peers == w.peers;
    forall d | d in w'.peers ensures TunedConn(w', d) {
      assert TunedConn(w, d);
      TunedAside(w, w', d);
    }
  }

  /** While a loop runs its functors there are no reports on its connections. */
  lemma NotReported(w: World, l: LoopId, c: ConnId)
    requires Orderly(w) && At(w, l, Running) && l in w.queues && w.queues[l] != [] && w.loops[l].left > 0
    requires w.queues[l][0].c == c && !w.queues[l][0].RemoveInLoop?
    ensures forall k | k in Popped(w, l).loops :: c !in Popped(w, l).loops[k].reports
  {
    hide Called, NoGhosts;
    assert w.queues[l][0] in w.queues[l];
    forall k | k in w.loops ensures c !in w.loops[k].reports { assert TimedLoop(w, k); }
  }

  lemma StepKeepsTuned(w: World, step: Step)
    requires Inv(w) && Tuned(w) && Runnable(w, step) && !WatchHazard(w, step)
    ensures !BadClose(w, step)
    ensures Wired(ApplyStep(w, step)) && Tuned(ApplyStep(w, step))
  {
    hide Placed, Called, NoGhosts, Timed, Phased, TunedConn, ReportsOpen;
    match step
    case Poll(l, reported) => TunedPoll(w, l, reported);
    case Dispatch(c) => TunedDispatch(w, c);
    case CloseEvent(c) => TunedCloseEvent(w, c);
    case TakeBatch(l) => TunedTake(w, l);
    case RunFront(l) => TunedRunFront(w, l);
    case EndBatch(l) => TunedEnd(w, l);
    case Accept(l) => TunedAccept(w, l);
    case SetWriting(c, on) => TunedSetWriting(w, c, on);
    case StopRead(c) => TunedStopRead(w, c);
    case StartRead(c) => TunedStartRead(w, c);
    case ShutdownCall(c, inLoop) =>
      if w.peers[c].state == Connected {
        TunedDisconnecting(w, c);
        TunedCalling(w, c, ShutdownRaw(c));
      }
    case ForceClose(c) => if Open(w.peers[c]) { TunedCalling(w, c, ForceCloseInLoop(c)); }
    case Push(f) => TunedPushed(w, f);
  }

  // ---------------------------------------------------------------- careful runs

  lemma {:induction false} RunKeepsTuned(w: World, steps: seq<Step>)
    requires Inv(w) && Tuned(w) && Runs(w, steps) && Careful(w, steps)
    ensures Inv(Exec(w, steps)) && Tuned(Exec(w, steps)) && Proper(w, steps)
    decreases |steps|
  {
    hide Inv, Tuned, ApplyStep, WatchHazard, BadClose, Wired, Runnable;
    if steps != [] {
      StepKeepsTuned(w, steps[0]);
      StepKeepsInv(w, steps[0]) by { RunnableIsEnabled(w, steps[0]); }
      RunKeepsTuned(ApplyStep(w, steps[0]), steps[1..]);
    }
  }

  lemma RunnableIsEnabled(w: World, step: Step)
    requires Runnable(w, step)
    ensures Enabled(w, step)
  {
  }

  lemma StartTuned(poller: PollerKind, base: LoopId, loops: set<LoopId>)
    ensures Wired(Start(poller, base, loops)) && Tuned(Start(poller, base, loops))
  {
  }

  /** A state that a careful run of a new server leads to. */
  ghost predicate Reachable(w: World) {
    exists poller, base, loops, steps ::
      var s := Start(poller, base, loops); Runs(s, steps) && Careful(s, steps) && w == Exec(s, steps)
  }

  lemma ReachableInv(w: World)
    requires Reachable(w)
    ensures Inv(w) && Tuned(w)
  {
    hide Inv, Tuned, Exec, Runs, Careful;
    var poller, base, loops, steps :|
      var s := Start(poller, base, loops); Runs(s, steps) && Careful(s, steps) && w == Exec(s, steps);
    StartInv(poller, base, loops);
    StartTuned(poller, base, loops);
    RunKeepsTuned(Start(poller, base, loops), steps);
  }

  /** No step is ever refused for lack of the connection it is about. */
  lemma NeverRefused(w: World, step: Step)
    requires Reachable(w) && Enabled(w, step)
    ensures Wired(w) && Runnable(w, step)
  {
    hide Reachable, Tuned, Enabled, Runnable;
    ReachableInv(w);
    EnabledIsRunnable(w, step);
  }

  /** In every careful run each accepted connection is in exactly one phase of its life. */
  lemma ExactlyOnePhase(w: World, c: ConnId) returns (ph: Phase)
    requires Reachable(w) && c in w.peers
    ensures Wired(w) && InPhase(w, c, ph) && forall other :: InPhase(w, c, other) ==> other == ph
  {
    hide Reachable, InPhase, Placed, Called, NoGhosts, Timed, Tuned;
    ReachableInv(w);
    ph :| InPhase(w, c, ph);
    forall other | InPhase(w, c, other) ensures other == ph { OnePhase(w, c, ph, other); }
  }

  /** Each lifecycle function runs at most once for a connection, and none before the one it follows. */
  lemma OnceAndInOrder(w: World, c: ConnId)
    requires Reachable(w) && c in w.peers
    ensures Done(w, Destroyed(c)) <= Done(w, RemoveInLoop(c)) <= Done(w, Established(c)) <= 1
  {
    hide Reachable;
    var ph := ExactlyOnePhase(w, c);
  }

  /** The kernel watches only open connections with a mask, and closed ones that are about to end. */
  lemma WatchedIsLive(w: World, c: ConnId)
    requires Reachable(w) && c in w.peers && w.peers[c].watched
    ensures Wired(w)
    ensures if Open(w.peers[c]) then w.peers[c].mask != NONE_EVENT && InPhase(w, c, Live) else Ending(w, c)
  {
    hide Reachable, Placed, Called, NoGhosts, Timed, Ending;
    ReachableInv(w);
    assert TunedConn(w, c);
    var ph :| InPhase(w, c, ph);
  }

  /** The assertions of the source at the functions a step calls. */
  ghost predicate SourceAsserts(w: World, step: Step)
    requires Wired(w) && Runnable(w, step)
  {
    match step
    case RunFront(l) => (
      match w.queues[l][0]
      case Established(c) => w.peers[c].state == Connecting && !w.peers[c].registered
      case RemoveInLoop(c) => c in w.connections
      case Destroyed(c) =>
        w.peers[c].state == Disconnected && w.peers[c].mask == NONE_EVENT && w.peers[c].registered
      case _ => true)
    case CloseEvent(c) => Open(w.peers[c])
    case _ => true
  }

  lemma InvAsserts(w: World, step: Step)
    requires Inv(w) && Tuned(w) && Enabled(w, step)
    ensures Runnable(w, step) && SourceAsserts(w, step)
  {
    hide Called, NoGhosts, Timed, Phased, InPhase, Ending;
    EnabledIsRunnable(w, step);
    match step {
      case RunFront(l) => {
        match w.queues[l][0] {
          case Established(c) =>
            FrontPhase(w, l, Accepted);
            AcceptedIsConnecting(w, c);
          case RemoveInLoop(c) =>
            FrontPhase(w, l, Closed);
            ClosedIsMapped(w, c);
          case Destroyed(c) =>
            FrontPhase(w, l, Erased);
            ErasedIsClosed(w, c);
            assert TunedConn(w, c);
          case _ =>
        }
      }
      case _ =>
    }
  }

  lemma ClosedIsMapped(w: World, c: ConnId)
    requires Wired(w) && c in w.peers && InPhase(w, c, Closed)
    ensures c in w.connections
  {
  }

  /**
    In every careful run the erase removes exactly one entry, connections are established from the
    connecting state, closed only while open and destroyed with an empty mask.
   */
  lemma AssertionsHold(w: World, step: Step)
    requires Reachable(w) && Enabled(w, step)
    ensures Wired(w) && Runnable(w, step) && SourceAsserts(w, step)
  {
    hide Reachable, SourceAsserts, Tuned, Enabled;
    ReachableInv(w);
    InvAsserts(w, step);
  }

  // ---------------------------------------------------------------- a loop finishes its iteration

  /** The next functor would close a connection that epoll has set aside. */
  predicate HazardFront(w: World, l: LoopId)
    requires Wired(w) && l in w.loops
  {
    && At(w, l, Running) && w.loops[l].left > 0 && w.queues[l] != []
    && var f := w.queues[l][0];
       f.ForceCloseInLoop? && f.c in w.peers && Open(w.peers[f.c]) && w.peers[f.c].mask == NONE_EVENT
       && w.poller == EpollLoop
  }

  function StepsLeft(w: World, l: LoopId): nat
    requires Wired(w) && l in w.loops
  {
    2 * (match w.loops[l].phase
         case Polling => 0
         case Handling => |w.loops[l].reports| + |w.queues[l]| + 2
         case Running => w.loops[l].left + 1)
    + if HazardFront(w, l) then 1 else 0
  }

  /** A step by which loop l gets on without a hazard; it starts reading where epoll would trip. */
  predicate Onward(w: World, l: LoopId, step: Step)
    requires Wired(w) && l in w.loops
  {
    && Runnable(w, step)
    && match step
       case Dispatch(c) => w.peers[c].loop == l
       case TakeBatch(k) => k == l
       case RunFront(k) => k == l && !HazardFront(w, l)
       case EndBatch(k) => k == l
       case StartRead(c) => Open(w.peers[c]) && HazardFront(w, l) && w.queues[l][0].c == c
       case _ => false
  }

  lemma OnwardStep(w: World, l: LoopId) returns (step: Step)
    requires Inv(w) && l in w.loops && w.loops[l].phase != Polling
    ensures Onward(w, l, step)
  {
    hide Placed, Called, NoGhosts, Phased, Ending;
    assert TimedLoop(w, l);
    if w.loops[l].phase == Handling {
      if w.loops[l].reports != {} {
        var c :| c in w.loops[l].reports;
        step := Dispatch(c);
      } else {
        step := TakeBatch(l);
      }
    } else if w.loops[l].left == 0 {
      step := EndBatch(l);
    } else if HazardFront(w, l) {
      step := StartRead(w.queues[l][0].c);
      RegisteredIsClosed(w, step.c);
      HomeOfFront(w, l);
    } else {
      step := RunFront(l);
      EnabledIsRunnable(w, step);
    }
  }

  lemma HomeOfFront(w: World, l: LoopId)
    requires Orderly(w) && l in w.queues && w.queues[l] != []
    ensures w.queues[l][0].c in w.peers && l == Home(w, w.queues[l][0])
  {
    hide Called, NoGhosts, Timed;
    assert w.queues[l][0] in w.queues[l];
  }

  /** The steps of an iteration are no hazards and bring it to its end. */
  lemma OnwardCareful(w: World, l: LoopId, step: Step)
    requires Inv(w) && l in w.loops && Onward(w, l, step)
    ensures !WatchHazard(w, step) && !BadClose(w, step)
    ensures Inv(ApplyStep(w, step)) && l in ApplyStep(w, step).loops
    ensures StepsLeft(ApplyStep(w, step), l) < StepsLeft(w, l)
  {
    hide Inv, HandleCloseOf, Ending;
    InvWired(w);
    OnwardIsCareful(w, l, step);
    StepKeepsInv(w, step);
    OnwardFewer(w, l, step);
  }

  lemma OnwardIsCareful(w: World, l: LoopId, step: Step)
    requires Wired(w) && l in w.loops && Onward(w, l, step)
    ensures !WatchHazard(w, step) && !BadClose(w, step) && Enabled(w, step)
  {
  }

  lemma OnwardFewer(w: World, l: LoopId, step: Step)
    requires Orderly(w) && l in w.loops && Onward(w, l, step)
    ensures Wired(ApplyStep(w, step)) && l in ApplyStep(w, step).loops
    ensures StepsLeft(ApplyStep(w, step), l) < StepsLeft(w, l)
  {
    hide Placed, Called, NoGhosts, Ending, Run, Timed;
    StepOrderly(w, step);
    match step
    case RunFront(_) => RunFewer(w, l);
    case StartRead(c) => assert P.NONE_EVENT.read == false;
    case _ =>
  }

  lemma RunFewer(w: World, l: LoopId)
    requires Orderly(w) && l in w.loops && Onward(w, l, RunFront(l))
    ensures var w' := Run(Popped(w, l), w.queues[l][0]);
            Wired(w') && l in w'.loops && StepsLeft(w', l) < StepsLeft(w, l)
  {
    hide Placed, Called, NoGhosts, Timed, Run;
    StepOrderly(w, RunFront(l));
    PoppedWired(w, l);
    RunPushes(Popped(w, l), w.queues[l][0]);
  }

  lemma NoSteps(w: World)
    ensures Runs(w, []) && Careful(w, []) && Exec(w, []) == w
  {
  }

  lemma FirstStep(w: World, a: Step, rest: seq<Step>)
    requires Wired(w) && Runnable(w, a) && Runs(ApplyStep(w, a), rest)
    ensures Runs(w, [a] + rest) && Exec(w, [a] + rest) == Exec(ApplyStep(w, a), rest)
    ensures Careful(w, [a] + rest) <==> !WatchHazard(w, a) && Careful(ApplyStep(w, a), rest)
  {
    hide ApplyStep, Runnable, WatchHazard, Wired;
    assert ([a] + rest)[1..] == rest;
  }

  // ---------------------------------------------------------------- from a hazard to a failing assertion

  /** Closed, watched, and not about to end. */
  predicate Lurking(w: World, c: ConnId)
    requires Wired(w)
  {
    && c in w.peers && w.peers[c].state == Disconnected && w.peers[c].registered && w.peers[c].watched
    && !Ending(w, c)
  }

  /** Closed and about to end, but with a mask. */
  predicate Slipping(w: World, c: ConnId)
    requires Wired(w)
  {
    && c in w.peers && w.peers[c].state == Disconnected && w.peers[c].registered && w.peers[c].mask != NONE_EVENT
    && Ending(w, c)
  }

  /** Running the front functor does nothing to a closed connection unless it destroys it. */
  lemma FrontSpares(w: World, l: LoopId, c: ConnId)
    requires Inv(w) && l in w.loops && Enabled(w, RunFront(l)) && w.queues[l][0].c in w.peers
    requires c in w.peers && w.peers[c].state == Disconnected && w.queues[l][0] != Destroyed(c)
    ensures Wired(Popped(w, l)) && var w' := Run(Popped(w, l), w.queues[l][0]);
            && c in w'.peers && w'.peers[c] == w.peers[c] && OnlyAbout(Popped(w, l), w', w.queues[l][0].c)
  {
    hide Placed, Called, NoGhosts, Timed, Phased, OnlyAbout, InPhase;
    PoppedWired(w, l);
    var f := w.queues[l][0];
    RunPushes(Popped(w, l), f);
    if f.c == c {
      if f.Established? {
        FrontPhase(w, l, Accepted);
        AcceptedIsConnecting(w, c);
      }
    } else {
      AboutOthers(Popped(w, l), Run(Popped(w, l), f), f.c, c);
    }
  }

  lemma AboutOthers(w: World, w': World, d: ConnId, c: ConnId)
    requires OnlyAbout(w, w', d) && c != d && c in w.peers
    ensures c in w'.peers && w'.peers[c] == w.peers[c]
  {
  }

  lemma AboutQueue(w: World, w': World, d: ConnId, l: LoopId)
    requires OnlyAbout(w, w', d) && l in w.queues
    ensures w'.loops == w.loops && l in w'.queues && w.queues[l] <= w'.queues[l]
  {
  }

  lemma FrontOfBatch(q: seq<Functor>, n: nat, q': seq<Functor>, f: Functor)
    requires 0 < n <= |q| && q[0] != f && q[1..] <= q'
    ensures n - 1 <= |q'| && (f in q'[..n - 1] <==> f in q[..n])
  {
    assert q[..n] == [q[0]] + q[1..][..n - 1];
    assert q'[..n - 1] == q[1..][..n - 1];
  }

  /** After a functor that does not destroy c, what is due before the next poll is as before. */
  lemma EndingAfter(w: World, l: LoopId, w': World, c: ConnId)
    requires Wired(w) && Wired(w') && At(w, l, Running) && 0 < w.loops[l].left <= |w.queues[l]|
    requires w.queues[l][0] != Destroyed(c) && c in w.peers && w.peers[c].loop == l
    requires c in w'.peers && w'.peers[c].loop == l
    requires w'.loops == Popped(w, l).loops && w.queues[l][1..] <= w'.queues[l]
    ensures Ending(w', c) <==> Ending(w, c)
  {
    FrontOfBatch(w.queues[l], w.loops[l].left, w'.queues[l], Destroyed(c));
  }

  lemma FrontKeepsEnding(w: World, l: LoopId, c: ConnId)
    requires Inv(w) && l in w.loops && Enabled(w, RunFront(l)) && w.queues[l][0].c in w.peers
    requires c in w.peers && w.peers[c].state == Disconnected && w.peers[c].loop == l && w.queues[l][0] != Destroyed(c)
    ensures Wired(Popped(w, l)) && var w' := Run(Popped(w, l), w.queues[l][0]);
            Wired(w') && c in w'.peers && w'.peers[c] == w.peers[c] && (Ending(w', c) <==> Ending(w, c))
  {
    hide Inv, Run, Ending, OnlyAbout, Orderly;
    InvWired(w);
    FrontSpares(w, l, c);
    StepOrderly(w, RunFront(l));
    OrderlyWired(ApplyStep(w, RunFront(l)));
    AboutQueue(Popped(w, l), Run(Popped(w, l), w.queues[l][0]), w.queues[l][0].c, l);
    LeftInQueue(w, l);
    EndingAfter(w, l, Run(Popped(w, l), w.queues[l][0]), c);
  }

  lemma OrderlyWired(w: World)
    requires Orderly(w)
    ensures Wired(w)
  {
  }

  lemma LeftInQueue(w: World, l: LoopId)
    requires Orderly(w) && l in w.loops
    ensures w.loops[l].left <= |w.queues[l]|
  {
    hide Placed, Called, NoGhosts;
    assert TimedLoop(w, l);
  }

  lemma LurkingOn(w: World, c: ConnId, step: Step)
    requires Inv(w) && Lurking(w, c) && Onward(w, w.peers[c].loop, step)
    ensures Wired(ApplyStep(w, step)) && Lurking(ApplyStep(w, step), c)
    ensures ApplyStep(w, step).peers[c].loop == w.peers[c].loop
  {
    hide Placed, Called, NoGhosts, Phased, Timed, Run;
    var l := w.peers[c].loop;
    StepOrderly(w, step);
    match step
    case RunFront(_) =>
      NotInBatch(w, c);
      FrontKeepsEnding(w, l, c);
    case TakeBatch(_) => assert w.queues[l][..|w.queues[l]|] == w.queues[l];
    case StartRead(d) => StartKeepsEnding(w, d, c);
    case _ =>
  }

  lemma StartKeepsEnding(w: World, d: ConnId, c: ConnId)
    requires Wired(w) && d in w.peers && c in w.peers && c != d
    ensures var w' := WithPeer(w, d, StartedPeer(w.poller, w.peers[d])); Wired(w') && (Ending(w', c) <==> Ending(w, c))
  {
    Unmoved(w.poller, w.peers[d], true);
  }

  lemma NotInBatch(w: World, c: ConnId)
    requires Orderly(w) && c in w.peers && !Ending(w, c) && At(w, w.peers[c].loop, Running)
    ensures var l := w.peers[c].loop; w.loops[l].left > 0 ==> w.queues[l] != [] && w.queues[l][0] != Destroyed(c)
  {
    hide Placed, Called, NoGhosts;
    var l := w.peers[c].loop;
    assert TimedLoop(w, l);
    if w.loops[l].left > 0 { assert w.queues[l][..w.loops[l].left][0] == w.queues[l][0]; }
  }

  /** Some way of going on without a further hazard ends at an assertion that fails. */
  ghost predicate CanFail(w: World) {
    exists steps, bad :: Runs(w, steps) && Careful(w, steps) && Fails(Exec(w, steps), bad)
  }

  ghost predicate Fails(w: World, bad: Step) {
    Wired(w) && Runnable(w, bad) && !SourceAsserts(w, bad)
  }

  lemma FailsNow(w: World, bad: Step)
    requires Fails(w, bad)
    ensures CanFail(w)
  {
    hide Fails;
    NoSteps(w);
    assert Runs(w, []) && Careful(w, []) && Fails(Exec(w, []), bad);
  }

  lemma FailsLater(w: World, step: Step)
    requires Wired(w) && Runnable(w, step) && !WatchHazard(w, step) && CanFail(ApplyStep(w, step))
    ensures CanFail(w)
  {
    hide ApplyStep, Runnable, WatchHazard, Wired, Fails, Runs, Exec, Careful;
    var steps, bad :| Runs(ApplyStep(w, step), steps) && Careful(ApplyStep(w, step), steps)
                      && Fails(Exec(ApplyStep(w, step), steps), bad);
    FirstStep(w, step, steps);
    assert Fails(Exec(w, [step] + steps), bad);
  }

  /** The loop polls, and the hang-up of a closed connection is reported. */
  lemma LurkingAtPoll(w: World, c: ConnId)
    requires Inv(w) && Lurking(w, c) && At(w, w.peers[c].loop, Polling)
    ensures CanFail(w)
  {
    hide CanFail, Inv, Ending;
    InvWired(w);
    var l := w.peers[c].loop;
    var w' := ApplyStep(w, Poll(l, {c}));
    assert Fails(w', CloseEvent(c));
    FailsNow(w', CloseEvent(c));
    FailsLater(w, Poll(l, {c}));
  }

  lemma {:induction false} LurkingFails(w: World, c: ConnId)
    requires Inv(w) && Lurking(w, c)
    ensures CanFail(w)
    decreases StepsLeft(w, w.peers[c].loop)
  {
    hide Inv, CanFail, Lurking, StepsLeft, ApplyStep, WatchHazard, Onward, BadClose;
    InvWired(w);
    LurkingHas(w, c);
    var l := w.peers[c].loop;
    if At(w, l, Polling) {
      LurkingAtPoll(w, c);
    } else {
      var step := OnwardStep(w, l);
      OnwardRuns(w, l, step);
      OnwardCareful(w, l, step);
      LurkingOn(w, c, step);
      LurkingFails(ApplyStep(w, step), c);
      FailsLater(w, step);
    }
  }

  lemma LurkingHas(w: World, c: ConnId)
    requires Wired(w) && Lurking(w, c)
    ensures c in w.peers && w.peers[c].loop in w.loops
  {
  }

  lemma OnwardRuns(w: World, l: LoopId, step: Step)
    requires Wired(w) && l in w.loops && Onward(w, l, step)
    ensures Runnable(w, step)
  {
  }

  lemma SlippingOn(w: World, c: ConnId, step: Step)
    requires Inv(w) && Slipping(w, c) && Onward(w, w.peers[c].loop, step)
    requires !(step.RunFront? && w.queues[step.l][0] == Destroyed(c))
    ensures Wired(ApplyStep(w, step)) && Slipping(ApplyStep(w, step), c)
    ensures ApplyStep(w, step).peers[c].loop == w.peers[c].loop
  {
    hide Placed, Called, NoGhosts, Phased, Timed, Run;
    var l := w.peers[c].loop;
    StepOrderly(w, step);
    match step
    case RunFront(_) => FrontKeepsEnding(w, l, c);
    case TakeBatch(_) => assert w.queues[l][..|w.queues[l]|] == w.queues[l];
    case StartRead(d) => StartKeepsEnding(w, d, c);
    case _ =>
  }

  lemma {:induction false} SlippingFails(w: World, c: ConnId)
    requires Inv(w) && Slipping(w, c)
    ensures CanFail(w)
    decreases StepsLeft(w, w.peers[c].loop)
  {
    hide Inv, CanFail, Slipping, StepsLeft, ApplyStep, WatchHazard, Onward, BadClose, Fails;
    InvWired(w);
    SlippingHas(w, c);
    var l := w.peers[c].loop;
    var step := OnwardStep(w, l);
    OnwardRuns(w, l, step);
    if step.RunFront? && w.queues[step.l][0] == Destroyed(c) {
      DestroyedFails(w, c, step);
      FailsNow(w, step);
    } else {
      OnwardCareful(w, l, step);
      SlippingOn(w, c, step);
      SlippingFails(ApplyStep(w, step), c);
      FailsLater(w, step);
    }
  }

  lemma SlippingHas(w: World, c: ConnId)
    requires Wired(w) && Slipping(w, c)
    ensures c in w.peers && w.peers[c].loop in w.loops && w.loops[w.peers[c].loop].phase != Polling
  {
  }

  lemma DestroyedFails(w: World, c: ConnId, step: Step)
    requires Wired(w) && Slipping(w, c) && Runnable(w, step) && step.RunFront? && w.queues[step.l][0] == Destroyed(c)
    ensures Fails(w, step)
  {
  }

  // ---------------------------------------------------------------- exactly the careful runs

  lemma LiveNotDestroyed(w: World, c: ConnId)
    requires Inv(w) && c in w.peers && Open(w.peers[c])
    ensures Destroyed(c) !in w.queues[w.peers[c].loop] && w.peers[c].registered
  {
    hide Placed, Called, NoGhosts, Timed;
    var ph :| InPhase(w, c, ph);
    CountMember(w.queues[w.peers[c].loop], Destroyed(c));
  }

  /** `disableAll` on a channel that epoll has set aside puts it back. */
  lemma CloseRevives(w: World, c: ConnId)
    requires Wired(w) && c in w.peers && w.poller == EpollLoop && !w.peers[c].watched
    requires Destroyed(c) !in w.queues[w.peers[c].loop]
    requires At(w, w.peers[c].loop, Running) ==> w.loops[w.peers[c].loop].left <= |w.queues[w.peers[c].loop]|
    requires At(w, w.peers[c].loop, Handling) ==> w.peers[c].loop != w.base
    ensures Wired(HandleCloseOf(w, c)) && Lurking(HandleCloseOf(w, c), c)
  {
    var l := w.peers[c].loop;
    var w' := HandleCloseOf(w, c);
    ClosedHere(w, c);
    if At(w, l, Running) { assert w'.queues[l][..w.loops[l].left] == w.queues[l][..w.loops[l].left]; }
  }

  lemma ForcedHazard(w: World, l: LoopId)
    requires Inv(w) && Tuned(w) && Runnable(w, RunFront(l)) && WatchHazard(w, RunFront(l))
    ensures var w' := ApplyStep(w, RunFront(l)); Wired(w') && Lurking(w', w.queues[l][0].c)
  {
    hide Placed, Called, NoGhosts, Timed, Phased, HandleCloseOf, Lurking;
    var c := w.queues[l][0].c;
    assert TunedConn(w, c);
    LiveNotDestroyed(w, c);
    HomeOfFront(w, l);
    LeftInQueue(w, l);
    PoppedWired(w, l);
    assert forall f | f in w.queues[l][1..] :: f in w.queues[l];
    CloseRevives(Popped(w, l), c);
  }

  lemma StaleHazard(w: World, c: ConnId)
    requires Inv(w) && Tuned(w) && Reported(w, c)
    requires w.peers[c].mask == NONE_EVENT && w.poller == EpollLoop && w.peers[c].loop != w.base
    ensures Open(w.peers[c]) && Wired(Dispatched(w, c))
    ensures Wired(HandleCloseOf(Dispatched(w, c), c)) && Lurking(HandleCloseOf(Dispatched(w, c), c), c)
  {
    hide Placed, Called, NoGhosts, Timed, Phased, HandleCloseOf, Lurking;
    assert TunedConn(w, c);
    LiveNotDestroyed(w, c);
    CloseRevives(Dispatched(w, c), c);
  }

  lemma StopHazard(w: World, c: ConnId)
    requires Inv(w) && Tuned(w) && Enabled(w, StopRead(c))
    requires !Open(w.peers[c]) && w.peers[c].reading && w.poller == EpollLoop && !Ending(w, c)
    ensures var w' := WithPeer(w, c, StoppedPeer(w.poller, w.peers[c])); Wired(w') && Lurking(w', c)
  {
    hide Placed, Called, NoGhosts, Timed, Phased;
    assert TunedConn(w, c);
    RegisteredIsClosed(w, c);
  }

  lemma StartHazard(w: World, c: ConnId)
    requires Inv(w) && Tuned(w) && Enabled(w, StartRead(c)) && !Open(w.peers[c])
    ensures var w' := WithPeer(w, c, StartedPeer(w.poller, w.peers[c]));
            Wired(w') && (Lurking(w', c) || Slipping(w', c))
  {
    hide Placed, Called, NoGhosts, Timed, Phased;
    assert TunedConn(w, c);
    RegisteredIsClosed(w, c);
    assert P.NONE_EVENT.read == false;
  }

  /** Every hazard can come to a failing assertion without another one. */
  lemma HazardFails(w: World, step: Step)
    requires Inv(w) && Tuned(w) && Runnable(w, step) && WatchHazard(w, step)
    ensures CanFail(ApplyStep(w, step))
  {
    hide Orderly, Phased, Tuned, CanFail, Lurking, Slipping, HandleCloseOf, Ending;
    InvWired(w);
    match step {
      case RunFront(l) =>
        StepKeepsInv(w, step);
        ForcedHazard(w, l);
        LurkingFails(ApplyStep(w, step), w.queues[l][0].c);
      case CloseEvent(c) =>
        StaleHazard(w, c);
        StepKeepsInv(w, step);
        LurkingFails(ApplyStep(w, step), c);
      case StopRead(c) =>
        StepKeepsInv(w, step);
        StopHazard(w, c);
        LurkingFails(ApplyStep(w, step), c);
      case StartRead(c) =>
        StepKeepsInv(w, step);
        StartHazard(w, c);
        if Lurking(ApplyStep(w, step), c) { LurkingFails(ApplyStep(w, step), c); }
        else { SlippingFails(ApplyStep(w, step), c); }
    }
  }

  lemma TunedIsSound(w: World)
    requires Inv(w) && Tuned(w)
    ensures !CanFail(w)
  {
    hide Inv, Tuned, Runs, Exec, Careful, SourceAsserts, Runnable;
    forall steps, bad | Runs(w, steps) && Careful(w, steps) ensures !Fails(Exec(w, steps), bad) {
      RunKeepsTuned(w, steps);
      var w' := Exec(w, steps);
      if Runnable(w', bad) {
        RunnableIsEnabled(w', bad);
        InvAsserts(w', bad);
      }
    }
  }

  /** One step on: an assertion can come to fail, with no further hazard, exactly after a hazard. */
  lemma StepSoundExactly(w: World, step: Step)
    requires Reachable(w) && Enabled(w, step)
    ensures Wired(w) && Runnable(w, step)
    ensures CanFail(ApplyStep(w, step)) <==> WatchHazard(w, step)
  {
    hide Reachable, Inv, Tuned, Enabled, WatchHazard, ApplyStep, CanFail, BadClose, Runnable;
    ReachableInv(w);
    NeverRefused(w, step);
    if WatchHazard(w, step) {
      HazardFails(w, step);
    } else {
      StepKeepsTuned(w, step);
      StepKeepsInv(w, step);
      TunedIsSound(ApplyStep(w, step));
    }
  }

  /** In no state of the run is a failing assertion within reach of careful steps. */
  ghost predicate AlwaysSound(w: World, steps: seq<Step>)
    requires Runs(w, steps)
    decreases |steps|
  {
    !CanFail(w) && (steps == [] || AlwaysSound(ApplyStep(w, steps[0]), steps[1..]))
  }

  lemma {:induction false} SoundExactly(w: World, steps: seq<Step>)
    requires Inv(w) && Tuned(w) && Runs(w, steps)
    ensures AlwaysSound(w, steps) <==> Careful(w, steps)
    decreases |steps|
  {
    hide Inv, Tuned, Enabled, WatchHazard, ApplyStep, CanFail, BadClose, Runnable, Wired;
    TunedIsSound(w);
    if steps != [] {
      var step := steps[0];
      if WatchHazard(w, step) {
        HazardFails(w, step);
        SoundNow(ApplyStep(w, step), steps[1..]);
      } else {
        RunnableIsEnabled(w, step);
        StepKeepsTuned(w, step);
        StepKeepsInv(w, step);
        SoundExactly(ApplyStep(w, step), steps[1..]);
      }
    }
  }

  lemma SoundNow(w: World, steps: seq<Step>)
    requires Runs(w, steps)
    ensures AlwaysSound(w, steps) ==> !CanFail(w)
  {
  }

  /** The runs in which no assertion ever comes within reach of failing are exactly the careful ones. */
  lemma CarefulExactly(poller: PollerKind, base: LoopId, loops: set<LoopId>, steps: seq<Step>)
    requires Runs(Start(poller, base, loops), steps)
    ensures AlwaysSound(Start(poller, base, loops), steps) <==> Careful(Start(poller, base, loops), steps)
  {
    hide Inv, Tuned, AlwaysSound, Careful, Runs;
    StartInv(poller, base, loops);
    StartTuned(poller, base, loops);
    SoundExactly(Start(poller, base, loops), steps);
  }

  // ---------------------------------------------------------------- who holds a connection

  predicate SharedFunctor(f: Functor, c: ConnId) {
    f.c == c && !f.ShutdownRaw?
  }

  /** The map, a functor that is not a raw pointer, run or not until its batch ends, or a thread inside a call. */
  ghost predicate Referenced(w: World, c: ConnId) {
    || c in w.connections
    || ShutdownRaw(c) in w.calls || ForceCloseInLoop(c) in w.calls
    || (exists l, f | l in w.queues && f in w.queues[l] :: SharedFunctor(f, c))
    || (exists l, f | l in w.loops && f in w.loops[l].held :: SharedFunctor(f, c))
  }

  lemma PhaseReferences(w: World, c: ConnId, ph: Phase)
    requires Wired(w) && c in w.peers && InPhase(w, c, ph) && ph != Gone
    ensures Referenced(w, c)
  {
    if ph == Erased {
      CountMember(w.queues[w.peers[c].loop], Destroyed(c));
      assert SharedFunctor(Destroyed(c), c);
    }
  }

  /**
    Until `connectDestroyed` has run something refers to the connection; so when the last
    reference goes, what the destructors assert is true.
   */
  lemma DestructorsAssert(w: World, c: ConnId)
    requires Reachable(w) && c in w.peers
    ensures Destroyed(c) !in w.ran ==> Referenced(w, c)
    ensures !Referenced(w, c) ==> w.peers[c].state == Disconnected && !w.peers[c].registered
                                  && w.peers[c].mask == NONE_EVENT
  {
    hide Reachable, Referenced, Ending;
    var ph := ExactlyOnePhase(w, c);
    ReachableInv(w);
    assert TunedConn(w, c);
    CountMember(w.ran, Destroyed(c));
    if ph != Gone { PhaseReferences(w, c, ph); }
  }

  // ---------------------------------------------------------------- the raw pointer of shutdown

  /** The part of a loop's queue that the batch under way has not taken. */
  function Untaken(w: World, l: LoopId): seq<Functor>
    requires Wired(w) && l in w.loops
  {
    if w.loops[l].left <= |w.queues[l]| then w.queues[l][w.loops[l].left..] else []
  }

  /**
    The server has let go of the connection, and nothing that holds it is to go into the next batch
    of its loop: no `connectDestroyed` or `forceCloseInLoop` is queued and not yet taken, and no
    thread is inside `forceClose`.
   */
  predicate Late(w: World, c: ConnId)
    requires Wired(w) && c in w.peers
  {
    && c !in w.connections && ForceCloseInLoop(c) !in w.calls
    && ForceCloseInLoop(c) !in Untaken(w, w.peers[c].loop) && Destroyed(c) !in Untaken(w, w.peers[c].loop)
  }

  /** The raw pointer of `shutdown` is queued too late. */
  predicate RawHazard(w: World, step: Step)
    requires Wired(w) && Runnable(w, step)
  {
    step.Push? && step.f.ShutdownRaw? && Late(w, step.f.c)
  }

  /**
    Something holds the connection when the pointer at i is used: a `forceClose` under way or queued
    behind the batch; for a pointer in the batch, a functor of the batch or an end yet to come; for
    one behind it, an end that is not in the batch and has not come.
   */
  ghost predicate Kept(q: seq<Functor>, it: Iteration, calls: multiset<Functor>, ran: seq<Functor>, i: nat)
    requires i < |q| && it.left <= |q|
  {
    var c := q[i].c;
    || ForceCloseInLoop(c) in calls || ForceCloseInLoop(c) in q[it.left..]
    || if i < it.left then Destroyed(c) in it.held || ForceCloseInLoop(c) in it.held || Destroyed(c) !in ran
       else Destroyed(c) !in ran && Destroyed(c) !in q[..it.left]
  }

  ghost predicate QueueSafe(q: seq<Functor>, it: Iteration, calls: multiset<Functor>, ran: seq<Functor>) {
    it.left <= |q| && forall i | 0 <= i < |q| && q[i].ShutdownRaw? :: Kept(q, it, calls, ran, i)
  }

  ghost predicate RawSafe(w: World)
    requires Wired(w)
  {
    forall l | l in w.loops :: QueueSafe(w.queues[l], w.loops[l], w.calls, w.ran)
  }

  lemma SafePush(q: seq<Functor>, it: Iteration, calls: multiset<Functor>, ran: seq<Functor>, f: Functor)
    requires QueueSafe(q, it, calls, ran)
    requires f.ShutdownRaw? ==>
               || ForceCloseInLoop(f.c) in calls || ForceCloseInLoop(f.c) in q[it.left..]
               || (Destroyed(f.c) !in q[..it.left] && Destroyed(f.c) !in ran)
    ensures QueueSafe(q + [f], it, calls, ran)
  {
    var q' := q + [f];
    assert q'[..it.left] == q[..it.left] && q'[it.left..] == q[it.left..] + [f];
    forall i | 0 <= i < |q'| && q'[i].ShutdownRaw? ensures Kept(q', it, calls, ran, i) {
      if i < |q| { assert Kept(q, it, calls, ran, i); }
    }
  }

  /** The functor of a `forceClose` goes behind the batch. */
  lemma SafePushCall(q: seq<Functor>, it: Iteration, calls: multiset<Functor>, ran: seq<Functor>, c: ConnId)
    requires QueueSafe(q, it, calls, ran)
    ensures QueueSafe(q + [ForceCloseInLoop(c)], it, calls - multiset{ForceCloseInLoop(c)}, ran)
  {
    var f := ForceCloseInLoop(c);
    var q' := q + [f];
    assert q'[..it.left] == q[..it.left] && q'[it.left..] == q[it.left..] + [f];
    forall i | 0 <= i < |q'| && q'[i].ShutdownRaw? ensures Kept(q', it, calls - multiset{f}, ran, i) {
      assert Kept(q, it, calls, ran, i);
    }
  }

  lemma SafePop(q: seq<Functor>, it: Iteration, calls: multiset<Functor>, ran: seq<Functor>, ran': seq<Functor>)
    requires QueueSafe(q, it, calls, ran) && 0 < it.left && q[0] in it.held && (ran' == ran || ran' == ran + [q[0]])
    ensures QueueSafe(q[1..], it.(left := it.left - 1), calls, ran')
  {
    var q', n := q[1..], it.left - 1;
    assert q[..it.left] == [q[0]] + q'[..n] && q[it.left..] == q'[n..];
    forall i | 0 <= i < |q'| && q'[i].ShutdownRaw? ensures Kept(q', it.(left := n), calls, ran', i) {
      assert q'[i] == q[i + 1] && Kept(q, it, calls, ran, i + 1);
    }
  }

  /** Queues without a pointer to the connection do not mind what has been executed for it. */
  lemma SafeRan(q: seq<Functor>, it: Iteration, calls: multiset<Functor>, ran: seq<Functor>, f: Functor)
    requires QueueSafe(q, it, calls, ran) && (f.Destroyed? ==> ShutdownRaw(f.c) !in q)
    ensures QueueSafe(q, it, calls, ran + [f])
  {
    forall i | 0 <= i < |q| && q[i].ShutdownRaw? ensures Kept(q, it, calls, ran + [f], i) {
      assert Kept(q, it, calls, ran, i) && q[i] in q;
    }
  }

  lemma SafeMoreCalls(q: seq<Functor>, it: Iteration, calls: multiset<Functor>, ran: seq<Functor>,
                      calls': multiset<Functor>)
    requires QueueSafe(q, it, calls, ran)
    requires forall c: ConnId | ForceCloseInLoop(c) in calls :: ForceCloseInLoop(c) in calls'
    ensures QueueSafe(q, it, calls', ran)
  {
    forall i | 0 <= i < |q| && q[i].ShutdownRaw? ensures Kept(q, it, calls', ran, i) {
      assert Kept(q, it, calls, ran, i);
    }
  }

  /** Between batches, taking everything that is queued or nothing changes nothing. */
  lemma SafeBetween(q: seq<Functor>, it: Iteration, calls: multiset<Functor>, ran: seq<Functor>, it': Iteration)
    requires QueueSafe(q, it, calls, ran) && it.left == 0
    requires it'.left == 0 || (it'.left == |q| && it'.held == set f | f in q)
    ensures QueueSafe(q, it', calls, ran)
  {
    assert q[0..] == q && q[..0] == [] && q[|q|..] == [];
    forall i | 0 <= i < |q| && q[i].ShutdownRaw? ensures Kept(q, it', calls, ran, i) {
      assert Kept(q, it, calls, ran, i);
    }
  }

  lemma RawLoop(w: World, l: LoopId, it: Iteration)
    requires Wired(w) && RawSafe(w) && l in w.loops && QueueSafe(w.queues[l], it, w.calls, w.ran)
    ensures Wired(WithLoop(w, l, it)) && RawSafe(WithLoop(w, l, it))
  {
    hide QueueSafe;
  }

  lemma RawQueue(w: World, l: LoopId, f: Functor)
    requires Wired(w) && RawSafe(w) && l in w.queues && !f.ShutdownRaw?
    ensures Wired(QueueInLoop(w, l, f)) && RawSafe(QueueInLoop(w, l, f))
  {
    hide QueueSafe;
    assert QueueSafe(w.queues[l], w.loops[l], w.calls, w.ran);
    SafePush(w.queues[l], w.loops[l], w.calls, w.ran, f);
  }

  lemma RawRan(w: World, f: Functor)
    requires Wired(w) && RawSafe(w) && !f.Destroyed?
    ensures RawSafe(w.(ran := w.ran + [f]))
  {
    hide QueueSafe;
    forall l | l in w.loops ensures QueueSafe(w.queues[l], w.loops[l], w.calls, w.ran + [f]) {
      SafeRan(w.queues[l], w.loops[l], w.calls, w.ran, f);
    }
  }

  lemma RawRemoved(w: World, c: ConnId)
    requires Wired(w) && RawSafe(w) && c in w.peers
    ensures Wired(RemoveConnectionInLoop(w, c)) && RawSafe(RemoveConnectionInLoop(w, c))
  {
    hide QueueSafe;
    RawRan(w, RemoveInLoop(c));
    RawQueue(w.(connections := w.connections - {c}, ran := w.ran + [RemoveInLoop(c)]), w.peers[c].loop, Destroyed(c));
  }

  lemma RawClosed(w: World, c: ConnId)
    requires Wired(w) && RawSafe(w) && c in w.peers
    ensures Wired(HandleCloseOf(w, c)) && RawSafe(HandleCloseOf(w, c))
  {
    hide QueueSafe;
    EstablishedLoop(w.poller, w.peers[c]);
    var w1 := WithPeer(w, c, ClosedPeer(w.poller, w.peers[c]));
    if w.peers[c].loop == w.base { RawRemoved(w1, c); } else { RawQueue(w1, w.base, RemoveInLoop(c)); }
  }

  lemma RawPop(w: World, l: LoopId, ran: seq<Functor>)
    requires Orderly(w) && RawSafe(w) && l in w.queues && w.queues[l] != [] && w.loops[l].left > 0
    requires ran == w.ran || (w.queues[l][0].Destroyed? && ran == w.ran + [w.queues[l][0]])
    ensures Wired(Popped(w, l)) && RawSafe(Popped(w, l).(ran := ran))
  {
    hide QueueSafe, Called, NoGhosts;
    var f := w.queues[l][0];
    assert TimedLoop(w, l) && f in w.queues[l];
    PoppedWired(w, l);
    assert QueueSafe(w.queues[l], w.loops[l], w.calls, w.ran);
    SafePop(w.queues[l], w.loops[l], w.calls, w.ran, ran);
    forall k | k in w.loops && k != l ensures QueueSafe(w.queues[k], w.loops[k], w.calls, ran) {
      assert QueueSafe(w.queues[k], w.loops[k], w.calls, w.ran);
      if ran != w.ran {
        assert ShutdownRaw(f.c) !in w.queues[k];
        SafeRan(w.queues[k], w.loops[k], w.calls, w.ran, f);
      }
    }
  }

  lemma RawRunFront(w: World, l: LoopId)
    requires Orderly(w) && RawSafe(w) && Runnable(w, RunFront(l))
    ensures var w' := ApplyStep(w, RunFront(l)); Wired(w') && RawSafe(w')
  {
    hide QueueSafe, Placed, Called, NoGhosts, Timed;
    var f, w1 := w.queues[l][0], Popped(w, l);
    StepOrderly(w, RunFront(l));
    RawPop(w, l, w.ran);
    match f
    case Established(c) => RawRan(w1, f);
    case RemoveInLoop(c) => RawRemoved(w1, c);
    case Destroyed(c) => RawPop(w, l, w.ran + [f]);
    case ForceCloseInLoop(c) => if Open(w1.peers[c]) { RawClosed(w1, c); }
    case ShutdownRaw(c) =>
  }

  lemma RawForceClose(w: World, f: Functor)
    requires Orderly(w) && RawSafe(w) && f.c in w.peers && f.ForceCloseInLoop?
    ensures Wired(Pushed(w, f)) && RawSafe(Pushed(w, f))
  {
    hide Placed, Called, NoGhosts, Timed, QueueSafe;
    var l, calls := w.peers[f.c].loop, w.calls - multiset{f};
    forall k | k in w.loops && k != l ensures QueueSafe(w.queues[k], w.loops[k], calls, w.ran) { OtherQueue(w, f, k); }
    assert QueueSafe(w.queues[l], w.loops[l], w.calls, w.ran);
    SafePushCall(w.queues[l], w.loops[l], w.calls, w.ran, f.c);
  }

  lemma OtherQueue(w: World, f: Functor, k: LoopId)
    requires Orderly(w) && RawSafe(w) && f.ForceCloseInLoop? && f.c in w.peers && k in w.loops && k != w.peers[f.c].loop
    ensures QueueSafe(w.queues[k], w.loops[k], w.calls - multiset{f}, w.ran)
  {
    hide Called, NoGhosts, Timed;
    var q := w.queues[k];
    assert QueueSafe(q, w.loops[k], w.calls, w.ran);
    forall i | 0 <= i < |q| && q[i].ShutdownRaw? ensures Kept(q, w.loops[k], w.calls - multiset{f}, w.ran, i) {
      assert q[i] in q && Kept(q, w.loops[k], w.calls, w.ran, i);
    }
  }

  /** While the server has the connection, or its end is queued and not taken, that end is not near. */
  lemma EndIsFar(w: World, c: ConnId)
    requires Inv(w) && c in w.peers
    requires c in w.connections || Destroyed(c) in Untaken(w, w.peers[c].loop)
    ensures var l := w.peers[c].loop;
            && w.loops[l].left <= |w.queues[l]| && Destroyed(c) !in w.queues[l][..w.loops[l].left]
            && Destroyed(c) !in w.ran
  {
    hide Placed, Called, NoGhosts, Timed;
    var l := w.peers[c].loop;
    LeftInQueue(w, l);
    var ph :| InPhase(w, c, ph);
    var q, n := w.queues[l], w.loops[l].left;
    assert q == q[..n] + q[n..];
    CountMember(q[..n], Destroyed(c));
    CountMember(q[n..], Destroyed(c));
    CountMember(w.ran, Destroyed(c));
  }

  /** A pointer that is queued in time is kept, and so are all others. */
  lemma RawShutdown(w: World, f: Functor)
    requires Inv(w) && RawSafe(w) && f.c in w.peers && f.ShutdownRaw? && !Late(w, f.c)
    ensures Wired(Pushed(w, f)) && RawSafe(Pushed(w, f))
  {
    hide Placed, Called, NoGhosts, Timed, QueueSafe, Phased;
    var l, calls := w.peers[f.c].loop, w.calls - multiset{f};
    forall k | k in w.loops ensures QueueSafe(w.queues[k], w.loops[k], calls, w.ran) {
      SafeMoreCalls(w.queues[k], w.loops[k], w.calls, w.ran, calls);
    }
    LeftInQueue(w, l);
    if f.c in w.connections || Destroyed(f.c) in Untaken(w, l) { EndIsFar(w, f.c); }
    SafePush(w.queues[l], w.loops[l], calls, w.ran, f);
  }

  lemma RawMoreCalls(w: World, calls: multiset<Functor>)
    requires Wired(w) && RawSafe(w) && w.calls <= calls
    ensures RawSafe(w.(calls := calls))
  {
    hide QueueSafe;
    forall l | l in w.loops ensures QueueSafe(w.queues[l], w.loops[l], calls, w.ran) {
      SafeMoreCalls(w.queues[l], w.loops[l], w.calls, w.ran, calls);
    }
  }

  lemma RawIteration(w: World, step: Step)
    requires Orderly(w) && RawSafe(w) && Runnable(w, step)
    requires step.Poll? || step.Dispatch? || step.TakeBatch? || step.EndBatch?
    ensures var w' := ApplyStep(w, step); Wired(w') && RawSafe(w')
  {
    hide Placed, Called, NoGhosts, QueueSafe, Kept;
    StepOrderly(w, step);
    var l := if step.Dispatch? then w.peers[step.c].loop else step.l;
    assert TimedLoop(w, l) && QueueSafe(w.queues[l], w.loops[l], w.calls, w.ran);
    var it := ApplyStep(w, step).loops[l];
    SafeBetween(w.queues[l], w.loops[l], w.calls, w.ran, it);
    RawLoop(w, l, it);
  }

  lemma RawPeer(w: World, c: ConnId, p: Peer)
    requires Wired(w) && RawSafe(w) && c in w.peers && p.loop == w.peers[c].loop
    ensures Wired(WithPeer(w, c, p)) && RawSafe(WithPeer(w, c, p))
  {
    hide QueueSafe;
  }

  lemma RawAccept(w: World, l: LoopId)
    requires Wired(w) && RawSafe(w) && l in w.queues
    ensures Wired(NewConnection(w, l)) && RawSafe(NewConnection(w, l))
  {
    hide QueueSafe;
    var c, w1 := w.nextConnId, Admitted(w, l);
    if l == w.base {
      EstablishedLoop(w.poller, w1.peers[c]);
      RawRan(WithPeer(w1, c, EstablishedPeer(w.poller, w1.peers[c])), Established(c));
    } else {
      RawQueue(w1, l, Established(c));
    }
  }

  lemma RawCall(w: World, c: ConnId, f: Functor)
    requires Wired(w) && RawSafe(w) && c in w.peers
    ensures Wired(Calling(w, c, f)) && RawSafe(Calling(w, c, f))
  {
    hide RawSafe;
    var p := w.peers[c].(state := Disconnecting);
    RawPeer(w, c, p);
    RawMoreCalls(WithPeer(w, c, p), w.calls + multiset{f});
  }

  lemma RawMask(w: World, step: Step)
    requires Wired(w) && RawSafe(w) && Runnable(w, step) && (step.SetWriting? || step.StopRead? || step.StartRead?)
    ensures var w' := ApplyStep(w, step); Wired(w') && RawSafe(w')
  {
    hide RawSafe, Updated, StoppedPeer, StartedPeer;
    match step
    case SetWriting(c, on) =>
      Unmoved(w.poller, w.peers[c], on);
      RawPeer(w, c, Updated(w.poller, w.peers[c], w.peers[c].mask.(write := on)));
    case StopRead(c) =>
      Unmoved(w.poller, w.peers[c], true);
      RawPeer(w, c, StoppedPeer(w.poller, w.peers[c]));
    case StartRead(c) =>
      Unmoved(w.poller, w.peers[c], true);
      RawPeer(w, c, StartedPeer(w.poller, w.peers[c]));
  }

  lemma RawCloseEvent(w: World, c: ConnId)
    requires Orderly(w) && RawSafe(w) && Reported(w, c)
    ensures Wired(Dispatched(w, c))
    ensures Wired(HandleCloseOf(Dispatched(w, c), c)) && RawSafe(HandleCloseOf(Dispatched(w, c), c))
  {
    hide RawSafe, Placed, Called, NoGhosts, Timed, HandleCloseOf;
    RawIteration(w, Dispatch(c));
    RawClosed(Dispatched(w, c), c);
  }

  lemma StepKeepsRaw(w: World, step: Step)
    requires Inv(w) && RawSafe(w) && Runnable(w, step) && !RawHazard(w, step)
    ensures var w' := ApplyStep(w, step); Wired(w') && RawSafe(w')
  {
    hide RawSafe, Orderly, Phased, Late, Updated, StoppedPeer, StartedPeer, NewConnection, HandleCloseOf, Run, Pushed,
      Popped;
    InvWired(w);
    match step
    case Accept(l) => RawAccept(w, l);
    case RunFront(l) => RawRunFront(w, l);
    case CloseEvent(c) => RawCloseEvent(w, c);
    case ShutdownCall(c, inLoop) =>
      RawPeer(w, c, w.peers[c].(state := Disconnecting));
      RawCall(w, c, ShutdownRaw(c));
    case ForceClose(c) => RawCall(w, c, ForceCloseInLoop(c));
    case Push(f) => RawPush(w, f);
    case SetWriting(_, _) => RawMask(w, step);
    case StopRead(_) => RawMask(w, step);
    case StartRead(_) => RawMask(w, step);
    case _ => RawIteration(w, step);
  }

  lemma RawPush(w: World, f: Functor)
    requires Inv(w) && RawSafe(w) && f in w.calls && f.c in w.peers && !(f.ShutdownRaw? && Late(w, f.c))
    ensures Wired(Pushed(w, f)) && RawSafe(Pushed(w, f))
  {
    hide RawSafe, Placed, NoGhosts, Timed, Phased, Late;
    if f.ShutdownRaw? { RawShutdown(w, f); } else { RawForceClose(w, f); }
  }

  /** No step of the run queues the raw pointer too late. */
  ghost predicate Prompt(w: World, steps: seq<Step>)
    requires Runs(w, steps)
    decreases |steps|
  {
    steps == [] || (!RawHazard(w, steps[0]) && Prompt(ApplyStep(w, steps[0]), steps[1..]))
  }

  lemma {:induction false} RunKeepsRaw(w: World, steps: seq<Step>)
    requires Inv(w) && Tuned(w) && RawSafe(w) && Runs(w, steps) && Careful(w, steps) && Prompt(w, steps)
    ensures Inv(Exec(w, steps)) && Tuned(Exec(w, steps)) && RawSafe(Exec(w, steps))
    decreases |steps|
  {
    hide Inv, Tuned, ApplyStep, WatchHazard, RawHazard, RawSafe, BadClose, Wired, Runnable;
    if steps != [] {
      RunnableIsEnabled(w, steps[0]);
      StepKeepsTuned(w, steps[0]);
      StepKeepsInv(w, steps[0]);
      StepKeepsRaw(w, steps[0]);
      RunKeepsRaw(ApplyStep(w, steps[0]), steps[1..]);
    }
  }

  /** A loop is about to use the raw pointer of a connection that nothing refers to. */
  ghost predicate Dangles(w: World) {
    exists l | l in w.queues && At(w, l, Running) && w.loops[l].left > 0 && w.queues[l] != []
               && w.queues[l][0].ShutdownRaw? :: !Referenced(w, w.queues[l][0].c)
  }

  lemma RawPointerAlive(w: World)
    requires Inv(w) && RawSafe(w)
    ensures !Dangles(w)
  {
    hide InPhase, Called, NoGhosts, Phased, Referenced;
    forall l | l in w.queues && At(w, l, Running) && w.loops[l].left > 0 && w.queues[l] != []
               && w.queues[l][0].ShutdownRaw?
      ensures Referenced(w, w.queues[l][0].c)
    {
      FrontKept(w, l);
    }
  }

  lemma FrontKept(w: World, l: LoopId)
    requires Inv(w) && RawSafe(w) && l in w.queues && w.queues[l] != [] && w.loops[l].left > 0
    requires w.queues[l][0].ShutdownRaw?
    ensures Referenced(w, w.queues[l][0].c)
  {
    hide InPhase, Called, NoGhosts, Phased, Timed;
    var q := w.queues[l];
    var c := q[0].c;
    assert QueueSafe(q, w.loops[l], w.calls, w.ran) && Kept(q, w.loops[l], w.calls, w.ran, 0);
    assert SharedFunctor(ForceCloseInLoop(c), c) && SharedFunctor(Destroyed(c), c);
    assert q[0] in q;
    if ForceCloseInLoop(c) in q[w.loops[l].left..] {
      assert ForceCloseInLoop(c) in w.queues[l];
    } else if Destroyed(c) !in w.ran {
      NotGone(w, c);
    }
  }

  lemma NotGone(w: World, c: ConnId)
    requires Inv(w) && c in w.peers && Destroyed(c) !in w.ran
    ensures Referenced(w, c)
  {
    hide Placed, Called, NoGhosts, Timed, Referenced;
    var ph :| InPhase(w, c, ph);
    CountMember(w.ran, Destroyed(c));
    PhaseReferences(w, c, ph);
  }

  // ---------------------------------------------------------------- from a late push to a dangling pointer

  /** Nothing will hold c but what its loop's batch under way holds, and perhaps the base loop's. */
  ghost predicate Alone(w: World, c: ConnId) {
    && Wired(w) && c in w.peers && w.peers[c].state == Disconnected && c !in w.connections
    && ShutdownRaw(c) !in w.calls && ForceCloseInLoop(c) !in w.calls && RemoveInLoop(c) !in w.queues[w.base]
  }

  /** The pointer is queued behind the batch under way, and nothing that is queued there holds c. */
  ghost predicate Behind(w: World, c: ConnId, i: nat)
    requires Wired(w) && c in w.peers
  {
    var l := w.peers[c].loop;
    w.loops[l].left <= i < |w.queues[l]| && OnlyRaw(w.queues[l], w.loops[l].left, c, i)
  }

  ghost predicate OnlyRaw(q: seq<Functor>, from: nat, c: ConnId, i: nat)
    requires from <= i < |q|
  {
    q[i] == ShutdownRaw(c) && forall j | from <= j < |q| :: !SharedFunctor(q[j], c)
  }

  /** The base loop's batch does not hold c either. */
  predicate BaseClear(w: World, c: ConnId)
    requires Wired(w) && c in w.peers
  {
    w.peers[c].loop != w.base ==> forall f | f in w.loops[w.base].held :: f.c != c
  }

  /** The pointer is in the batch under way, and nothing that is left or held there holds c. */
  ghost predicate Inside(w: World, c: ConnId, i: nat)
    requires Wired(w) && c in w.peers
  {
    var l := w.peers[c].loop;
    && At(w, l, Running) && i < w.loops[l].left <= |w.queues[l]| && OnlyRaw(w.queues[l], 0, c, i)
    && forall f | f in w.loops[l].held :: !SharedFunctor(f, c)
  }

  lemma OnlyRawLonger(q: seq<Functor>, q': seq<Functor>, from: nat, c: ConnId, i: nat)
    requires from <= i < |q| && OnlyRaw(q, from, c, i) && q <= q' && forall j | |q| <= j < |q'| :: q'[j].c != c
    ensures OnlyRaw(q', from, c, i)
  {
  }

  lemma OnlyRawPop(q: seq<Functor>, from: nat, c: ConnId, i: nat)
    requires 0 < from <= i < |q| && OnlyRaw(q, from, c, i)
    ensures OnlyRaw(q[1..], from - 1, c, i - 1)
  {
  }

  /** Running a functor of a closed connection, other than its removal, queues nothing. */
  lemma RunClosed(w: World, f: Functor)
    requires Wired(w) && f.c in w.peers && w.peers[f.c].state == Disconnected && !f.Established? && !f.RemoveInLoop?
    ensures var w' := Run(w, f);
            && w'.calls == w.calls && w'.base == w.base && w'.connections == w.connections && w'.queues == w.queues
            && w'.loops == w.loops && w'.peers.Keys == w.peers.Keys
            && w'.peers[f.c].loop == w.peers[f.c].loop && w'.peers[f.c].state == Disconnected
  {
  }

  /** What the front functor of loop k does as far as a closed connection c can tell. */
  lemma FrontLeaves(w: World, k: LoopId, c: ConnId)
    requires Inv(w) && Alone(w, c) && Runnable(w, RunFront(k))
    ensures Wired(Popped(w, k)) && var w1, w' := Popped(w, k), Run(Popped(w, k), w.queues[k][0]);
            && Alone(w', c) && w'.peers[c].loop == w.peers[c].loop && w'.loops == w1.loops && w'.base == w.base
            && forall l | l in w1.queues :: Grown(w1.queues[l], w'.queues[l], c)
  {
    hide Placed, Called, NoGhosts, Timed, Phased, InPhase, Run, Grown;
    var f, w1 := w.queues[k][0], Popped(w, k);
    var w' := Run(w1, f);
    PoppedWired(w, k);
    StepOrderly(w, RunFront(k));
    PoppedNoRemoval(w, k, c);
    if f.c == c {
      NoStartOrRemoval(w, k, c);
      RunClosed(w1, f);
      forall l | l in w1.queues ensures Grown(w1.queues[l], w'.queues[l], c) { GrownSame(w1.queues[l], c); }
    } else {
      RunPushes(w1, f);
      forall l | l in w1.queues ensures Grown(w1.queues[l], w'.queues[l], c) { AboutGrown(w1, w', f.c, l, c); }
      GrownNoRemoval(w1, w', c);
      AboutOthers(w1, w', f.c, c);
      AboutRest(w1, w', f.c);
    }
  }

  /** Only functors of other connections are added. */
  ghost predicate Grown(q: seq<Functor>, q': seq<Functor>, c: ConnId) {
    q <= q' && forall j | |q| <= j < |q'| :: q'[j].c != c
  }

  lemma GrownSame(q: seq<Functor>, c: ConnId)
    ensures Grown(q, q, c)
  {
  }

  lemma AboutGrown(w: World, w': World, d: ConnId, l: LoopId, c: ConnId)
    requires OnlyAbout(w, w', d) && l in w.queues && d != c
    ensures Grown(w.queues[l], w'.queues[l], c)
  {
    assert Extends(w.queues[l], w'.queues[l], d);
  }

  lemma AboutRest(w: World, w': World, d: ConnId)
    requires OnlyAbout(w, w', d)
    ensures w'.calls == w.calls && w'.base == w.base && w'.loops == w.loops && w'.connections <= w.connections
    ensures w'.queues.Keys == w.queues.Keys
  {
  }

  lemma PoppedNoRemoval(w: World, k: LoopId, c: ConnId)
    requires Wired(w) && k in w.queues && w.queues[k] != [] && w.loops[k].left > 0
    requires RemoveInLoop(c) !in w.queues[w.base]
    ensures RemoveInLoop(c) !in Popped(w, k).queues[w.base]
  {
    assert forall f | f in w.queues[k][1..] :: f in w.queues[k];
  }

  lemma GrownNoRemoval(w: World, w': World, c: ConnId)
    requires w.base in w.queues && w.base in w'.queues && Grown(w.queues[w.base], w'.queues[w.base], c)
    requires RemoveInLoop(c) !in w.queues[w.base]
    ensures RemoveInLoop(c) !in w'.queues[w.base]
  {
    var q, q' := w.queues[w.base], w'.queues[w.base];
    assert forall j | 0 <= j < |q| :: q'[j] == q[j] && q[j] in q;
  }

  lemma NoStartOrRemoval(w: World, k: LoopId, c: ConnId)
    requires Inv(w) && Alone(w, c) && k in w.queues && w.queues[k] != [] && w.queues[k][0].c == c
    ensures !w.queues[k][0].Established? && !w.queues[k][0].RemoveInLoop?
  {
    hide Called, NoGhosts, Timed, Phased, InPhase;
    assert w.queues[k][0] in w.queues[k];
    if w.queues[k][0].Established? {
      FrontPhase(w, k, Accepted);
      AcceptedIsConnecting(w, c);
    }
  }

  /** Some way of going on without any further hazard leads to the use of a pointer to nothing. */
  ghost predicate CanDangle(w: World) {
    exists steps :: Runs(w, steps) && Careful(w, steps) && Prompt(w, steps) && Dangles(Exec(w, steps))
  }

  lemma DanglesNow(w: World)
    requires Dangles(w)
    ensures CanDangle(w)
  {
    hide Dangles;
    assert Runs(w, []) && Careful(w, []) && Prompt(w, []) && Exec(w, []) == w;
  }

  lemma PromptFirst(w: World, a: Step, rest: seq<Step>)
    requires Wired(w) && Runnable(w, a) && Runs(ApplyStep(w, a), rest) && Runs(w, [a] + rest)
    ensures Prompt(w, [a] + rest) <==> !RawHazard(w, a) && Prompt(ApplyStep(w, a), rest)
  {
    hide ApplyStep, Runnable, RawHazard, Wired;
    assert ([a] + rest)[1..] == rest;
  }

  lemma DanglesLater(w: World, step: Step)
    requires Wired(w) && Runnable(w, step) && !WatchHazard(w, step) && !step.Push? && CanDangle(ApplyStep(w, step))
    ensures CanDangle(w)
  {
    hide ApplyStep, Runnable, WatchHazard, Wired, Dangles, Runs, Exec, Careful, Prompt;
    var w1 := ApplyStep(w, step);
    var steps :| Runs(w1, steps) && Careful(w1, steps) && Prompt(w1, steps) && Dangles(Exec(w1, steps));
    FirstStep(w, step, steps);
    PromptFirst(w, step, steps);
    assert Dangles(Exec(w, [step] + steps));
  }

  lemma OnwardNoPush(w: World, l: LoopId, step: Step)
    requires Wired(w) && l in w.loops && Onward(w, l, step)
    ensures !step.Push? && Runnable(w, step)
  {
  }

  lemma StartLeaves(w: World, d: ConnId, c: ConnId)
    requires Alone(w, c) && d in w.peers && Open(w.peers[d])
    ensures var w' := WithPeer(w, d, StartedPeer(w.poller, w.peers[d]));
            Alone(w', c) && w'.peers[c] == w.peers[c]
  {
    Unmoved(w.poller, w.peers[d], true);
  }

  /** The base loop goes on with its iteration. */
  lemma BaseOn(w: World, c: ConnId, i: nat, step: Step)
    requires Inv(w) && Alone(w, c) && Behind(w, c, i) && w.peers[c].loop != w.base && Onward(w, w.base, step)
    ensures var w' := ApplyStep(w, step);
            && Wired(w') && Alone(w', c) && Behind(w', c, i) && w'.base == w.base
            && w'.peers[c].loop == w.peers[c].loop
  {
    hide Placed, Called, NoGhosts, Timed, Phased, Run, OnlyRaw, Ending;
    StepOrderly(w, step);
    var l := w.peers[c].loop;
    match step
    case RunFront(_) =>
      FrontLeaves(w, w.base, c);
      var w' := ApplyStep(w, step);
      assert Grown(w.queues[l], w'.queues[l], c);
      OnlyRawLonger(w.queues[l], w'.queues[l], w.loops[l].left, c, i);
    case StartRead(d) => StartLeaves(w, d, c);
    case _ =>
  }

  lemma PollingIsClear(w: World, c: ConnId)
    requires Orderly(w) && c in w.peers && At(w, w.base, Polling)
    ensures BaseClear(w, c)
  {
    hide Placed, Called, NoGhosts;
    assert TimedLoop(w, w.base);
  }

  /** The connection's loop goes on with its iteration, up to the next batch. */
  lemma OwnOn(w: World, c: ConnId, i: nat, step: Step) returns (i': nat)
    requires Inv(w) && Alone(w, c) && Behind(w, c, i) && BaseClear(w, c)
    requires Onward(w, w.peers[c].loop, step) && !step.TakeBatch?
    ensures var w' := ApplyStep(w, step);
            && Wired(w') && Alone(w', c) && Behind(w', c, i') && BaseClear(w', c)
            && w'.peers[c].loop == w.peers[c].loop
  {
    hide Placed, Called, NoGhosts, Timed, Phased, Run, OnlyRaw, Ending;
    StepOrderly(w, step);
    var l := w.peers[c].loop;
    i' := i;
    match step {
      case RunFront(_) =>
        FrontLeaves(w, l, c);
        var w1, w' := Popped(w, l), ApplyStep(w, step);
        OnlyRawPop(w.queues[l], w.loops[l].left, c, i);
        assert Grown(w1.queues[l], w'.queues[l], c);
        OnlyRawLonger(w1.queues[l], w'.queues[l], w.loops[l].left - 1, c, i - 1);
        i' := i - 1;
      case StartRead(d) => StartLeaves(w, d, c);
      case _ =>
    }
  }

  /** The batch with the pointer is taken. */
  lemma Takes(w: World, c: ConnId, i: nat)
    requires Inv(w) && Alone(w, c) && Behind(w, c, i) && BaseClear(w, c)
    requires Onward(w, w.peers[c].loop, TakeBatch(w.peers[c].loop))
    ensures var w' := ApplyStep(w, TakeBatch(w.peers[c].loop));
            Wired(w') && Alone(w', c) && Inside(w', c, i) && BaseClear(w', c)
  {
    hide Placed, Called, NoGhosts, Phased, Ending;
    var l := w.peers[c].loop;
    assert TimedLoop(w, l);
  }

  lemma InsideOn(w: World, c: ConnId, i: nat, step: Step) returns (i': nat)
    requires Inv(w) && Alone(w, c) && Inside(w, c, i) && i > 0 && BaseClear(w, c) && Onward(w, w.peers[c].loop, step)
    ensures var w' := ApplyStep(w, step);
            && Wired(w') && Alone(w', c) && Inside(w', c, i') && BaseClear(w', c)
            && w'.peers[c].loop == w.peers[c].loop
  {
    hide Placed, Called, NoGhosts, Timed, Phased, Run, OnlyRaw, Ending;
    StepOrderly(w, step);
    var l := w.peers[c].loop;
    i' := i;
    match step {
      case RunFront(_) =>
        FrontLeaves(w, l, c);
        var w1, w' := Popped(w, l), ApplyStep(w, step);
        OnlyRawShift(w.queues[l], c, i);
        assert Grown(w1.queues[l], w'.queues[l], c);
        OnlyRawLonger(w1.queues[l], w'.queues[l], 0, c, i - 1);
        i' := i - 1;
      case StartRead(d) => StartLeaves(w, d, c);
    }
  }

  lemma OnlyRawShift(q: seq<Functor>, c: ConnId, i: nat)
    requires 0 < i < |q| && OnlyRaw(q, 0, c, i)
    ensures OnlyRaw(q[1..], 0, c, i - 1)
  {
  }

  lemma InsideNow(w: World, c: ConnId)
    requires Inv(w) && Alone(w, c) && Inside(w, c, 0) && BaseClear(w, c)
    ensures Dangles(w)
  {
    hide Called, NoGhosts, Phased, Referenced;
    var l := w.peers[c].loop;
    forall k, f | k in w.queues && f in w.queues[k] ensures !SharedFunctor(f, c) { QueueForgets(w, c, k, f); }
    forall k, f | k in w.loops && f in w.loops[k].held ensures !SharedFunctor(f, c) { HeldForgets(w, c, k, f); }
    Unreferenced(w, c);
    assert w.queues[l][0] == ShutdownRaw(c);
  }

  lemma QueueForgets(w: World, c: ConnId, k: LoopId, f: Functor)
    requires Orderly(w) && Alone(w, c) && Inside(w, c, 0) && k in w.queues && f in w.queues[k]
    ensures !SharedFunctor(f, c)
  {
    hide Called, NoGhosts, Timed;
  }

  lemma HeldForgets(w: World, c: ConnId, k: LoopId, f: Functor)
    requires Orderly(w) && Alone(w, c) && Inside(w, c, 0) && BaseClear(w, c) && k in w.loops && f in w.loops[k].held
    ensures !SharedFunctor(f, c)
  {
    hide Placed, Called, NoGhosts, OnlyRaw;
    assert TimedLoop(w, k);
  }

  lemma Unreferenced(w: World, c: ConnId)
    requires Alone(w, c)
    requires forall l, f | l in w.queues && f in w.queues[l] :: !SharedFunctor(f, c)
    requires forall l, f | l in w.loops && f in w.loops[l].held :: !SharedFunctor(f, c)
    ensures !Referenced(w, c)
  {
  }

  lemma {:induction false} InsideDangles(w: World, c: ConnId, i: nat)
    requires Inv(w) && Alone(w, c) && Inside(w, c, i) && BaseClear(w, c)
    ensures CanDangle(w)
    decreases StepsLeft(w, w.peers[c].loop)
  {
    hide Inv, CanDangle, Dangles, Inside, StepsLeft, ApplyStep, WatchHazard, Onward, BadClose, BaseClear;
    var l := w.peers[c].loop;
    if i == 0 {
      InsideNow(w, c);
      DanglesNow(w);
    } else {
      InsideRuns(w, c, i);
      var step := OnwardStep(w, l);
      OnwardNoPush(w, l, step);
      OnwardCareful(w, l, step);
      var i' := InsideOn(w, c, i, step);
      InsideDangles(ApplyStep(w, step), c, i');
      DanglesLater(w, step);
    }
  }

  lemma InsideRuns(w: World, c: ConnId, i: nat)
    requires Wired(w) && c in w.peers && Inside(w, c, i)
    ensures w.peers[c].loop in w.loops && w.loops[w.peers[c].loop].phase == Running
  {
  }

  function Rank(phase: LoopPhase): nat {
    match phase case Running => 2 case Polling => 1 case Handling => 0
  }

  lemma {:induction false} BehindDangles(w: World, c: ConnId, i: nat)
    requires Inv(w) && Alone(w, c) && Behind(w, c, i) && BaseClear(w, c)
    ensures CanDangle(w)
    decreases Rank(w.loops[w.peers[c].loop].phase), StepsLeft(w, w.peers[c].loop)
  {
    hide Inv, CanDangle, Dangles, Behind, Inside, StepsLeft, ApplyStep, WatchHazard, BadClose, BaseClear;
    var l := w.peers[c].loop;
    if w.loops[l].phase == Polling {
      PollsAgain(w, c, i);
      BehindDangles(ApplyStep(w, Poll(l, {})), c, i);
      DanglesLater(w, Poll(l, {}));
    } else {
      var step := OnwardStep(w, l);
      OnwardNoPush(w, l, step);
      OnwardCareful(w, l, step);
      if step.TakeBatch? {
        Takes(w, c, i);
        InsideDangles(ApplyStep(w, step), c, i);
      } else {
        var i' := OwnOn(w, c, i, step);
        InvWired(w);
        OnwardRank(w, l, step);
        BehindDangles(ApplyStep(w, step), c, i');
      }
      DanglesLater(w, step);
    }
  }

  lemma OnwardRank(w: World, l: LoopId, step: Step)
    requires Orderly(w) && l in w.loops && Onward(w, l, step) && !step.TakeBatch?
    ensures l in ApplyStep(w, step).loops && Rank(ApplyStep(w, step).loops[l].phase) <= Rank(w.loops[l].phase)
  {
    hide Placed, Called, NoGhosts, Timed, Run, Ending;
    if step.RunFront? {
      PoppedWired(w, l);
      RunPushes(Popped(w, l), w.queues[l][0]);
    }
  }

  lemma PollsAgain(w: World, c: ConnId, i: nat)
    requires Inv(w) && Alone(w, c) && Behind(w, c, i) && BaseClear(w, c) && At(w, w.peers[c].loop, Polling)
    ensures var step := Poll(w.peers[c].loop, {});
            && Runnable(w, step) && !WatchHazard(w, step)
            && var w' := ApplyStep(w, step);
               && Inv(w') && Alone(w', c) && Behind(w', c, i) && BaseClear(w', c)
               && w'.peers[c].loop == w.peers[c].loop && w'.loops[w.peers[c].loop].phase == Handling
  {
    hide Placed, Called, NoGhosts, Phased, OnlyRaw, Ending, InPhase;
    var l := w.peers[c].loop;
    assert TimedLoop(w, l);
    StepKeepsInv(w, Poll(l, {}));
  }

  lemma {:induction false} LateDangles(w: World, c: ConnId, i: nat)
    requires Inv(w) && Alone(w, c) && Behind(w, c, i)
    ensures CanDangle(w)
    decreases StepsLeft(w, w.base)
  {
    hide Inv, CanDangle, Behind, StepsLeft, ApplyStep, WatchHazard, BadClose;
    InvWired(w);
    if w.peers[c].loop == w.base {
      BehindDangles(w, c, i);
    } else if At(w, w.base, Polling) {
      PollingIsClear(w, c);
      BehindDangles(w, c, i);
    } else {
      var step := OnwardStep(w, w.base);
      OnwardNoPush(w, w.base, step);
      OnwardCareful(w, w.base, step);
      BaseOn(w, c, i, step);
      LateDangles(ApplyStep(w, step), c, i);
      DanglesLater(w, step);
    }
  }

  lemma LateIsBehind(w: World, c: ConnId)
    requires Inv(w) && ShutdownRaw(c) in w.calls && c in w.peers && Late(w, c)
    ensures var w' := Pushed(w, ShutdownRaw(c));
            && Wired(w') && Alone(w', c) && Behind(w', c, |w.queues[w.peers[c].loop]|)
  {
    hide Orderly, Phased, OnlyRaw;
    InvWired(w);
    var l := w.peers[c].loop;
    LeftInQueue(w, l);
    ErasedHas(w, c);
    ErasedUntaken(w, c);
    OnlyRawEnd(w.queues[l], w.loops[l].left, c);
  }

  lemma OnlyRawEnd(q: seq<Functor>, n: nat, c: ConnId)
    requires n <= |q| && forall f | f in q[n..] :: !SharedFunctor(f, c)
    ensures OnlyRaw(q + [ShutdownRaw(c)], n, c, |q|)
  {
    var q' := q + [ShutdownRaw(c)];
    forall j | n <= j < |q'| ensures !SharedFunctor(q'[j], c) {
      if j < |q| { assert q'[j] == q[n..][j - n]; }
    }
  }

  /** An erased connection is closed, has one raw pointer about to be queued at most, and no start or removal queued. */
  lemma ErasedHas(w: World, c: ConnId)
    requires Inv(w) && ShutdownRaw(c) in w.calls && c in w.peers && c !in w.connections
    ensures w.peers[c].state == Disconnected && w.calls[ShutdownRaw(c)] == 1
    ensures RemoveInLoop(c) !in w.queues[w.base] && Established(c) !in w.queues[w.peers[c].loop]
  {
    hide Placed, Called, NoGhosts, Timed;
    var ph :| InPhase(w, c, ph);
    CountMember(w.queues[w.base], RemoveInLoop(c));
    CountMember(w.queues[w.peers[c].loop], Established(c));
  }

  lemma ErasedUntaken(w: World, c: ConnId)
    requires Orderly(w) && c in w.peers
    requires RemoveInLoop(c) !in w.queues[w.base] && Established(c) !in w.queues[w.peers[c].loop]
    requires ForceCloseInLoop(c) !in Untaken(w, w.peers[c].loop) && Destroyed(c) !in Untaken(w, w.peers[c].loop)
    ensures forall f | f in Untaken(w, w.peers[c].loop) :: !SharedFunctor(f, c)
  {
    hide Called, NoGhosts, Timed;
    var l := w.peers[c].loop;
    forall f | f in Untaken(w, l) ensures !SharedFunctor(f, c) { assert f in w.queues[l]; }
  }

  lemma RawExact(w: World, c: ConnId)
    requires Inv(w) && Tuned(w) && RawSafe(w) && ShutdownRaw(c) in w.calls && c in w.peers
    ensures CanDangle(Pushed(w, ShutdownRaw(c))) <==> Late(w, c)
  {
    hide Inv, Tuned, RawSafe, Careful, Prompt, Runs, Exec, Dangles, Alone, Behind, Late, BadClose;
    var step := Push(ShutdownRaw(c));
    InvWired(w);
    StepKeepsInv(w, step);
    StepKeepsTuned(w, step);
    var w1 := ApplyStep(w, step);
    if Late(w, c) {
      LateIsBehind(w, c);
      LateDangles(w1, c, |w.queues[w.peers[c].loop]|);
    } else {
      StepKeepsRaw(w, step);
      forall steps | Runs(w1, steps) && Careful(w1, steps) && Prompt(w1, steps) ensures !Dangles(Exec(w1, steps)) {
        RunKeepsRaw(w1, steps);
        RawPointerAlive(Exec(w1, steps));
      }
    }
  }

  /** A state that a run without any hazard leads to. */
  ghost predicate SafelyReachable(w: World) {
    exists poller, base, loops, steps ::
      var s := Start(poller, base, loops);
      Runs(s, steps) && Careful(s, steps) && Prompt(s, steps) && w == Exec(s, steps)
  }

  lemma SafelyReachableInv(w: World)
    requires SafelyReachable(w)
    ensures Inv(w) && Tuned(w) && RawSafe(w)
  {
    hide Inv, Tuned, Exec, Runs, Careful, Prompt, RawSafe;
    var poller, base, loops, steps :|
      var s := Start(poller, base, loops);
      Runs(s, steps) && Careful(s, steps) && Prompt(s, steps) && w == Exec(s, steps);
    StartInv(poller, base, loops);
    StartTuned(poller, base, loops);
    StartRaw(poller, base, loops);
    RunKeepsRaw(Start(poller, base, loops), steps);
  }

  lemma StartRaw(poller: PollerKind, base: LoopId, loops: set<LoopId>)
    ensures Wired(Start(poller, base, loops)) && RawSafe(Start(poller, base, loops))
  {
  }

  /** No loop ever uses the raw pointer of `shutdown` on a connection that is gone. */
  lemma NoDanglingPointer(w: World)
    requires SafelyReachable(w)
    ensures !Dangles(w)
  {
    hide SafelyReachable, Dangles, Inv, Tuned, RawSafe;
    SafelyReachableInv(w);
    RawPointerAlive(w);
  }

  /**
    The pointer can outlive its connection, in some run without further hazard, exactly if it is
    queued when the server has let go of the connection and nothing that holds it is to go into the
    same batch.
   */
  lemma RawPointerExactly(w: World, c: ConnId)
    requires SafelyReachable(w) && ShutdownRaw(c) in w.calls
    ensures Wired(w) && c in w.peers
    ensures CanDangle(Pushed(w, ShutdownRaw(c))) <==> Late(w, c)
  {
    hide SafelyReachable, CanDangle, Inv, Tuned, RawSafe, Late;
    SafelyReachableInv(w);
    CallIsKnown(w, ShutdownRaw(c));
    RawExact(w, c);
  }

  lemma CallIsKnown(w: World, f: Functor)
    requires Inv(w) && f in w.calls
    ensures Wired(w) && f.c in w.peers
  {
    hide Phased, Timed, Placed, NoGhosts;
  }

  // ---------------------------------------------------------------- three failing runs

  /** Every close that meets a closed connection makes a removal too many. */
  lemma BadCloseRemovesTwice(w: World, c: ConnId)
    requires Inv(w) && Reported(w, c) && w.peers[c].state == Disconnected
    ensures Wired(Dispatched(w, c)) && var w' := HandleCloseOf(Dispatched(w, c), c);
            Wired(w') && c in w'.peers && Pending(w', RemoveInLoop(c)) + Done(w', RemoveInLoop(c)) == 2
  {
    hide Placed, Called, NoGhosts, Timed, HandleCloseOf;
    var ph :| InPhase(w, c, ph);
    DispatchAside(w, c, c, ph);
    ClosedEffect(Dispatched(w, c), c, RemoveInLoop(c));
    ClosedHere(Dispatched(w, c), c);
  }

  /** Connection 1 of loop 1, with loop 0 as the base loop, which is in a handler or runs functors. */
  function With(poller: PollerKind, mapped: set<ConnId>, p: Peer, own: seq<Functor>, it: Iteration,
                calls: multiset<Functor>, ran: seq<Functor>): World
  {
    World(poller, 0, 2, mapped, map[1 := p], map[0 := [], 1 := own],
          map[0 := Iteration(Handling, {}, 0, {}), 1 := it], calls, ran)
  }

  /** w' comes after w by one enabled step that is no hazard. */
  ghost predicate Leads(w: World, step: Step, w': World) {
    Wired(w) && Runnable(w, step) && ApplyStep(w, step) == w' && !WatchHazard(w, step) && !RawHazard(w, step)
  }

  /** A way on from w' is one from w. */
  ghost predicate SafeRun(w: World, steps: seq<Step>, end: World) {
    Runs(w, steps) && Careful(w, steps) && Prompt(w, steps) && Exec(w, steps) == end
  }

  lemma SafeNow(w: World)
    ensures SafeRun(w, [], w)
  {
  }

  lemma SafeOn(w: World, step: Step, w': World, rest: seq<Step>, end: World)
    requires Leads(w, step, w') && SafeRun(w', rest, end)
    ensures SafeRun(w, [step] + rest, end)
  {
    hide ApplyStep, Runnable, WatchHazard, RawHazard, Wired, Runs, Exec, Careful, Prompt;
    FirstStep(w, step, rest);
    PromptFirst(w, step, rest);
  }

  const READING := P.Mask(true, false)
  const ESTABLISHED := [Established(1)]
  const HANDLING := Iteration(Handling, {}, 0, {})

  function Fresh(poller: PollerKind, it: Iteration): World {
    With(poller, {1}, Peer(1, Connecting, NONE_EVENT, true, false, false), ESTABLISHED, it, multiset{}, [])
  }

  /** Established and read from; its loop is where it says. */
  function Serving(poller: PollerKind, it: Iteration): World {
    With(poller, {1}, Peer(1, Connected, READING, true, true, true), [], it, multiset{}, ESTABLISHED)
  }

  const TOOK_ONE := Iteration(Running, {}, 1, {Established(1)})
  const RAN_ONE := Iteration(Running, {}, 0, {Established(1)})

  function Idle(poller: PollerKind): World {
    Start(poller, 0, {1}).(loops := map[0 := HANDLING, 1 := AT_POLL])
  }

  lemma BaseWakes(poller: PollerKind)
    ensures Leads(Start(poller, 0, {1}), Poll(0, {}), Idle(poller))
  {
  }

  lemma Accepting(poller: PollerKind)
    ensures Leads(Idle(poller), Accept(1), Fresh(poller, AT_POLL))
  {
    assert Idle(poller).queues == map[0 := [], 1 := []];
    assert [] + ESTABLISHED == ESTABLISHED;
  }

  lemma FreshPolls(poller: PollerKind)
    ensures Leads(Fresh(poller, AT_POLL), Poll(1, {}), Fresh(poller, HANDLING))
  {
  }

  lemma FreshTakes(poller: PollerKind)
    ensures Leads(Fresh(poller, HANDLING), TakeBatch(1), Fresh(poller, TOOK_ONE))
  {
    assert (set f | f in ESTABLISHED) == {Established(1)};
  }

  lemma Establishing(poller: PollerKind)
    ensures Leads(Fresh(poller, TOOK_ONE), RunFront(1), Serving(poller, RAN_ONE))
  {
    hide Late, Run, Ending;
    EstablishingRuns(poller);
  }

  lemma EstablishingRuns(poller: PollerKind)
    ensures Wired(Fresh(poller, TOOK_ONE))
    ensures var w := Popped(Fresh(poller, TOOK_ONE), 1);
            Wired(w) && 1 in w.peers && Run(w, Established(1)) == Serving(poller, RAN_ONE)
  {
    hide EstablishedPeer;
    EstablishedValue(poller);
    assert [] + ESTABLISHED == ESTABLISHED && ESTABLISHED[1..] == [];
  }

  lemma EstablishedValue(poller: PollerKind)
    ensures EstablishedPeer(poller, Peer(1, Connecting, NONE_EVENT, true, false, false))
            == Peer(1, Connected, READING, true, true, true)
  {
  }

  lemma EstablishingEnds(poller: PollerKind)
    ensures Leads(Serving(poller, RAN_ONE), EndBatch(1), Serving(poller, AT_POLL))
  {
  }

  /** The start of all three runs. */
  lemma Served(poller: PollerKind, rest: seq<Step>, end: World) returns (steps: seq<Step>)
    requires SafeRun(Serving(poller, AT_POLL), rest, end)
    ensures SafeRun(Start(poller, 0, {1}), steps, end)
  {
    hide Leads, SafeRun, Serving, Start, Fresh, Idle;
    EstablishingEnds(poller);
    SafeOn(Serving(poller, RAN_ONE), EndBatch(1), Serving(poller, AT_POLL), rest, end);
    steps := [EndBatch(1)] + rest;
    Establishing(poller);
    SafeOn(Fresh(poller, TOOK_ONE), RunFront(1), Serving(poller, RAN_ONE), steps, end);
    steps := [RunFront(1)] + steps;
    FreshTakes(poller);
    SafeOn(Fresh(poller, HANDLING), TakeBatch(1), Fresh(poller, TOOK_ONE), steps, end);
    steps := [TakeBatch(1)] + steps;
    FreshPolls(poller);
    SafeOn(Fresh(poller, AT_POLL), Poll(1, {}), Fresh(poller, HANDLING), steps, end);
    steps := [Poll(1, {})] + steps;
    Accepting(poller);
    SafeOn(Idle(poller), Accept(1), Fresh(poller, AT_POLL), steps, end);
    steps := [Accept(1)] + steps;
    BaseWakes(poller);
    SafeOn(Start(poller, 0, {1}), Poll(0, {}), Idle(poller), steps, end);
    steps := [Poll(0, {})] + steps;
  }

  lemma SafeIsReachable(poller: PollerKind, steps: seq<Step>, end: World)
    requires SafeRun(Start(poller, 0, {1}), steps, end)
    ensures Reachable(end) && SafelyReachable(end)
  {
    hide Runs, Exec, Careful, Prompt;
    var s := Start(poller, 0, {1});
    assert Runs(s, steps) && Careful(s, steps) && Prompt(s, steps) && end == Exec(s, steps);
  }

  lemma ServingPolls(poller: PollerKind, reported: set<ConnId>)
    requires reported <= {1}
    ensures Leads(Serving(poller, AT_POLL), Poll(1, reported), Serving(poller, Iteration(Handling, reported, 0, {})))
  {
  }

  /** A connection that `stopRead` has made epoll set aside. */
  function Aside(state: ConnState, own: seq<Functor>, it: Iteration, calls: multiset<Functor>): World {
    With(EpollLoop, {1}, Peer(1, state, NONE_EVENT, false, true, false), own, it, calls, ESTABLISHED)
  }

  lemma Stopping(it: Iteration)
    requires it.phase == Handling
    ensures Leads(Serving(EpollLoop, it), StopRead(1), Aside(Connected, [], it, multiset{}))
  {
  }

  const FORCED := ForceCloseInLoop(1)

  lemma Forcing()
    ensures Leads(Aside(Connected, [], HANDLING, multiset{}), ForceClose(1),
                  Aside(Disconnecting, [], HANDLING, multiset{FORCED}))
  {
    assert multiset{} + multiset{FORCED} == multiset{FORCED};
  }

  lemma ForcingPushes()
    ensures Leads(Aside(Disconnecting, [], HANDLING, multiset{FORCED}), Push(FORCED),
                  Aside(Disconnecting, [FORCED], HANDLING, multiset{}))
  {
    assert [] + [FORCED] == [FORCED] && multiset{FORCED} - multiset{FORCED} == multiset{};
  }

  const TOOK_FORCED := Iteration(Running, {}, 1, {FORCED})

  lemma ForcedTaken()
    ensures Leads(Aside(Disconnecting, [FORCED], HANDLING, multiset{}), TakeBatch(1),
                  Aside(Disconnecting, [FORCED], TOOK_FORCED, multiset{}))
  {
    assert (set f | f in [FORCED]) == {FORCED};
  }

  lemma ForcedIsHazard()
    ensures var w := Aside(Disconnecting, [FORCED], TOOK_FORCED, multiset{});
            Wired(w) && Enabled(w, RunFront(1)) && Runnable(w, RunFront(1)) && WatchHazard(w, RunFront(1))
  {
  }

  /**
    With epoll: `stopRead`, then `forceClose`. The close leaves the connection in the kernel's set,
    and a hang-up can close it again, against the assertion.
   */
  lemma ForceCloseUnread() returns (steps: seq<Step>, w: World)
    ensures SafeRun(Start(EpollLoop, 0, {1}), steps, w)
    ensures Wired(w) && Runnable(w, RunFront(1)) && w.queues[1] == [ForceCloseInLoop(1)]
    ensures CanFail(ApplyStep(w, RunFront(1)))
  {
    w := Aside(Disconnecting, [FORCED], TOOK_FORCED, multiset{});
    hide Leads, SafeRun, Serving, Start, Reachable, CanFail, WatchHazard;
    ForcedIsHazard();
    SafeNow(w);
    ForcedTaken();
    SafeOn(Aside(Disconnecting, [FORCED], HANDLING, multiset{}), TakeBatch(1), w, [], w);
    steps := [TakeBatch(1)] + [];
    ForcingPushes();
    SafeOn(Aside(Disconnecting, [], HANDLING, multiset{FORCED}), Push(FORCED),
           Aside(Disconnecting, [FORCED], HANDLING, multiset{}), steps, w);
    steps := [Push(FORCED)] + steps;
    Forcing();
    SafeOn(Aside(Connected, [], HANDLING, multiset{}), ForceClose(1),
           Aside(Disconnecting, [], HANDLING, multiset{FORCED}), steps, w);
    steps := [ForceClose(1)] + steps;
    Stopping(HANDLING);
    SafeOn(Serving(EpollLoop, HANDLING), StopRead(1), Aside(Connected, [], HANDLING, multiset{}), steps, w);
    steps := [StopRead(1)] + steps;
    ServingPolls(EpollLoop, {});
    SafeOn(Serving(EpollLoop, AT_POLL), Poll(1, {}), Serving(EpollLoop, HANDLING), steps, w);
    steps := [Poll(1, {})] + steps;
    steps := Served(EpollLoop, steps, w);
    SafeIsReachable(EpollLoop, steps, w);
    StepSoundExactly(w, RunFront(1));
  }

  const REPORTED := Iteration(Handling, {1}, 0, {})

  lemma StaleIsHazard()
    ensures var w := Aside(Connected, [], REPORTED, multiset{});
            Wired(w) && Enabled(w, CloseEvent(1)) && Runnable(w, CloseEvent(1)) && WatchHazard(w, CloseEvent(1))
  {
  }

  /**
    With epoll: `poll` reports end of stream, another handler of the same iteration calls
    `stopRead`, and only then the report is handled. The close leaves the connection in the kernel's
    set as well.
   */
  lemma StaleReport() returns (steps: seq<Step>, w: World)
    ensures SafeRun(Start(EpollLoop, 0, {1}), steps, w)
    ensures Wired(w) && Runnable(w, CloseEvent(1)) && Open(w.peers[1])
    ensures CanFail(ApplyStep(w, CloseEvent(1)))
  {
    w := Aside(Connected, [], REPORTED, multiset{});
    hide Leads, SafeRun, Serving, Start, Reachable, CanFail, WatchHazard;
    StaleIsHazard();
    SafeNow(w);
    Stopping(REPORTED);
    SafeOn(Serving(EpollLoop, REPORTED), StopRead(1), w, [], w);
    steps := [StopRead(1)] + [];
    ServingPolls(EpollLoop, {1});
    SafeOn(Serving(EpollLoop, AT_POLL), Poll(1, {1}), Serving(EpollLoop, REPORTED), steps, w);
    steps := [Poll(1, {1})] + steps;
    steps := Served(EpollLoop, steps, w);
    SafeIsReachable(EpollLoop, steps, w);
    StepSoundExactly(w, CloseEvent(1));
  }

  const SHUTTING := multiset{ShutdownRaw(1)}
  const REMOVING := RemoveInLoop(1)

  /** While a thread is inside `shutdown`. */
  function Shutting(poller: PollerKind, it: Iteration): World {
    With(poller, {1}, Peer(1, Disconnecting, READING, true, true, true), [], it, SHUTTING, ESTABLISHED)
  }

  /** The connection is closed meanwhile; the base loop's queue and iteration, and its own. */
  function Overtaken(poller: PollerKind, mapped: set<ConnId>, base: seq<Functor>, baseIt: Iteration,
                     own: seq<Functor>, it: Iteration, ran: seq<Functor>): World
  {
    World(poller, 0, 2, mapped, map[1 := Peer(1, Disconnected, NONE_EVENT, true, true, false)],
          map[0 := base, 1 := own], map[0 := baseIt, 1 := it], SHUTTING, ran)
  }

  const TOOK_REMOVING := Iteration(Running, {}, 1, {REMOVING})
  const RAN_REMOVING := Iteration(Running, {}, 0, {REMOVING})
  const TOOK_DESTROYED := Iteration(Running, {}, 1, {Destroyed(1)})
  const REMOVED := [Established(1), REMOVING]

  function Closed1(poller: PollerKind): World {
    Overtaken(poller, {1}, [REMOVING], HANDLING, [], HANDLING, ESTABLISHED)
  }

  function Removing(poller: PollerKind): World {
    Overtaken(poller, {1}, [REMOVING], TOOK_REMOVING, [], HANDLING, ESTABLISHED)
  }

  /** Erased, with the end queued and not taken. */
  function Erased1(poller: PollerKind): World {
    Overtaken(poller, {}, [], RAN_REMOVING, [Destroyed(1)], HANDLING, REMOVED)
  }

  /** Erased, with the end in the batch under way. */
  function Ending1(poller: PollerKind): World {
    Overtaken(poller, {}, [], RAN_REMOVING, [Destroyed(1)], TOOK_DESTROYED, REMOVED)
  }

  lemma ShuttingDown(poller: PollerKind)
    ensures Leads(Serving(poller, AT_POLL), ShutdownCall(1, false), Shutting(poller, AT_POLL))
  {
    assert multiset{} + SHUTTING == SHUTTING;
  }

  lemma ShuttingPolls(poller: PollerKind)
    ensures Leads(Shutting(poller, AT_POLL), Poll(1, {1}), Shutting(poller, REPORTED))
  {
  }

  lemma Overtaking(poller: PollerKind)
    ensures Leads(Shutting(poller, REPORTED), CloseEvent(1), Closed1(poller))
  {
    hide ClosedPeer, Late;
    ClosedValue(poller);
    assert [] + [REMOVING] == [REMOVING];
    assert {1} - {1} == {};
  }

  lemma ClosedValue(poller: PollerKind)
    ensures ClosedPeer(poller, Peer(1, Disconnecting, READING, true, true, true))
            == Peer(1, Disconnected, NONE_EVENT, true, true, false)
  {
  }

  lemma RemovingTaken(poller: PollerKind)
    ensures Leads(Closed1(poller), TakeBatch(0), Removing(poller))
  {
    assert (set f | f in [REMOVING]) == {REMOVING};
  }

  lemma Erasing(poller: PollerKind)
    ensures Leads(Removing(poller), RunFront(0), Erased1(poller))
  {
    hide Late, Run, Ending;
    ErasingRuns(poller);
  }

  function Popped1(poller: PollerKind): World {
    Overtaken(poller, {1}, [], RAN_REMOVING, [], HANDLING, ESTABLISHED)
  }

  lemma ErasingRuns(poller: PollerKind)
    ensures Wired(Removing(poller)) && Popped(Removing(poller), 0) == Popped1(poller)
    ensures Wired(Popped1(poller)) && Run(Popped1(poller), REMOVING) == Erased1(poller)
  {
    hide Run;
    assert [REMOVING][1..] == [];
    ErasedRuns(poller);
  }

  lemma ErasedRuns(poller: PollerKind)
    ensures Wired(Popped1(poller)) && Run(Popped1(poller), REMOVING) == Erased1(poller)
  {
    hide HandleCloseOf, ConnectDestroyed, ConnectEstablished;
    assert [] + [Destroyed(1)] == [Destroyed(1)];
    assert ESTABLISHED + [REMOVING] == REMOVED && {1} - {1} == {};
  }

  lemma EndTaken(poller: PollerKind)
    ensures Leads(Erased1(poller), TakeBatch(1), Ending1(poller))
  {
    assert (set f | f in [Destroyed(1)]) == {Destroyed(1)};
  }

  lemma ErasedSafely(poller: PollerKind, rest: seq<Step>, end: World) returns (steps: seq<Step>)
    requires SafeRun(Erased1(poller), rest, end)
    ensures SafeRun(Start(poller, 0, {1}), steps, end)
  {
    hide Leads, SafeRun, Serving, Start, Shutting, Closed1, Removing, Erased1;
    Erasing(poller);
    SafeOn(Removing(poller), RunFront(0), Erased1(poller), rest, end);
    steps := [RunFront(0)] + rest;
    RemovingTaken(poller);
    SafeOn(Closed1(poller), TakeBatch(0), Removing(poller), steps, end);
    steps := [TakeBatch(0)] + steps;
    Overtaking(poller);
    SafeOn(Shutting(poller, REPORTED), CloseEvent(1), Closed1(poller), steps, end);
    steps := [CloseEvent(1)] + steps;
    ShuttingPolls(poller);
    SafeOn(Shutting(poller, AT_POLL), Poll(1, {1}), Shutting(poller, REPORTED), steps, end);
    steps := [Poll(1, {1})] + steps;
    ShuttingDown(poller);
    SafeOn(Serving(poller, AT_POLL), ShutdownCall(1, false), Shutting(poller, AT_POLL), steps, end);
    steps := [ShutdownCall(1, false)] + steps;
    steps := Served(poller, steps, end);
  }

  lemma EndingIsLate(poller: PollerKind)
    ensures Wired(Ending1(poller)) && 1 in Ending1(poller).peers && Late(Ending1(poller), 1)
    ensures Wired(Erased1(poller)) && 1 in Erased1(poller).peers && !Late(Erased1(poller), 1)
  {
    assert [Destroyed(1)][1..] == [] && [Destroyed(1)][0..] == [Destroyed(1)];
  }

  /**
    With either poller: a thread has changed the state in `shutdown`; the peer closes, the base
    loop erases, and the connection's loop takes `connectDestroyed` into its batch. Only now the
    thread queues the pointer, and the loop can use it when nothing holds the connection.
   */
  lemma LateShutdown(poller: PollerKind) returns (steps: seq<Step>)
    ensures SafeRun(Start(poller, 0, {1}), steps, Ending1(poller))
    ensures Wired(Ending1(poller)) && 1 in Ending1(poller).peers
    ensures CanDangle(Pushed(Ending1(poller), ShutdownRaw(1)))
  {
    hide Leads, SafeRun, Start, SafelyReachable, CanDangle, Late;
    EndTaken(poller);
    SafeNow(Ending1(poller));
    SafeOn(Erased1(poller), TakeBatch(1), Ending1(poller), [], Ending1(poller));
    steps := ErasedSafely(poller, [TakeBatch(1)] + [], Ending1(poller));
    SafeIsReachable(poller, steps, Ending1(poller));
    EndingIsLate(poller);
    RawPointerExactly(Ending1(poller), 1);
  }

  /** One step earlier it is in time: both functors go into one batch, which holds the connection to its end. */
  lemma SameBatchHolds(poller: PollerKind) returns (steps: seq<Step>)
    ensures SafeRun(Start(poller, 0, {1}), steps, Erased1(poller))
    ensures Wired(Erased1(poller)) && 1 in Erased1(poller).peers
    ensures !CanDangle(Pushed(Erased1(poller), ShutdownRaw(1)))
  {
    hide Leads, SafeRun, Start, SafelyReachable, CanDangle, Late;
    SafeNow(Erased1(poller));
    steps := ErasedSafely(poller, [], Erased1(poller));
    SafeIsReachable(poller, steps, Erased1(poller));
    EndingIsLate(poller);
    RawPointerExactly(Erased1(poller), 1);
  }

  // ---------------------------------------------------------------- what the pollers do

  /** The bit `watched` changes as the set that epoll(7) keeps. */
  lemma EpollWatches(s: P.EpollTable, fd: P.Fd, p: Peer, mask: Mask)
    requires P.EpollValid(s) && (p.watched <==> fd in s.kernel)
    ensures Updated(EpollLoop, p, mask).watched <==> fd in P.EpollUpdate(s, fd, mask).kernel
  {
    P.EpollUpdateValid(s, fd, mask);
  }

  /** ... or as the sign of the descriptor in the array for poll(2). */
  lemma PollWatches(s: P.PollTable, fd: P.Fd, p: Peer, mask: Mask)
    requires P.PollValid(s) && (p.registered <==> fd in s.index)
    ensures var s' := P.PollUpdate(s, fd, mask);
            && P.PollValid(s') && fd in s'.index && 0 <= s'.index[fd] < |s'.pollfds|
            && (Updated(PollLoop, p, mask).watched <==> s'.pollfds[s'.index[fd]].fd >= 0)
  {
    P.PollUpdateRefines(s, fd, mask);
    P.IndexInRange(P.PollUpdate(s, fd, mask), fd);
  }
}
