/**
  The life of connections across threads (`muduo/net/TcpServer.cc`, with the lifecycle part of
  `TcpConnection.cc`). The base loop accepts and erases, each connection's own loop establishes,
  closes and destroys it; they talk through the loops' functor queues. Each loop goes round as in
  `EventLoop::loop`: poll, handle what was reported, run the functors that are queued by then. The
  server object outlives the run.
 */
module TcpServers {
  import opened ConnectionStates
  import P = Pollers

  type Mask = P.Mask
  const NONE_EVENT := P.NONE_EVENT

  type LoopId = nat
  /** The number in a connection's name; `_next_conn_id` never repeats. */
  type ConnId = nat

  /** Bound functors. All but the last keep the connection alive; `shutdown` binds a raw pointer. */
  datatype Functor =
    | Established(c: ConnId)
    | RemoveInLoop(c: ConnId)
    | Destroyed(c: ConnId)
    | ForceCloseInLoop(c: ConnId)
    | ShutdownRaw(c: ConnId)

  /** Which poller the loops use (`Poller::newDefaultPoller`). */
  datatype PollerKind = PollLoop | EpollLoop

  /**
    A connection's state; its channel's mask; the flag `reading_`; whether the poller knows the
    channel; and whether the kernel watches the descriptor, in which case a hang-up is reported
    whatever the mask.
   */
  datatype Peer = Peer(loop: LoopId, state: ConnState, mask: Mask, reading: bool, registered: bool, watched: bool)

  /** Where a loop is in its iteration. */
  datatype LoopPhase = Polling | Handling | Running

  /**
    The active channels not yet handled, by connection; how many functors at the front of the queue
    belong to the batch under way; and all functors of that batch, which the local vector of
    `doPendingFunctors` holds until the batch ends.
   */
  datatype Iteration = Iteration(phase: LoopPhase, reports: set<ConnId>, left: nat, held: set<Functor>)

  const AT_POLL := Iteration(Polling, {}, 0, {})

  datatype World = World(
    poller: PollerKind,
    base: LoopId,
    nextConnId: nat,
    /** The server's map, by name. */
    connections: set<ConnId>,
    peers: map<ConnId, Peer>,
    /** What the loops have still to run: the rest of the batch, and the pending functors behind it. */
    queues: map<LoopId, seq<Functor>>,
    loops: map<LoopId, Iteration>,
    /** What threads inside `shutdown` or `forceClose` are about to queue, having changed the state. */
    calls: multiset<Functor>,
    /** Lifecycle functions that have been executed, queued or called directly. */
    ran: seq<Functor>)

  function Start(poller: PollerKind, base: LoopId, loops: set<LoopId>): World {
    World(poller, base, 1, {}, map[], map l | l in loops + {base} :: [], map l | l in loops + {base} :: AT_POLL,
          multiset{}, [])
  }

  // ---------------------------------------------------------------- the source's operations

  ghost predicate Wired(w: World) {
    && w.base in w.queues && w.loops.Keys == w.queues.Keys
    && (forall c | c in w.peers :: c < w.nextConnId && w.peers[c].loop in w.queues)
    && w.connections <= w.peers.Keys
  }

  function QueueInLoop(w: World, l: LoopId, f: Functor): World
    requires l in w.queues
  {
    w.(queues := w.queues[l := w.queues[l] + [f]])
  }

  /**
    Whether the kernel watches a channel after an update. With an empty mask, epoll takes out what
    is in its set and adds what is not; poll(2) ignores every channel but a new one.
   */
  predicate Watches(poller: PollerKind, p: Peer, mask: Mask) {
    mask != NONE_EVENT || !(if poller == EpollLoop then p.watched else p.registered)
  }

  /** `Channel::update` with a new mask. */
  function Updated(poller: PollerKind, p: Peer, mask: Mask): Peer {
    p.(mask := mask, registered := true, watched := Watches(poller, p, mask))
  }

  function EstablishedPeer(poller: PollerKind, p: Peer): Peer {
    Updated(poller, p.(state := Connected), p.mask.(read := true))
  }

  function ClosedPeer(poller: PollerKind, p: Peer): Peer {
    Updated(poller, p.(state := Disconnected), NONE_EVENT)
  }

  function DestroyedPeer(poller: PollerKind, p: Peer): Peer {
    (if p.state == Connected then ClosedPeer(poller, p) else p).(registered := false, watched := false)
  }

  /** `stopReadInLoop` */
  function StoppedPeer(poller: PollerKind, p: Peer): Peer {
    if p.reading || p.mask.read then Updated(poller, p, p.mask.(read := false)).(reading := false) else p
  }

  /** `startReadInLoop` */
  function StartedPeer(poller: PollerKind, p: Peer): Peer {
    if !p.reading || !p.mask.read then Updated(poller, p, p.mask.(read := true)).(reading := true) else p
  }

  function ConnectEstablished(w: World, c: ConnId): World
    requires c in w.peers
  {
    w.(peers := w.peers[c := EstablishedPeer(w.poller, w.peers[c])], ran := w.ran + [Established(c)])
  }

  function RemoveConnectionInLoop(w: World, c: ConnId): World
    requires Wired(w) && c in w.peers
  {
    QueueInLoop(w.(connections := w.connections - {c}, ran := w.ran + [RemoveInLoop(c)]), w.peers[c].loop, Destroyed(c))
  }

  /** `runInLoop` on the base loop, called on the connection's loop. */
  function RemoveConnection(w: World, c: ConnId): World
    requires Wired(w) && c in w.peers
  {
    if w.peers[c].loop == w.base then RemoveConnectionInLoop(w, c) else QueueInLoop(w, w.base, RemoveInLoop(c))
  }

  function ConnectDestroyed(w: World, c: ConnId): World
    requires c in w.peers
  {
    w.(peers := w.peers[c := DestroyedPeer(w.poller, w.peers[c])], ran := w.ran + [Destroyed(c)])
  }

  function HandleCloseOf(w: World, c: ConnId): World
    requires Wired(w) && c in w.peers
  {
    RemoveConnection(w.(peers := w.peers[c := ClosedPeer(w.poller, w.peers[c])]), c)
  }

  predicate Open(p: Peer) { p.state == Connected || p.state == Disconnecting }

  function Run(w: World, f: Functor): World
    requires Wired(w) && f.c in w.peers
  {
    match f
    case Established(c) => ConnectEstablished(w, c)
    case RemoveInLoop(c) => RemoveConnectionInLoop(w, c)
    case Destroyed(c) => ConnectDestroyed(w, c)
    case ForceCloseInLoop(c) => if Open(w.peers[c]) then HandleCloseOf(w, c) else w
    case ShutdownRaw(c) => w
  }

  function Admitted(w: World, l: LoopId): World
    requires Wired(w) && l in w.queues
  {
    w.(nextConnId := w.nextConnId + 1, connections := w.connections + {w.nextConnId},
       peers := w.peers[w.nextConnId := Peer(l, Connecting, NONE_EVENT, true, false, false)])
  }

  function NewConnection(w: World, l: LoopId): World
    requires Wired(w) && l in w.queues
  {
    var w1 := Admitted(w, l);
    if l == w.base then ConnectEstablished(w1, w.nextConnId) else QueueInLoop(w1, l, Established(w.nextConnId))
  }

  /** A call that has changed the state and is about to queue a functor. */
  function Calling(w: World, c: ConnId, f: Functor): World
    requires c in w.peers
  {
    w.(peers := w.peers[c := w.peers[c].(state := Disconnecting)], calls := w.calls + multiset{f})
  }

  datatype Step =
    /** `poll` returns with reports on channels that the kernel watches. */
    | Poll(l: LoopId, reported: set<ConnId>)
    /** A report is handled without a close. */
    | Dispatch(c: ConnId)
    /** A report is handled that says, or turns out to be, end of stream or a hang-up. */
    | CloseEvent(c: ConnId)
    /** `doPendingFunctors` takes everything that is queued. */
    | TakeBatch(l: LoopId)
    | RunFront(l: LoopId)
    /** The batch has run, and its functors are destroyed. */
    | EndBatch(l: LoopId)
    /** In a handler of the base loop. */
    | Accept(l: LoopId)
    /** Write interest comes and goes with the output buffer. */
    | SetWriting(c: ConnId, on: bool)
    | StopRead(c: ConnId)
    | StartRead(c: ConnId)
    /** The test and the change of state; on the loop's own thread nothing is queued. */
    | ShutdownCall(c: ConnId, inLoop: bool)
    | ForceClose(c: ConnId)
    /** A thread inside `shutdown` or `forceClose` queues its functor and returns. */
    | Push(f: Functor)

  predicate At(w: World, l: LoopId, phase: LoopPhase) { l in w.loops && w.loops[l].phase == phase }

  /** The connection's loop is in a handler or a functor, where calls on its own thread come from. */
  predicate Awake(w: World, c: ConnId)
    requires c in w.peers
  {
    At(w, w.peers[c].loop, Handling) || At(w, w.peers[c].loop, Running)
  }

  predicate Reported(w: World, c: ConnId) {
    c in w.peers && At(w, w.peers[c].loop, Handling) && c in w.loops[w.peers[c].loop].reports
  }

  predicate Enabled(w: World, step: Step) {
    match step
    case Poll(l, reported) =>
      At(w, l, Polling)
      && forall c | c in reported :: c in w.peers && w.peers[c].loop == l && w.peers[c].registered && w.peers[c].watched
    case Dispatch(c) => Reported(w, c)
    case CloseEvent(c) => Reported(w, c)
    case TakeBatch(l) => At(w, l, Handling) && w.loops[l].reports == {} && l in w.queues
    case RunFront(l) => At(w, l, Running) && w.loops[l].left > 0 && l in w.queues && w.queues[l] != []
    case EndBatch(l) => At(w, l, Running) && w.loops[l].left == 0
    case Accept(l) => l in w.queues && At(w, w.base, Handling)
    case SetWriting(c, on) => c in w.peers && Awake(w, c) && Open(w.peers[c]) && w.peers[c].mask.write != on
    case StopRead(c) => c in w.peers && Awake(w, c) && w.peers[c].registered
    case StartRead(c) => c in w.peers && Awake(w, c) && w.peers[c].registered
    case ShutdownCall(c, inLoop) => c in w.peers && (inLoop ==> Awake(w, c))
    case ForceClose(c) => c in w.peers
    case Push(f) => f in w.calls
  }

  /** A step whose functor names a known connection. */
  predicate Runnable(w: World, step: Step) {
    && Enabled(w, step)
    && (step.RunFront? ==> w.queues[step.l][0].c in w.peers)
    && (step.Push? ==> step.f.c in w.peers)
  }

  function ApplyStep(w: World, step: Step): World
    requires Wired(w) && Runnable(w, step)
  {
    match step
    case Poll(l, reported) => WithLoop(w, l, Iteration(Handling, reported, 0, {}))
    case Dispatch(c) => Dispatched(w, c)
    case CloseEvent(c) => HandleCloseOf(Dispatched(w, c), c)
    case TakeBatch(l) => WithLoop(w, l, Iteration(Running, {}, |w.queues[l]|, set f | f in w.queues[l]))
    case RunFront(l) => Run(Popped(w, l), w.queues[l][0])
    case EndBatch(l) => WithLoop(w, l, AT_POLL)
    case Accept(l) => NewConnection(w, l)
    case SetWriting(c, on) => WithPeer(w, c, Updated(w.poller, w.peers[c], w.peers[c].mask.(write := on)))
    case StopRead(c) => WithPeer(w, c, StoppedPeer(w.poller, w.peers[c]))
    case StartRead(c) => WithPeer(w, c, StartedPeer(w.poller, w.peers[c]))
    case ShutdownCall(c, inLoop) =>
      if w.peers[c].state != Connected then w
      else if inLoop then WithPeer(w, c, w.peers[c].(state := Disconnecting))
      else Calling(w, c, ShutdownRaw(c))
    case ForceClose(c) => if Open(w.peers[c]) then Calling(w, c, ForceCloseInLoop(c)) else w
    case Push(f) => Pushed(w, f)
  }

  function WithLoop(w: World, l: LoopId, it: Iteration): World {
    w.(loops := w.loops[l := it])
  }

  function Dispatched(w: World, c: ConnId): World
    requires Reported(w, c)
  {
    var l := w.peers[c].loop;
    WithLoop(w, l, w.loops[l].(reports := w.loops[l].reports - {c}))
  }

  function Pushed(w: World, f: Functor): World
    requires Wired(w) && f.c in w.peers
  {
    QueueInLoop(w.(calls := w.calls - multiset{f}), w.peers[f.c].loop, f)
  }

  function WithPeer(w: World, c: ConnId, p: Peer): World {
    w.(peers := w.peers[c := p])
  }

  function Popped(w: World, l: LoopId): World
    requires l in w.queues && w.queues[l] != [] && l in w.loops && w.loops[l].left > 0
  {
    w.(queues := w.queues[l := w.queues[l][1..]], loops := w.loops[l := w.loops[l].(left := w.loops[l].left - 1)])
  }

  // ---------------------------------------------------------------- phases

  datatype Phase =
    /** mapped, `connectEstablished` pending */
    | Accepted
    /** mapped and live */
    | Live
    /** closed, still mapped, `removeConnectionInLoop` pending */
    | Closed
    /** erased from the map, `connectDestroyed` pending */
    | Erased
    | Gone

  function CountIn(q: seq<Functor>, f: Functor): nat { multiset(q)[f] }

  /** How often a functor is pending, in the loop it belongs to. */
  function Pending(w: World, f: Functor): nat
    requires Wired(w) && f.c in w.peers
  {
    CountIn(w.queues[if f.RemoveInLoop? then w.base else w.peers[f.c].loop], f)
  }

  function Done(w: World, f: Functor): nat { CountIn(w.ran, f) }

  function One(b: bool): nat { if b then 1 else 0 }

  /** Everything that a phase says about a connection. */
  predicate InPhase(w: World, c: ConnId, ph: Phase)
    requires Wired(w) && c in w.peers
  {
    var p := w.peers[c];
    && Pending(w, Established(c)) == One(ph == Accepted)
    && Pending(w, RemoveInLoop(c)) == One(ph == Closed)
    && Pending(w, Destroyed(c)) == One(ph == Erased)
    && Done(w, Established(c)) == One(ph != Accepted)
    && Done(w, RemoveInLoop(c)) == One(ph == Erased || ph == Gone)
    && Done(w, Destroyed(c)) == One(ph == Gone)
    && (c in w.connections <==> ph == Accepted || ph == Live || ph == Closed)
    && (p.state == Connecting <==> ph == Accepted)
    && (Open(p) <==> ph == Live)
    && (p.registered <==> ph == Live || ph == Closed || ph == Erased)
    && w.calls[ShutdownRaw(c)] <= One(p.state == Disconnecting || p.state == Disconnected)
  }

  /** Functors sit in the queue of the loop they are for, and name known connections. */
  ghost predicate Placed(w: World)
    requires Wired(w)
  {
    forall l, f | l in w.queues && f in w.queues[l] ::
      f.c in w.peers && l == if f.RemoveInLoop? then w.base else w.peers[f.c].loop
  }

  /** Calls are about known connections. */
  ghost predicate Called(w: World) {
    forall f | f in w.calls :: f.c in w.peers && (f.ShutdownRaw? || f.ForceCloseInLoop?)
  }

  /** Nothing has been executed for connections that do not exist yet. */
  ghost predicate NoGhosts(w: World) {
    forall f | f in w.ran :: f.c in w.peers
  }

  ghost predicate Phased(w: World)
    requires Wired(w)
  {
    forall c | c in w.peers :: exists ph :: InPhase(w, c, ph)
  }

  /** The batch is a front part of the queue and held; reports and functors are those of the loop. */
  ghost predicate Timed(w: World)
    requires Wired(w)
  {
    forall l | l in w.loops :: TimedLoop(w, l)
  }

  ghost predicate TimedLoop(w: World, l: LoopId)
    requires Wired(w) && l in w.loops
  {
    var it := w.loops[l];
    && it.left <= |w.queues[l]|
    && (forall i | 0 <= i < it.left :: w.queues[l][i] in it.held)
    && (it.phase != Running ==> it.left == 0 && it.held == {})
    && (it.phase != Handling ==> it.reports == {})
    && (forall c | c in it.reports :: c in w.peers && w.peers[c].loop == l)
    && (forall f | f in it.held :: f.c in w.peers && l == Home(w, f))
  }

  /** Functors are where they belong. */
  ghost predicate Orderly(w: World) {
    Wired(w) && Placed(w) && Called(w) && NoGhosts(w) && Timed(w)
  }

  ghost predicate Inv(w: World) {
    Orderly(w) && Phased(w)
  }

  // ---------------------------------------------------------------- effects on the counts

  function Home(w: World, f: Functor): LoopId
    requires f.c in w.peers
  {
    if f.RemoveInLoop? then w.base else w.peers[f.c].loop
  }

  lemma CountPush(q: seq<Functor>, f: Functor, g: Functor)
    ensures CountIn(q + [f], g) == CountIn(q, g) + One(f == g)
  {
  }

  lemma CountPop(q: seq<Functor>, g: Functor)
    requires q != []
    ensures CountIn(q[1..], g) + One(q[0] == g) == CountIn(q, g)
  {
    assert q == [q[0]] + q[1..];
  }

  lemma CountMember(q: seq<Functor>, g: Functor)
    ensures g in q <==> CountIn(q, g) > 0
  {
  }

  /** The counts of connection d are the same in both worlds, and so is everything else about it. */
  predicate Same(w: World, w': World, d: ConnId)
    requires Wired(w) && Wired(w')
  {
    && d in w.peers && d in w'.peers && w.peers[d] == w'.peers[d]
    && (d in w.connections <==> d in w'.connections)
    && SameCounts(w, w', d)
  }

  predicate SameCounts(w: World, w': World, d: ConnId)
    requires Wired(w) && Wired(w') && d in w.peers && d in w'.peers
  {
    && Pending(w', Established(d)) == Pending(w, Established(d))
    && Pending(w', RemoveInLoop(d)) == Pending(w, RemoveInLoop(d))
    && Pending(w', Destroyed(d)) == Pending(w, Destroyed(d))
    && Done(w', Established(d)) == Done(w, Established(d))
    && Done(w', RemoveInLoop(d)) == Done(w, RemoveInLoop(d))
    && Done(w', Destroyed(d)) == Done(w, Destroyed(d))
    && w'.calls[ShutdownRaw(d)] == w.calls[ShutdownRaw(d)]
  }

  lemma SameInPhase(w: World, w': World, d: ConnId, ph: Phase)
    requires Wired(w) && Wired(w') && Same(w, w', d) && InPhase(w, d, ph)
    ensures InPhase(w', d, ph)
  {
  }

  lemma PushEffect(w: World, l: LoopId, f: Functor, g: Functor)
    requires Wired(w) && f.c in w.peers && l in w.queues && l == Home(w, f) && g.c in w.peers
    ensures var w' := QueueInLoop(w, l, f);
            && Wired(w') && Pending(w', g) == Pending(w, g) + One(f == g) && Done(w', g) == Done(w, g)
  {
    CountPush(w.queues[l], f, g);
  }

  lemma PopEffect(w: World, l: LoopId, g: Functor)
    requires Wired(w) && l in w.queues && w.queues[l] != [] && w.loops[l].left > 0 && g.c in w.peers
    requires w.queues[l][0].c in w.peers && l == Home(w, w.queues[l][0])
    ensures var w' := Popped(w, l);
            && Wired(w') && Pending(w', g) + One(w.queues[l][0] == g) == Pending(w, g) && Done(w', g) == Done(w, g)
  {
    CountPop(w.queues[l], g);
  }

  lemma RanEffect(w: World, f: Functor, g: Functor)
    requires Wired(w) && g.c in w.peers
    ensures var w' := w.(ran := w.ran + [f]);
            && Wired(w') && Pending(w', g) == Pending(w, g) && Done(w', g) == Done(w, g) + One(f == g)
  {
    CountPush(w.ran, f, g);
  }

  lemma PeerEffect(w: World, c: ConnId, p: Peer, g: Functor)
    requires Wired(w) && c in w.peers && p.loop == w.peers[c].loop && g.c in w.peers
    ensures var w' := WithPeer(w, c, p);
            && Wired(w') && Pending(w', g) == Pending(w, g) && Done(w', g) == Done(w, g)
  {
  }

  // ---------------------------------------------------------------- one function at a time

  /** What `connectEstablished` does to the counts. */
  lemma EstablishedEffect(w: World, c: ConnId, g: Functor)
    requires Wired(w) && c in w.peers && g.c in w.peers
    ensures var w' := ConnectEstablished(w, c);
            && Wired(w') && Pending(w', g) == Pending(w, g) && Done(w', g) == Done(w, g) + One(g == Established(c))
  {
    var p := EstablishedPeer(w.poller, w.peers[c]);
    PeerEffect(w, c, p, g);
    RanEffect(WithPeer(w, c, p), Established(c), g);
  }

  lemma RemovedEffect(w: World, c: ConnId, g: Functor)
    requires Wired(w) && c in w.peers && g.c in w.peers
    ensures var w' := RemoveConnectionInLoop(w, c);
            && Wired(w') && Pending(w', g) == Pending(w, g) + One(g == Destroyed(c))
            && Done(w', g) == Done(w, g) + One(g == RemoveInLoop(c))
  {
    var w1 := w.(connections := w.connections - {c}, ran := w.ran + [RemoveInLoop(c)]);
    CountPush(w.ran, RemoveInLoop(c), g);
    assert Wired(w1);
    PushEffect(w1, w.peers[c].loop, Destroyed(c), g);
  }

  lemma DestroyedEffect(w: World, c: ConnId, g: Functor)
    requires Wired(w) && c in w.peers && g.c in w.peers
    ensures var w' := ConnectDestroyed(w, c);
            && Wired(w') && Pending(w', g) == Pending(w, g) && Done(w', g) == Done(w, g) + One(g == Destroyed(c))
  {
    CountPush(w.ran, Destroyed(c), g);
  }

  /** Closing either erases at once, on the base loop, or asks the base loop to. */
  lemma ClosedEffect(w: World, c: ConnId, g: Functor)
    requires Wired(w) && c in w.peers && g.c in w.peers
    ensures var w' := HandleCloseOf(w, c);
            && Wired(w')
            && (if w.peers[c].loop == w.base then
                  && Pending(w', g) == Pending(w, g) + One(g == Destroyed(c))
                  && Done(w', g) == Done(w, g) + One(g == RemoveInLoop(c))
                else
                  && Pending(w', g) == Pending(w, g) + One(g == RemoveInLoop(c))
                  && Done(w', g) == Done(w, g))
  {
    var p := ClosedPeer(w.poller, w.peers[c]);
    var w1 := WithPeer(w, c, p);
    PeerEffect(w, c, p, g);
    if w.peers[c].loop == w.base { RemovedEffect(w1, c, g); } else { PushEffect(w1, w.base, RemoveInLoop(c), g); }
  }

  // ---------------------------------------------------------------- phases move on

  /** A functor that is no lifecycle functor of d may come and go. */
  predicate Concerns(f: Functor, d: ConnId) {
    f == Established(d) || f == RemoveInLoop(d) || f == Destroyed(d)
  }

  lemma PushAside(w: World, l: LoopId, f: Functor, d: ConnId)
    requires Wired(w) && f.c in w.peers && l in w.queues && l == Home(w, f) && d in w.peers && !Concerns(f, d)
    ensures Wired(QueueInLoop(w, l, f)) && Same(w, QueueInLoop(w, l, f), d)
  {
    hide Pending, Done;
    PushEffect(w, l, f, Established(d));
    PushEffect(w, l, f, RemoveInLoop(d));
    PushEffect(w, l, f, Destroyed(d));
  }

  lemma PopAside(w: World, l: LoopId, d: ConnId)
    requires Inv(w) && l in w.queues && w.queues[l] != [] && w.loops[l].left > 0
    requires d in w.peers && !Concerns(w.queues[l][0], d)
    ensures Wired(Popped(w, l)) && Same(w, Popped(w, l), d)
  {
    hide Pending, Done, Called, NoGhosts, Phased, Timed;
    assert w.queues[l][0] in w.queues[l];
    PopEffect(w, l, Established(d));
    PopEffect(w, l, RemoveInLoop(d));
    PopEffect(w, l, Destroyed(d));
  }

  lemma EstablishedAside(w: World, c: ConnId, d: ConnId)
    requires Wired(w) && c in w.peers && d in w.peers && c != d
    ensures Wired(ConnectEstablished(w, c)) && Same(w, ConnectEstablished(w, c), d)
  {
    hide Pending, Done;
    EstablishedEffect(w, c, Established(d));
    EstablishedEffect(w, c, RemoveInLoop(d));
    EstablishedEffect(w, c, Destroyed(d));
  }

  lemma RemovedAside(w: World, c: ConnId, d: ConnId)
    requires Wired(w) && c in w.peers && d in w.peers && c != d
    ensures Wired(RemoveConnectionInLoop(w, c)) && Same(w, RemoveConnectionInLoop(w, c), d)
  {
    hide Pending, Done;
    RemovedEffect(w, c, Established(d));
    RemovedEffect(w, c, RemoveInLoop(d));
    RemovedEffect(w, c, Destroyed(d));
  }

  lemma DestroyedAside(w: World, c: ConnId, d: ConnId)
    requires Wired(w) && c in w.peers && d in w.peers && c != d
    ensures Wired(ConnectDestroyed(w, c)) && Same(w, ConnectDestroyed(w, c), d)
  {
    hide Pending, Done;
    DestroyedEffect(w, c, Established(d));
    DestroyedEffect(w, c, RemoveInLoop(d));
    DestroyedEffect(w, c, Destroyed(d));
  }

  lemma ClosedAside(w: World, c: ConnId, d: ConnId)
    requires Wired(w) && c in w.peers && d in w.peers && c != d
    ensures Wired(HandleCloseOf(w, c)) && Same(w, HandleCloseOf(w, c), d)
  {
    hide Pending, Done;
    ClosedEffect(w, c, Established(d));
    ClosedEffect(w, c, RemoveInLoop(d));
    ClosedEffect(w, c, Destroyed(d));
  }

  lemma PeerAside(w: World, c: ConnId, p: Peer, d: ConnId)
    requires Wired(w) && c in w.peers && p.loop == w.peers[c].loop && d in w.peers
    ensures var w' := WithPeer(w, c, p);
            && Wired(w') && SameCounts(w, w', d) && (d != c ==> Same(w, w', d))
  {
    hide Pending, Done;
    PeerEffect(w, c, p, Established(d));
    PeerEffect(w, c, p, RemoveInLoop(d));
    PeerEffect(w, c, p, Destroyed(d));
  }

  /** `handleClose` on a live connection. */
  lemma CloseMovesOn(w: World, c: ConnId)
    requires Wired(w) && c in w.peers && InPhase(w, c, Live)
    ensures Wired(HandleCloseOf(w, c))
    ensures InPhase(HandleCloseOf(w, c), c, if w.peers[c].loop == w.base then Erased else Closed)
  {
    hide Pending, Done;
    ClosedEffect(w, c, Established(c));
    ClosedEffect(w, c, RemoveInLoop(c));
    ClosedEffect(w, c, Destroyed(c));
  }

  lemma EstablishMovesOn(w: World, l: LoopId, c: ConnId)
    requires Wired(w) && l in w.queues && w.queues[l] != [] && w.loops[l].left > 0 && w.queues[l][0] == Established(c)
    requires c in w.peers && l == Home(w, Established(c)) && InPhase(w, c, Accepted)
    ensures var w' := ConnectEstablished(Popped(w, l), c); Wired(w') && InPhase(w', c, Live)
  {
    hide Pending, Done;
    var w1 := Popped(w, l);
    PopEffect(w, l, Established(c));
    PopEffect(w, l, RemoveInLoop(c));
    PopEffect(w, l, Destroyed(c));
    EstablishedEffect(w1, c, Established(c));
    EstablishedEffect(w1, c, RemoveInLoop(c));
    EstablishedEffect(w1, c, Destroyed(c));
  }

  lemma RemoveMovesOn(w: World, l: LoopId, c: ConnId)
    requires Wired(w) && l in w.queues && w.queues[l] != [] && w.loops[l].left > 0 && w.queues[l][0] == RemoveInLoop(c)
    requires c in w.peers && l == Home(w, RemoveInLoop(c)) && InPhase(w, c, Closed)
    ensures var w' := RemoveConnectionInLoop(Popped(w, l), c); Wired(w') && InPhase(w', c, Erased)
  {
    hide Pending, Done;
    var w1 := Popped(w, l);
    PopEffect(w, l, Established(c));
    PopEffect(w, l, RemoveInLoop(c));
    PopEffect(w, l, Destroyed(c));
    RemovedEffect(w1, c, Established(c));
    RemovedEffect(w1, c, RemoveInLoop(c));
    RemovedEffect(w1, c, Destroyed(c));
  }

  lemma DestroyMovesOn(w: World, l: LoopId, c: ConnId)
    requires Wired(w) && l in w.queues && w.queues[l] != [] && w.loops[l].left > 0 && w.queues[l][0] == Destroyed(c)
    requires c in w.peers && l == Home(w, Destroyed(c)) && InPhase(w, c, Erased)
    ensures var w' := ConnectDestroyed(Popped(w, l), c); Wired(w') && InPhase(w', c, Gone)
  {
    hide Pending, Done;
    var w1 := Popped(w, l);
    PopEffect(w, l, Established(c));
    PopEffect(w, l, RemoveInLoop(c));
    PopEffect(w, l, Destroyed(c));
    DestroyedEffect(w1, c, Established(c));
    DestroyedEffect(w1, c, RemoveInLoop(c));
    DestroyedEffect(w1, c, Destroyed(c));
  }

  /** The lifecycle functor at the front of a queue tells the phase of its connection. */
  lemma FrontPhase(w: World, l: LoopId, ph: Phase)
    requires Inv(w) && l in w.queues && w.queues[l] != []
    requires match w.queues[l][0]
             case Established(_) => ph == Accepted
             case RemoveInLoop(_) => ph == Closed
             case Destroyed(_) => ph == Erased
             case _ => false
    ensures var f := w.queues[l][0]; f.c in w.peers && l == Home(w, f) && InPhase(w, f.c, ph)
  {
    var f := w.queues[l][0];
    assert f in w.queues[l];
    CountMember(w.queues[l], f);
    var ph' :| InPhase(w, f.c, ph');
    assert Pending(w, f) > 0;
  }

  /** The only ways a phase can change; on the base loop closing erases at once. */
  predicate Follows(onBase: bool, ph: Phase, ph': Phase) {
    || ph' == ph
    || (ph == Accepted && ph' == Live)
    || (ph == Live && ph' == if onBase then Erased else Closed)
    || (ph == Closed && ph' == Erased)
    || (ph == Erased && ph' == Gone)
  }

  lemma EnabledIsRunnable(w: World, step: Step)
    requires Inv(w) && Enabled(w, step)
    ensures Runnable(w, step)
  {
    hide Phased, NoGhosts, Timed;
    if step.RunFront? { assert w.queues[step.l][0] in w.queues[step.l]; }
  }

  lemma EstablishFront(w: World, l: LoopId, c: ConnId, d: ConnId, ph: Phase) returns (ph': Phase)
    requires Inv(w) && Runnable(w, RunFront(l)) && w.queues[l][0] == Established(c) && d in w.peers && InPhase(w, d, ph)
    ensures Wired(Popped(w, l)) && var w' := ConnectEstablished(Popped(w, l), c);
            Wired(w') && d in w'.peers && InPhase(w', d, ph') && Follows(w.peers[d].loop == w.base, ph, ph')
  {
    hide InPhase, Same, Placed, Called, NoGhosts, Phased, Timed, EstablishedPeer;
    FrontPhase(w, l, Accepted);
    EstablishMovesOn(w, l, c);
    if d == c {
      OnePhase(w, c, ph, Accepted);
      ph' := Live;
    } else {
      PopAside(w, l, d);
      EstablishedAside(Popped(w, l), c, d);
      SameInPhase(w, Popped(w, l), d, ph);
      SameInPhase(Popped(w, l), ConnectEstablished(Popped(w, l), c), d, ph);
      ph' := ph;
    }
  }

  lemma RemoveFront(w: World, l: LoopId, c: ConnId, d: ConnId, ph: Phase) returns (ph': Phase)
    requires Inv(w) && Runnable(w, RunFront(l)) && w.queues[l][0] == RemoveInLoop(c)
    requires d in w.peers && InPhase(w, d, ph)
    ensures Wired(Popped(w, l)) && var w' := RemoveConnectionInLoop(Popped(w, l), c);
            Wired(w') && d in w'.peers && InPhase(w', d, ph') && Follows(w.peers[d].loop == w.base, ph, ph')
  {
    hide InPhase, Same, Placed, Called, NoGhosts, Phased, Timed;
    FrontPhase(w, l, Closed);
    PoppedWired(w, l);
    RemoveMovesOn(w, l, c);
    if d == c {
      OnePhase(w, c, ph, Closed);
      ph' := Erased;
    } else {
      PopAside(w, l, d);
      RemovedAside(Popped(w, l), c, d);
      SameInPhase(w, Popped(w, l), d, ph);
      SameInPhase(Popped(w, l), RemoveConnectionInLoop(Popped(w, l), c), d, ph);
      ph' := ph;
    }
  }

  lemma DestroyFront(w: World, l: LoopId, c: ConnId, d: ConnId, ph: Phase) returns (ph': Phase)
    requires Inv(w) && Runnable(w, RunFront(l)) && w.queues[l][0] == Destroyed(c) && d in w.peers && InPhase(w, d, ph)
    ensures Wired(Popped(w, l)) && var w' := ConnectDestroyed(Popped(w, l), c);
            Wired(w') && d in w'.peers && InPhase(w', d, ph') && Follows(w.peers[d].loop == w.base, ph, ph')
  {
    hide InPhase, Same, Placed, Called, NoGhosts, Phased, Timed, DestroyedPeer;
    FrontPhase(w, l, Erased);
    DestroyMovesOn(w, l, c);
    if d == c {
      OnePhase(w, c, ph, Erased);
      ph' := Gone;
    } else {
      PopAside(w, l, d);
      DestroyedAside(Popped(w, l), c, d);
      SameInPhase(w, Popped(w, l), d, ph);
      SameInPhase(Popped(w, l), ConnectDestroyed(Popped(w, l), c), d, ph);
      ph' := ph;
    }
  }

  lemma RunFrontMoves(w: World, l: LoopId, d: ConnId, ph: Phase) returns (ph': Phase)
    requires Inv(w) && Runnable(w, RunFront(l)) && d in w.peers && InPhase(w, d, ph)
    ensures var w' := ApplyStep(w, RunFront(l));
            Wired(w') && d in w'.peers && InPhase(w', d, ph') && Follows(w.peers[d].loop == w.base, ph, ph')
  {
    hide InPhase, Pending, Done, Same, Placed, Called, NoGhosts, Phased, Timed, HandleCloseOf, ConnectDestroyed,
      ConnectEstablished, RemoveConnectionInLoop;
    var f, w1 := w.queues[l][0], Popped(w, l);
    ph' := ph;
    match f {
      case Established(c) => ph' := EstablishFront(w, l, c, d, ph);
      case RemoveInLoop(c) => ph' := RemoveFront(w, l, c, d, ph);
      case Destroyed(c) => ph' := DestroyFront(w, l, c, d, ph);
      case ForceCloseInLoop(c) =>
        PopAside(w, l, d);
        SameInPhase(w, w1, d, ph);
        ph' := ForceCloseMoves(w1, c, d, ph);
      case ShutdownRaw(c) =>
        PopAside(w, l, d);
        SameInPhase(w, w1, d, ph);
    }
  }

  /** A connection is in one phase only. */
  lemma OnePhase(w: World, c: ConnId, ph: Phase, ph': Phase)
    requires Wired(w) && c in w.peers && InPhase(w, c, ph) && InPhase(w, c, ph')
    ensures ph == ph'
  {
  }

  lemma ForceCloseMoves(w: World, c: ConnId, d: ConnId, ph: Phase) returns (ph': Phase)
    requires Wired(w) && c in w.peers && d in w.peers && InPhase(w, d, ph)
    ensures var w' := Run(w, ForceCloseInLoop(c));
            && Wired(w') && d in w'.peers && InPhase(w', d, ph') && Follows(w.peers[d].loop == w.base, ph, ph')
            && (Open(w.peers[c]) && d == c ==> w'.peers[c].state == Disconnected && ph' != ph)
  {
    hide Pending, Done, HandleCloseOf;
    ph' := ph;
    RunChanges(w, ForceCloseInLoop(c), c);
    if Open(w.peers[c]) { ph' := CloseMoves(w, c, d, ph); }
  }

  lemma CloseMoves(w: World, c: ConnId, d: ConnId, ph: Phase) returns (ph': Phase)
    requires Wired(w) && c in w.peers && d in w.peers && InPhase(w, d, ph) && (d == c ==> ph == Live)
    ensures var w' := HandleCloseOf(w, c);
            Wired(w') && d in w'.peers && InPhase(w', d, ph') && Follows(w.peers[d].loop == w.base, ph, ph')
  {
    hide Pending, Done, InPhase;
    if d == c {
      CloseMovesOn(w, c);
      ph' := if w.peers[c].loop == w.base then Erased else Closed;
    } else {
      ClosedAside(w, c, d);
      SameInPhase(w, HandleCloseOf(w, c), d, ph);
      ph' := ph;
    }
  }

  /** Another state or mask for a connection in phase ph leaves all connections in their phases. */
  lemma PeerStays(w: World, c: ConnId, p: Peer, d: ConnId, ph: Phase)
    requires Wired(w) && c in w.peers && d in w.peers && InPhase(w, d, ph) && p.loop == w.peers[c].loop
    requires d == c ==>
               && (p.state == w.peers[c].state || (Open(w.peers[c]) && p.state == Disconnecting))
               && p.registered == w.peers[c].registered
    ensures Wired(WithPeer(w, c, p)) && InPhase(WithPeer(w, c, p), d, ph)
  {
    hide Pending, Done;
    PeerAside(w, c, p, d);
  }

  lemma QueueStays(w: World, f: Functor, d: ConnId, ph: Phase)
    requires Wired(w) && f.c in w.peers && d in w.peers && InPhase(w, d, ph) && !Concerns(f, d)
    ensures var w1 := QueueInLoop(w, Home(w, f), f); Wired(w1) && InPhase(w1, d, ph)
  {
    PushAside(w, Home(w, f), f, d);
    SameInPhase(w, QueueInLoop(w, Home(w, f), f), d, ph);
  }

  lemma CallsStay(w: World, calls: multiset<Functor>, d: ConnId, ph: Phase)
    requires Wired(w) && d in w.peers && InPhase(w, d, ph)
    requires calls[ShutdownRaw(d)] <= One(w.peers[d].state == Disconnecting || w.peers[d].state == Disconnected)
    ensures Wired(w.(calls := calls)) && InPhase(w.(calls := calls), d, ph)
  {
  }

  lemma CallingMoves(w: World, f: Functor, d: ConnId, ph: Phase)
    requires Wired(w) && f.c in w.peers && d in w.peers && InPhase(w, d, ph) && Open(w.peers[f.c])
    requires f == ForceCloseInLoop(f.c) || (f == ShutdownRaw(f.c) && w.peers[f.c].state == Connected)
    ensures Wired(Calling(w, f.c, f)) && InPhase(Calling(w, f.c, f), d, ph)
  {
    var p := w.peers[f.c].(state := Disconnecting);
    assert w.calls[ShutdownRaw(d)] <= One(w.peers[d].state == Disconnecting || w.peers[d].state == Disconnected);
    PeerStays(w, f.c, p, d, ph);
    CallsStay(WithPeer(w, f.c, p), w.calls + multiset{f}, d, ph);
  }

  /** Changes of the mask. */
  lemma MaskMoves(w: World, step: Step, d: ConnId, ph: Phase)
    requires Wired(w) && Runnable(w, step) && d in w.peers && InPhase(w, d, ph)
    requires step.SetWriting? || step.StopRead? || step.StartRead?
    ensures var w' := ApplyStep(w, step); Wired(w') && d in w'.peers && InPhase(w', d, ph)
  {
    hide Pending, Done;
    if step.SetWriting? { OpenIsKnown(w, step.c, d, ph); }
    match step
    case SetWriting(c, on) => PeerStays(w, c, Updated(w.poller, w.peers[c], w.peers[c].mask.(write := on)), d, ph);
    case StopRead(c) => PeerStays(w, c, StoppedPeer(w.poller, w.peers[c]), d, ph);
    case StartRead(c) => PeerStays(w, c, StartedPeer(w.poller, w.peers[c]), d, ph);
  }

  lemma OpenIsKnown(w: World, c: ConnId, d: ConnId, ph: Phase)
    requires Wired(w) && c in w.peers && Open(w.peers[c]) && d in w.peers && InPhase(w, d, ph)
    ensures d == c ==> w.peers[c].registered
  {
  }

  lemma CallMoves(w: World, step: Step, d: ConnId, ph: Phase)
    requires Inv(w) && Runnable(w, step) && d in w.peers && InPhase(w, d, ph)
    requires step.ShutdownCall? || step.ForceClose? || step.Push?
    ensures var w' := ApplyStep(w, step); Wired(w') && d in w'.peers && InPhase(w', d, ph)
  {
    hide InPhase, Placed, Called, NoGhosts, Phased, Timed, Awake;
    match step
    case ShutdownCall(c, inLoop) =>
      if w.peers[c].state == Connected {
        if inLoop { ShutdownStays(w, c, d, ph); } else { CallingMoves(w, ShutdownRaw(c), d, ph); }
      }
    case ForceClose(c) => if Open(w.peers[c]) { CallingMoves(w, ForceCloseInLoop(c), d, ph); }
    case Push(f) => PushMoves(w, f, d, ph);
  }

  lemma PushMoves(w: World, f: Functor, d: ConnId, ph: Phase)
    requires Wired(w) && Called(w) && f in w.calls && f.c in w.peers && d in w.peers && InPhase(w, d, ph)
    ensures Wired(Pushed(w, f)) && InPhase(Pushed(w, f), d, ph)
  {
    FewerCalls(w, f, d, ph);
    QueueStays(w.(calls := w.calls - multiset{f}), f, d, ph);
  }

  lemma ShutdownStays(w: World, c: ConnId, d: ConnId, ph: Phase)
    requires Wired(w) && c in w.peers && d in w.peers && InPhase(w, d, ph) && w.peers[c].state == Connected
    ensures var w' := WithPeer(w, c, w.peers[c].(state := Disconnecting)); Wired(w') && InPhase(w', d, ph)
  {
    PeerStays(w, c, w.peers[c].(state := Disconnecting), d, ph);
  }

  lemma FewerCalls(w: World, f: Functor, d: ConnId, ph: Phase)
    requires Wired(w) && d in w.peers && InPhase(w, d, ph)
    ensures var w' := w.(calls := w.calls - multiset{f}); Wired(w') && InPhase(w', d, ph)
  {
    CallsStay(w, w.calls - multiset{f}, d, ph);
  }

  // ---------------------------------------------------------------- functors stay where they belong

  lemma OrderlyPush(w: World, f: Functor)
    requires Orderly(w) && f.c in w.peers
    ensures Orderly(QueueInLoop(w, Home(w, f), f))
  {
    hide TimedLoop;
    TimedPush(w, Home(w, f), f);
  }

  lemma TimedPush(w: World, l: LoopId, f: Functor)
    requires Wired(w) && Timed(w) && l in w.queues
    ensures Wired(QueueInLoop(w, l, f)) && Timed(QueueInLoop(w, l, f))
  {
    var w' := QueueInLoop(w, l, f);
    forall k | k in w'.loops ensures TimedLoop(w', k) { assert TimedLoop(w, k); }
  }

  lemma OrderlyPop(w: World, l: LoopId)
    requires Orderly(w) && l in w.queues && w.queues[l] != [] && w.loops[l].left > 0
    ensures Orderly(Popped(w, l))
  {
    hide TimedLoop;
    TimedPop(w, l);
    assert forall f | f in w.queues[l][1..] :: f in w.queues[l];
  }

  lemma TimedPop(w: World, l: LoopId)
    requires Wired(w) && Timed(w) && l in w.queues && w.queues[l] != [] && w.loops[l].left > 0
    ensures Wired(Popped(w, l)) && Timed(Popped(w, l))
  {
    var w' := Popped(w, l);
    forall k | k in w'.loops ensures TimedLoop(w', k) {
      assert TimedLoop(w, k);
      if k == l { assert forall i | 0 <= i < w.loops[l].left - 1 :: w'.queues[l][i] == w.queues[l][i + 1]; }
    }
  }

  /** Nothing but states and masks differ, and no connection changes its loop. */
  lemma TimedPeers(w: World, w': World)
    requires Wired(w) && Timed(w) && Wired(w') && w'.queues == w.queues && w'.loops == w.loops && w'.base == w.base
    requires forall c | c in w.peers :: c in w'.peers && w'.peers[c].loop == w.peers[c].loop
    ensures Timed(w')
  {
    forall k | k in w'.loops ensures TimedLoop(w', k) { assert TimedLoop(w, k); }
  }

  /** A loop goes on in its iteration. */
  lemma OrderlyLoop(w: World, l: LoopId, it: Iteration)
    requires Orderly(w) && l in w.loops
    requires Wired(WithLoop(w, l, it)) && TimedLoop(WithLoop(w, l, it), l)
    ensures Orderly(WithLoop(w, l, it))
  {
    hide TimedLoop;
    var w' := WithLoop(w, l, it);
    forall k | k in w'.loops && k != l ensures TimedLoop(w', k) { TimedOther(w, l, it, k); }
  }

  lemma TimedOther(w: World, l: LoopId, it: Iteration, k: LoopId)
    requires Wired(w) && Wired(WithLoop(w, l, it)) && k in w.loops && k != l && TimedLoop(w, k)
    ensures TimedLoop(WithLoop(w, l, it), k)
  {
  }

  lemma OrderlyPeer(w: World, c: ConnId, p: Peer)
    requires Orderly(w) && c in w.peers && p.loop == w.peers[c].loop
    ensures Orderly(WithPeer(w, c, p))
  {
    hide TimedLoop;
    TimedPeers(w, WithPeer(w, c, p));
  }

  lemma OrderlyRan(w: World, f: Functor)
    requires Orderly(w) && f.c in w.peers
    ensures Orderly(w.(ran := w.ran + [f]))
  {
    hide TimedLoop;
    TimedPeers(w, w.(ran := w.ran + [f]));
  }

  lemma OrderlyMap(w: World, connections: set<ConnId>)
    requires Orderly(w) && connections <= w.peers.Keys
    ensures Orderly(w.(connections := connections))
  {
    hide TimedLoop;
    TimedPeers(w, w.(connections := connections));
  }

  lemma OrderlyCalls(w: World, calls: multiset<Functor>)
    requires Orderly(w) && forall f | f in calls :: f.c in w.peers && (f.ShutdownRaw? || f.ForceCloseInLoop?)
    ensures Orderly(w.(calls := calls))
  {
    hide TimedLoop;
    TimedPeers(w, w.(calls := calls));
  }

  lemma OrderlyEstablished(w: World, c: ConnId)
    requires Orderly(w) && c in w.peers
    ensures Orderly(ConnectEstablished(w, c))
  {
    hide Orderly;
    var p := EstablishedPeer(w.poller, w.peers[c]);
    OrderlyPeer(w, c, p);
    OrderlyRan(WithPeer(w, c, p), Established(c));
  }

  lemma OrderlyRemoved(w: World, c: ConnId)
    requires Orderly(w) && c in w.peers
    ensures Orderly(RemoveConnectionInLoop(w, c))
  {
    hide Placed, Called, NoGhosts, Timed;
    OrderlyMap(w, w.connections - {c});
    var w1 := w.(connections := w.connections - {c});
    OrderlyRan(w1, RemoveInLoop(c));
    OrderlyPush(w1.(ran := w1.ran + [RemoveInLoop(c)]), Destroyed(c));
  }

  lemma OrderlyClosed(w: World, c: ConnId)
    requires Orderly(w) && c in w.peers
    ensures Orderly(HandleCloseOf(w, c))
  {
    hide Placed, Called, NoGhosts, Timed;
    var p := ClosedPeer(w.poller, w.peers[c]);
    OrderlyPeer(w, c, p);
    var w1 := WithPeer(w, c, p);
    if w.peers[c].loop == w.base { OrderlyRemoved(w1, c); } else { OrderlyPush(w1, RemoveInLoop(c)); }
  }

  lemma OrderlyDestroyed(w: World, c: ConnId)
    requires Orderly(w) && c in w.peers
    ensures Orderly(ConnectDestroyed(w, c))
  {
    hide Placed, Called, NoGhosts, Timed;
    var p := DestroyedPeer(w.poller, w.peers[c]);
    OrderlyPeer(w, c, p);
    OrderlyRan(WithPeer(w, c, p), Destroyed(c));
  }

  lemma OrderlyRunFront(w: World, l: LoopId)
    requires Orderly(w) && Runnable(w, RunFront(l))
    ensures Orderly(ApplyStep(w, RunFront(l)))
  {
    hide Placed, Called, NoGhosts, Timed;
    OrderlyPop(w, l);
    var f, w1 := w.queues[l][0], Popped(w, l);
    match f
    case Established(c) => OrderlyEstablished(w1, c);
    case RemoveInLoop(c) => OrderlyRemoved(w1, c);
    case Destroyed(c) => OrderlyDestroyed(w1, c);
    case ForceCloseInLoop(c) => if Open(w1.peers[c]) { OrderlyClosed(w1, c); }
    case ShutdownRaw(c) =>
  }

  lemma OrderlyCalling(w: World, f: Functor)
    requires Orderly(w) && f.c in w.peers && (f.ShutdownRaw? || f.ForceCloseInLoop?)
    ensures Orderly(Calling(w, f.c, f))
  {
    hide Placed, NoGhosts, Timed;
    var p := w.peers[f.c].(state := Disconnecting);
    OrderlyPeer(w, f.c, p);
    OrderlyCalls(WithPeer(w, f.c, p), w.calls + multiset{f});
  }

  // ---------------------------------------------------------------- accepting

  lemma AdmittedOrderly(w: World, l: LoopId)
    requires Orderly(w) && l in w.queues
    ensures Orderly(Admitted(w, l))
  {
    hide TimedLoop;
    TimedPeers(w, Admitted(w, l));
  }

  /** A new number has no functor anywhere. */
  lemma AdmittedClean(w: World, l: LoopId, f: Functor)
    requires Orderly(w) && l in w.queues && f.c == w.nextConnId
    ensures Wired(Admitted(w, l)) && Pending(Admitted(w, l), f) == 0 && Done(Admitted(w, l), f) == 0
    ensures w.calls[ShutdownRaw(w.nextConnId)] == 0
  {
    var home := if f.RemoveInLoop? then w.base else l;
    CountMember(w.queues[home], f);
    CountMember(w.ran, f);
  }

  lemma AdmittedAside(w: World, l: LoopId, d: ConnId)
    requires Orderly(w) && l in w.queues && d in w.peers
    ensures Wired(Admitted(w, l)) && Same(w, Admitted(w, l), d)
  {
    hide Called, NoGhosts, Placed, Timed;
  }

  lemma AcceptOwn(w: World, l: LoopId)
    requires Orderly(w) && l in w.queues
    ensures var w' := NewConnection(w, l);
            && Wired(w') && w.nextConnId in w'.peers
            && InPhase(w', w.nextConnId, if l == w.base then Live else Accepted)
  {
    hide Pending, Done, Placed, Called, NoGhosts, Timed;
    var c, w1 := w.nextConnId, Admitted(w, l);
    AdmittedClean(w, l, Established(c));
    AdmittedClean(w, l, RemoveInLoop(c));
    AdmittedClean(w, l, Destroyed(c));
    if l == w.base {
      EstablishedEffect(w1, c, Established(c));
      EstablishedEffect(w1, c, RemoveInLoop(c));
      EstablishedEffect(w1, c, Destroyed(c));
    } else {
      PushEffect(w1, l, Established(c), Established(c));
      PushEffect(w1, l, Established(c), RemoveInLoop(c));
      PushEffect(w1, l, Established(c), Destroyed(c));
    }
  }

  lemma AcceptOthers(w: World, l: LoopId, d: ConnId, ph: Phase)
    requires Orderly(w) && l in w.queues && d in w.peers && InPhase(w, d, ph)
    ensures var w' := NewConnection(w, l); Wired(w') && d in w'.peers && InPhase(w', d, ph)
  {
    hide Pending, Done, Placed, Called, NoGhosts, Timed, InPhase, Same;
    var c, w1 := w.nextConnId, Admitted(w, l);
    AdmittedAside(w, l, d);
    SameInPhase(w, w1, d, ph);
    if l == w.base {
      EstablishedAside(w1, c, d);
    } else {
      PushAside(w1, l, Established(c), d);
    }
    SameInPhase(w1, NewConnection(w, l), d, ph);
  }

  lemma OrderlyAccept(w: World, l: LoopId)
    requires Orderly(w) && l in w.queues
    ensures Orderly(NewConnection(w, l))
  {
    hide Placed, Called, NoGhosts, Timed;
    AdmittedOrderly(w, l);
    if l == w.base {
      OrderlyEstablished(Admitted(w, l), w.nextConnId);
    } else {
      OrderlyPush(Admitted(w, l), Established(w.nextConnId));
    }
  }

  // ---------------------------------------------------------------- every step

  /** A close that meets a connection which is not open, against the assertion of `handleClose`. */
  predicate BadClose(w: World, step: Step) {
    step.CloseEvent? && step.c in w.peers && !Open(w.peers[step.c])
  }

  lemma LoopAside(w: World, l: LoopId, it: Iteration, d: ConnId, ph: Phase)
    requires Wired(w) && l in w.loops && d in w.peers && InPhase(w, d, ph)
    ensures Wired(WithLoop(w, l, it)) && InPhase(WithLoop(w, l, it), d, ph)
  {
  }

  /** Whatever happens but a bad close, a connection stays in its phase or moves to the next one. */
  lemma StepMoves(w: World, step: Step, d: ConnId, ph: Phase) returns (ph': Phase)
    requires Inv(w) && Runnable(w, step) && !BadClose(w, step) && d in w.peers && InPhase(w, d, ph)
    ensures var w' := ApplyStep(w, step);
            Wired(w') && d in w'.peers && InPhase(w', d, ph') && Follows(w.peers[d].loop == w.base, ph, ph')
  {
    hide InPhase, Placed, Called, NoGhosts, Phased, Timed, Updated, StoppedPeer, StartedPeer;
    ph' := ph;
    match step {
      case Poll(l, reported) => LoopAside(w, l, Iteration(Handling, reported, 0, {}), d, ph);
      case TakeBatch(l) => LoopAside(w, l, Iteration(Running, {}, |w.queues[l]|, set f | f in w.queues[l]), d, ph);
      case EndBatch(l) => LoopAside(w, l, AT_POLL, d, ph);
      case Dispatch(c) => DispatchAside(w, c, d, ph);
      case Accept(l) => AcceptOthers(w, l, d, ph);
      case RunFront(l) => ph' := RunFrontMoves(w, l, d, ph);
      case CloseEvent(c) =>
        DispatchAside(w, c, d, ph);
        if d == c { OpenIsLive(w, c, ph); }
        ph' := CloseMoves(Dispatched(w, c), c, d, ph);
      case SetWriting(_, _) => MaskMoves(w, step, d, ph);
      case StopRead(_) => MaskMoves(w, step, d, ph);
      case StartRead(_) => MaskMoves(w, step, d, ph);
      case _ => CallMoves(w, step, d, ph);
    }
  }

  lemma DispatchAside(w: World, c: ConnId, d: ConnId, ph: Phase)
    requires Wired(w) && Reported(w, c) && d in w.peers && InPhase(w, d, ph)
    ensures Wired(Dispatched(w, c)) && InPhase(Dispatched(w, c), d, ph)
  {
    var l := w.peers[c].loop;
    LoopAside(w, l, w.loops[l].(reports := w.loops[l].reports - {c}), d, ph);
  }

  lemma OpenIsLive(w: World, c: ConnId, ph: Phase)
    requires Wired(w) && c in w.peers && InPhase(w, c, ph) && Open(w.peers[c])
    ensures ph == Live
  {
  }

  lemma CalledLess(w: World, f: Functor)
    requires Called(w)
    ensures forall g | g in w.calls - multiset{f} :: g.c in w.peers && (g.ShutdownRaw? || g.ForceCloseInLoop?)
    ensures f in w.calls ==> f.c in w.peers && (f.ShutdownRaw? || f.ForceCloseInLoop?)
  {
  }

  lemma OrderlyPoll(w: World, l: LoopId, reported: set<ConnId>)
    requires Orderly(w) && l in w.loops && forall c | c in reported :: c in w.peers && w.peers[c].loop == l
    ensures Orderly(WithLoop(w, l, Iteration(Handling, reported, 0, {})))
  {
    hide NoGhosts, Called, Placed, Timed;
    OrderlyLoop(w, l, Iteration(Handling, reported, 0, {}));
  }

  lemma OrderlyTake(w: World, l: LoopId)
    requires Orderly(w) && l in w.loops
    ensures Orderly(WithLoop(w, l, Iteration(Running, {}, |w.queues[l]|, set f | f in w.queues[l])))
  {
    hide NoGhosts, Called, Timed;
    OrderlyLoop(w, l, Iteration(Running, {}, |w.queues[l]|, set f | f in w.queues[l]));
  }

  lemma OrderlyEnd(w: World, l: LoopId)
    requires Orderly(w) && l in w.loops
    ensures Orderly(WithLoop(w, l, AT_POLL))
  {
    hide NoGhosts, Called, Placed, Timed;
    OrderlyLoop(w, l, AT_POLL);
  }

  lemma OrderlyDispatch(w: World, c: ConnId)
    requires Orderly(w) && Reported(w, c)
    ensures Orderly(Dispatched(w, c))
  {
    hide NoGhosts, Called, Placed;
    var l := w.peers[c].loop;
    assert TimedLoop(w, l);
    OrderlyLoop(w, l, w.loops[l].(reports := w.loops[l].reports - {c}));
  }

  lemma StepOrderly(w: World, step: Step)
    requires Orderly(w) && Runnable(w, step)
    ensures Orderly(ApplyStep(w, step))
  {
    hide Placed, NoGhosts, Called, Timed;
    match step
    case Accept(l) => OrderlyAccept(w, l);
    case RunFront(l) => OrderlyRunFront(w, l);
    case CloseEvent(c) =>
      OrderlyDispatch(w, c);
      OrderlyClosed(Dispatched(w, c), c);
    case SetWriting(c, on) => OrderlyPeer(w, c, Updated(w.poller, w.peers[c], w.peers[c].mask.(write := on)));
    case StopRead(c) => OrderlyPeer(w, c, StoppedPeer(w.poller, w.peers[c]));
    case StartRead(c) => OrderlyPeer(w, c, StartedPeer(w.poller, w.peers[c]));
    case ShutdownCall(c, inLoop) =>
      OrderlyPeer(w, c, w.peers[c].(state := Disconnecting));
      OrderlyCalling(w, ShutdownRaw(c));
    case ForceClose(c) => OrderlyCalling(w, ForceCloseInLoop(c));
    case Push(f) =>
      CalledLess(w, f);
      OrderlyCalls(w, w.calls - multiset{f});
      OrderlyPush(w.(calls := w.calls - multiset{f}), f);
    case Poll(l, reported) => OrderlyPoll(w, l, reported);
    case TakeBatch(l) => OrderlyTake(w, l);
    case EndBatch(l) => OrderlyEnd(w, l);
    case Dispatch(c) => OrderlyDispatch(w, c);
  }

  lemma StepKeepsInv(w: World, step: Step)
    requires Inv(w) && Enabled(w, step)
    ensures Runnable(w, step)
    ensures !BadClose(w, step) ==> Inv(ApplyStep(w, step))
  {
    hide InPhase, Placed, Called, NoGhosts, Timed, BadClose, ApplyStep, Enabled;
    EnabledIsRunnable(w, step);
    StepOrderly(w, step);
    if !BadClose(w, step) {
      var w' := ApplyStep(w, step);
      forall d | d in w'.peers ensures exists ph :: InPhase(w', d, ph) {
        if d in w.peers {
          var ph :| InPhase(w, d, ph);
          var ph' := StepMoves(w, step, d, ph);
        } else {
          NewPeer(w, step, d);
          AcceptStep(w, step);
        }
      }
    }
  }

  lemma AcceptStep(w: World, step: Step)
    requires Orderly(w) && Runnable(w, step) && step.Accept?
    ensures var w' := ApplyStep(w, step);
            && Wired(w') && w.nextConnId in w'.peers
            && InPhase(w', w.nextConnId, if step.l == w.base then Live else Accepted)
  {
    AcceptOwn(w, step.l);
  }

  lemma RunPeers(w: World, f: Functor)
    requires Wired(w) && f.c in w.peers
    ensures Run(w, f).peers.Keys == w.peers.Keys
  {
  }

  /** Only accepting makes a connection. */
  lemma NewPeer(w: World, step: Step, d: ConnId)
    requires Wired(w) && Runnable(w, step) && d !in w.peers && d in ApplyStep(w, step).peers
    ensures step.Accept? && d == w.nextConnId
  {
    hide Run, Watches, Wired;
    if step.RunFront? {
      PoppedWired(w, step.l);
      RunPeers(Popped(w, step.l), w.queues[step.l][0]);
    }
  }

  lemma PoppedWired(w: World, l: LoopId)
    requires Wired(w) && l in w.queues && w.queues[l] != [] && w.loops[l].left > 0
    ensures Wired(Popped(w, l))
  {
  }

  // ---------------------------------------------------------------- whole runs

  ghost predicate Runs(w: World, steps: seq<Step>)
    decreases |steps|
  {
    steps == [] ||
    (Wired(w) && Runnable(w, steps[0]) && Runs(ApplyStep(w, steps[0]), steps[1..]))
  }

  ghost function Exec(w: World, steps: seq<Step>): World
    requires Runs(w, steps)
    decreases |steps|
  {
    if steps == [] then w else Exec(ApplyStep(w, steps[0]), steps[1..])
  }

  /** No close in the run meets a connection that is not open. */
  ghost predicate Proper(w: World, steps: seq<Step>)
    requires Runs(w, steps)
    decreases |steps|
  {
    steps == [] || (!BadClose(w, steps[0]) && Proper(ApplyStep(w, steps[0]), steps[1..]))
  }

  lemma {:induction false} RunKeepsInv(w: World, steps: seq<Step>)
    requires Inv(w) && Runs(w, steps) && Proper(w, steps)
    ensures Inv(Exec(w, steps))
    decreases |steps|
  {
    hide Inv, ApplyStep, BadClose;
    if steps != [] {
      StepKeepsInv(w, steps[0]);
      RunKeepsInv(ApplyStep(w, steps[0]), steps[1..]);
    }
  }

  lemma StartInv(poller: PollerKind, base: LoopId, loops: set<LoopId>)
    ensures Inv(Start(poller, base, loops))
  {
  }

  // ---------------------------------------------------------------- what running a functor leaves alone

  /** Only functors of d are queued, and no other connection changes. */
  ghost predicate OnlyAbout(w: World, w': World, d: ConnId) {
    && w'.calls == w.calls && w'.base == w.base && w'.loops == w.loops && w'.poller == w.poller
    && w'.connections <= w.connections && w.connections - {d} <= w'.connections
    && w'.queues.Keys == w.queues.Keys && w'.peers.Keys == w.peers.Keys
    && (forall k | k in w.queues :: Extends(w.queues[k], w'.queues[k], d))
    && (forall e | e in w.peers && e != d :: w'.peers[e] == w.peers[e])
  }

  ghost predicate Extends(q: seq<Functor>, q': seq<Functor>, d: ConnId) {
    q <= q' && forall j | |q| <= j < |q'| :: q'[j].c == d
  }

  lemma QueuedAbout(w: World, w': World, l: LoopId, f: Functor)
    requires OnlyAbout(w, w', f.c) && l in w'.queues
    ensures OnlyAbout(w, QueueInLoop(w', l, f), f.c)
  {
  }

  lemma ClosedAbout(w: World, c: ConnId)
    requires Wired(w) && c in w.peers
    ensures OnlyAbout(w, RemoveConnectionInLoop(w, c), c)
    ensures OnlyAbout(w, HandleCloseOf(w, c), c)
  {
    hide Extends, OnlyAbout;
    var gone := w.(connections := w.connections - {c}, ran := w.ran + [RemoveInLoop(c)]);
    NothingQueued(w, gone, c);
    QueuedAbout(w, gone, w.peers[c].loop, Destroyed(c));
    var closed := WithPeer(w, c, ClosedPeer(w.poller, w.peers[c]));
    NothingQueued(w, closed, c);
    QueuedAbout(w, closed, w.base, RemoveInLoop(c));
    var erased := closed.(connections := w.connections - {c}, ran := w.ran + [RemoveInLoop(c)]);
    NothingQueued(w, erased, c);
    QueuedAbout(w, erased, w.peers[c].loop, Destroyed(c));
  }

  lemma NothingQueued(w: World, w': World, c: ConnId)
    requires c in w.peers && w'.queues == w.queues && w'.calls == w.calls && w'.base == w.base
    requires w'.loops == w.loops && w'.poller == w.poller
    requires w'.connections <= w.connections && w.connections - {c} <= w'.connections
    requires c in w'.peers && w'.peers == w.peers[c := w'.peers[c]]
    ensures OnlyAbout(w, w', c)
  {
  }

  /** Running a functor queues only functors of its own connection, and changes no other one. */
  lemma RunPushes(w: World, f: Functor)
    requires Wired(w) && f.c in w.peers
    ensures OnlyAbout(w, Run(w, f), f.c)
  {
    hide OnlyAbout;
    match f
    case Established(c) => NothingQueued(w, Run(w, f), c);
    case Destroyed(c) => NothingQueued(w, Run(w, f), c);
    case RemoveInLoop(c) => ClosedAbout(w, c);
    case _ =>
      ClosedAbout(w, f.c);
      NothingQueued(w, w, f.c);
  }

  // ---------------------------------------------------------------- what is asked is done

  /** The functor that a step runs. */
  predicate RunsFunctor(w: World, step: Step, f: Functor) {
    step.RunFront? && step.l in w.queues && w.queues[step.l] != [] && w.queues[step.l][0] == f
  }

  /** The steps that close connection c: a report on it, or a forced close of it that finds it open. */
  predicate Closes(w: World, step: Step, c: ConnId)
    requires c in w.peers
  {
    step == CloseEvent(c) || (RunsFunctor(w, step, ForceCloseInLoop(c)) && Open(w.peers[c]))
  }

  /** The steps that ask for a close of connection c while it is open. */
  predicate Asks(w: World, step: Step, c: ConnId)
    requires c in w.peers
  {
    (step.ShutdownCall? && step.c == c && w.peers[c].state == Connected) || (step == ForceClose(c) && Open(w.peers[c]))
  }

  /** What a step makes of the connection's state, mask and `reading_`. */
  predicate ChangedBy(w: World, step: Step, c: ConnId, p: Peer)
    requires c in w.peers
  {
    var was, closes, opens := w.peers[c], Closes(w, step, c), RunsFunctor(w, step, Established(c));
    && p.loop == was.loop
    && p.state == (if closes then Disconnected else if Asks(w, step, c) then Disconnecting
                   else if opens then Connected else was.state)
    && p.mask.read == (if closes || step == StopRead(c) then false
                       else opens || step == StartRead(c) || was.mask.read)
    && p.mask.write == (if closes then false else if step == SetWriting(c, true) then true
                        else was.mask.write && step != SetWriting(c, false))
    && p.reading == (if step == StopRead(c) then false else step == StartRead(c) || was.reading)
  }

  lemma RunChanges(w: World, f: Functor, c: ConnId)
    requires Wired(w) && f.c in w.peers && c in w.peers
    requires f == Destroyed(c) ==> w.peers[c].state == Disconnected
    ensures var w', p := Run(w, f), w.peers[c];
            && c in w'.peers
            && w'.peers[c] == if f == ForceCloseInLoop(c) && Open(p) then ClosedPeer(w.poller, p)
                              else if f == Established(c) then EstablishedPeer(w.poller, p)
                              else if f == Destroyed(c) then p.(registered := false, watched := false) else p
  {
    hide Updated;
  }

  lemma FrontChanges(w: World, l: LoopId, c: ConnId)
    requires Wired(w) && Runnable(w, RunFront(l)) && c in w.peers
    requires w.queues[l][0] == Destroyed(c) ==> w.peers[c].state == Disconnected
    ensures c in ApplyStep(w, RunFront(l)).peers && ChangedBy(w, RunFront(l), c, ApplyStep(w, RunFront(l)).peers[c])
  {
    hide Run;
    PoppedWired(w, l);
    RunChanges(Popped(w, l), w.queues[l][0], c);
  }

  lemma MaskChanges(w: World, step: Step, c: ConnId)
    requires Wired(w) && Runnable(w, step) && c in w.peers && (step.SetWriting? || step.StopRead? || step.StartRead?)
    ensures c in ApplyStep(w, step).peers && ChangedBy(w, step, c, ApplyStep(w, step).peers[c])
  {
    hide Run, QueueInLoop, Watches, HandleCloseOf, NewConnection, Wired;
  }

  lemma CallChanges(w: World, step: Step, c: ConnId)
    requires Wired(w) && Runnable(w, step) && c in w.peers && (step.ShutdownCall? || step.ForceClose?)
    ensures c in ApplyStep(w, step).peers && ChangedBy(w, step, c, ApplyStep(w, step).peers[c])
  {
    hide Run, QueueInLoop, Updated, StoppedPeer, StartedPeer, HandleCloseOf, NewConnection, Wired, Awake, Reported;
    var p := w.peers[c];
    assert ApplyStep(w, step).peers[c] == if Asks(w, step, c) then p.(state := Disconnecting) else p;
  }

  lemma CloseChanges(w: World, c: ConnId, d: ConnId)
    requires Wired(w) && Runnable(w, CloseEvent(d)) && c in w.peers
    ensures var w' := ApplyStep(w, CloseEvent(d)); c in w'.peers && ChangedBy(w, CloseEvent(d), c, w'.peers[c])
  {
    hide Run, Watches, NewConnection;
  }

  lemma OtherChanges(w: World, step: Step, c: ConnId)
    requires Wired(w) && Runnable(w, step) && c in w.peers
    requires !step.RunFront? && !step.SetWriting? && !step.StopRead? && !step.StartRead?
    requires !step.ShutdownCall? && !step.ForceClose? && !step.CloseEvent? && !step.Accept?
    ensures c in ApplyStep(w, step).peers && ChangedBy(w, step, c, ApplyStep(w, step).peers[c])
  {
    hide Run, Updated, HandleCloseOf, NewConnection;
  }

  lemma AcceptChanges(w: World, l: LoopId, c: ConnId)
    requires Wired(w) && Runnable(w, Accept(l)) && c in w.peers
    ensures c in ApplyStep(w, Accept(l)).peers && ChangedBy(w, Accept(l), c, ApplyStep(w, Accept(l)).peers[c])
  {
    hide Run, Updated, HandleCloseOf;
  }

  /**
    Exactly these steps change the state of a connection: its establishment, a call of `shutdown` or
    `forceClose` on it, and its closing. Its mask and `reading_` change with these and with its own
    write and read interest only.
   */
  lemma PeerChanges(w: World, step: Step, c: ConnId)
    requires Inv(w) && Runnable(w, step) && c in w.peers
    ensures Wired(w) && c in ApplyStep(w, step).peers && ChangedBy(w, step, c, ApplyStep(w, step).peers[c])
  {
    hide Orderly, Phased, ChangedBy, ApplyStep;
    InvWired(w);
    if step.RunFront? {
      FrontLife(w, step.l, c);
      FrontChanges(w, step.l, c);
    } else if step.SetWriting? || step.StopRead? || step.StartRead? {
      MaskChanges(w, step, c);
    } else if step.ShutdownCall? || step.ForceClose? {
      CallChanges(w, step, c);
    } else if step.CloseEvent? {
      CloseChanges(w, c, step.c);
    } else if step.Accept? {
      AcceptChanges(w, step.l, c);
    } else {
      OtherChanges(w, step, c);
    }
  }

  lemma InvWired(w: World)
    requires Inv(w)
    ensures Wired(w) && Orderly(w)
  {
  }

  /** A connection whose destruction is next is not connected any more, and one that is not there yet not known. */
  lemma FrontLife(w: World, l: LoopId, c: ConnId)
    requires Inv(w) && l in w.queues && w.queues[l] != [] && c in w.peers
    ensures w.queues[l][0] == Destroyed(c) ==> w.peers[c].state == Disconnected
    ensures w.queues[l][0] == Established(c) ==> w.peers[c].state == Connecting
  {
    hide Orderly, Phased;
    if w.queues[l][0] == Destroyed(c) { FrontPhase(w, l, Erased); }
    if w.queues[l][0] == Established(c) { FrontPhase(w, l, Accepted); }
  }

  /** A forced close has happened, or is queued, or is about to be. */
  predicate Forced(w: World, c: ConnId) {
    && c in w.peers && w.peers[c].loop in w.queues
    && (|| w.peers[c].state == Disconnected
        || (w.peers[c].state == Disconnecting
            && (ForceCloseInLoop(c) in w.calls || ForceCloseInLoop(c) in w.queues[w.peers[c].loop])))
  }

  /** A functor about to be queued stays so until it is pushed, and then it is in its queue. */
  lemma CallsKept(w: World, step: Step, f: Functor)
    requires Wired(w) && Runnable(w, step) && f in w.calls && f.c in w.peers
    ensures var w' := ApplyStep(w, step); f in w'.calls || (step == Push(f) && f in w'.queues[w.peers[f.c].loop])
  {
    hide Run, Updated, HandleCloseOf, NewConnection, Wired;
    match step
    case RunFront(l) =>
      PoppedWired(w, l);
      RunCalls(Popped(w, l), w.queues[l][0]);
    case CloseEvent(c) => CloseCalls(w, c);
    case Accept(l) => AcceptCalls(w, l);
    case _ =>
  }

  lemma RunCalls(w: World, f: Functor)
    requires Wired(w) && f.c in w.peers
    ensures Run(w, f).calls == w.calls
  {
  }

  lemma CloseCalls(w: World, c: ConnId)
    requires Wired(w) && Reported(w, c)
    ensures HandleCloseOf(Dispatched(w, c), c).calls == w.calls
  {
  }

  lemma AcceptCalls(w: World, l: LoopId)
    requires Wired(w) && l in w.queues
    ensures NewConnection(w, l).calls == w.calls
  {
  }

  lemma ForcedStep(w: World, step: Step, c: ConnId)
    requires Inv(w) && Runnable(w, step) && Forced(w, c)
    ensures Forced(ApplyStep(w, step), c)
  {
    hide Orderly, Phased, InPhase, ApplyStep, Wired;
    InvWired(w);
    PeerChanges(w, step, c);
    var f, l := ForceCloseInLoop(c), w.peers[c].loop;
    if step.RunFront? { FrontLife(w, step.l, c); }
    QueuesGrow(w, step, l);
    if f in w.calls {
      CallsKept(w, step, f);
    } else if f in w.queues[l] && step == RunFront(l) && w.queues[l][0] != f {
      assert w.queues[l] == [w.queues[l][0]] + w.queues[l][1..];
    }
  }

  lemma RunQueues(w: World, f: Functor, l: LoopId)
    requires Wired(w) && f.c in w.peers && l in w.queues
    ensures l in Run(w, f).queues && w.queues[l] <= Run(w, f).queues[l]
  {
    hide Updated;
  }

  /** A step takes at most the front functor out of a queue. */
  lemma QueuesGrow(w: World, step: Step, l: LoopId)
    requires Wired(w) && Runnable(w, step) && l in w.queues
    ensures l in ApplyStep(w, step).queues
    ensures var q := if step == RunFront(l) then w.queues[l][1..] else w.queues[l]; q <= ApplyStep(w, step).queues[l]
  {
    hide Run, Updated;
    if step.RunFront? {
      PoppedWired(w, step.l);
      RunQueues(Popped(w, step.l), w.queues[step.l][0], l);
    }
  }

  /**
    A forced close is never forgotten: in every continuation of a `forceClose` on an open connection,
    the connection is closed, or the close is queued or about to be queued; it is not connected again.
   */
  lemma {:induction false} ForceCloseIsKept(w: World, steps: seq<Step>, c: ConnId)
    requires Inv(w) && Runs(w, steps) && Proper(w, steps) && Forced(w, c)
    ensures Forced(Exec(w, steps), c)
    decreases |steps|
  {
    hide Inv, ApplyStep, BadClose, Forced;
    if steps != [] {
      StepKeepsInv(w, steps[0]);
      ForcedStep(w, steps[0], c);
      ForceCloseIsKept(ApplyStep(w, steps[0]), steps[1..], c);
    }
  }

  /** So it is after the call itself. */
  lemma ForceCloseTakesHold(w: World, c: ConnId)
    requires Wired(w) && c in w.peers && Open(w.peers[c])
    ensures Forced(ApplyStep(w, ForceClose(c)), c)
  {
  }

  /** And `shutdown` takes hold at once as well. */
  lemma ShutdownTakesHold(w: World, c: ConnId, inLoop: bool)
    requires Wired(w) && c in w.peers && w.peers[c].state == Connected && Enabled(w, ShutdownCall(c, inLoop))
    ensures var w' := ApplyStep(w, ShutdownCall(c, inLoop));
            c in w'.peers && w'.peers[c].state == Disconnecting && (inLoop || ShutdownRaw(c) in w'.calls)
  {
    hide Wired;
  }
}
