/** The states of a connection (`TcpConnection::StateE`). */
module ConnectionStates {
  datatype ConnState = Connecting | Connected | Disconnecting | Disconnected
}

/**
  The output path of a connection (`muduo/net/TcpConnection.cc`): direct writes, the output buffer
  behind them, and the half-close that waits for the buffer to drain. Sends come from the
  connection's loop thread; `shutdown` and `forceClose` may come from any thread. Their test and
  change of the state is one step, what they queue afterwards is another.
 */
module TcpConnections {
  import opened Bytes
  import opened Buffers
  import opened Pollers
  import opened ConnectionStates

  /** Result of `write`: EWOULDBLOCK and other errors keep the data, EPIPE and ECONNRESET lose it. */
  datatype WriteResult = Wrote(n: nat) | WouldBlock | OtherError | Broken

  /** Functors of the connection in its loop's queue. */
  datatype Job = ShutdownJob | ForceCloseJob

  datatype Option<T> = None | Some(value: T)

  datatype Conn = Conn(
    state: ConnState,
    writing: bool,
    output: seq<Byte>,
    /** Data of a `send` that has passed its test of the state and not yet called `sendInLoop`. */
    sending: Option<seq<Byte>>,
    jobs: seq<Job>,
    /** What threads inside `shutdown` or `forceClose` are about to queue. */
    calls: multiset<Job>,
    /** Timers set by `forceCloseWithDelay`. */
    delayed: nat,
    /** Everything `sendInLoop` took (data that met EPIPE or ECONNRESET is not taken). */
    accepted: seq<Byte>,
    /** Everything the socket took. */
    written: seq<Byte>,
    /** `shutdownWrite` has been called. */
    halfClosed: bool)

  const FRESH_CONN := Conn(Connecting, false, [], None, [], multiset{}, 0, [], [], false)

  // ---------------------------------------------------------------- the source's operations

  predicate PossibleWrite(result: WriteResult, len: nat) { result.Wrote? ==> result.n <= len }

  function Taken(result: WriteResult): nat { if result.Wrote? then result.n else 0 }

  function SendInLoop(c: Conn, data: seq<Byte>, result: WriteResult): Conn
    requires PossibleWrite(result, |data|)
  {
    if c.state == Disconnected then c
    else if !c.writing && c.output == [] then
      if result == Broken then c
      else
        var n := Taken(result);
        var rest := data[n..];
        c.(accepted := c.accepted + data, written := c.written + data[..n],
           output := rest, writing := rest != [])
    else if data == [] then c
    else c.(accepted := c.accepted + data, output := c.output + data, writing := true)
  }

  function ShutdownInLoop(c: Conn): Conn {
    if !c.writing then c.(halfClosed := true) else c
  }

  function HandleClose(c: Conn): Conn {
    c.(state := Disconnected, writing := false)
  }

  function HandleWrite(c: Conn, result: WriteResult): Conn
    requires PossibleWrite(result, |c.output|)
  {
    if !c.writing || Taken(result) == 0 then c
    else
      var n := result.n;
      var c1 := c.(written := c.written + c.output[..n], output := c.output[n..]);
      if c1.output != [] then c1
      else
        var c2 := c1.(writing := false);
        if c2.state == Disconnecting then ShutdownInLoop(c2) else c2
  }

  function ForceClose(c: Conn): Conn {
    if c.state == Connected || c.state == Disconnecting then
      c.(state := Disconnecting, calls := c.calls + multiset{ForceCloseJob})
    else c
  }

  function RunJob(c: Conn, job: Job): Conn {
    match job
    case ShutdownJob => ShutdownInLoop(c)
    case ForceCloseJob =>
      if c.state == Connected || c.state == Disconnecting then HandleClose(c) else c
  }

  datatype Step =
    | Establish
    | Send(data: seq<Byte>)
    | SendGoesOn(result: WriteResult)
    /** `shutdown` on the loop thread runs `shutdownInLoop` at once, elsewhere it goes on to queue it. */
    | Shutdown(inLoop: bool)
    | ForceCloseCall
    | ForceCloseWithDelay
    | DelayOver
    /** A thread inside `shutdown` or `forceClose` queues its functor. */
    | Push(job: Job)
    | NextJob
    | Writable(result: WriteResult)
    /** End of stream or hang-up. */
    | PeerCloses

  /** The loop thread does one thing at a time. */
  predicate Enabled(c: Conn, step: Step) {
    match step
    case Establish => c.state == Connecting && c.sending == None
    case Send(_) => c.sending == None
    case SendGoesOn(result) => c.sending != None && PossibleWrite(result, |c.sending.value|)
    case Shutdown(inLoop) => inLoop ==> c.sending == None
    case ForceCloseCall => true
    case ForceCloseWithDelay => true
    case DelayOver => c.delayed > 0 && c.sending == None
    case Push(job) => job in c.calls
    case NextJob => c.jobs != [] && c.sending == None
    case Writable(result) => c.sending == None && PossibleWrite(result, |c.output|)
    case PeerCloses => c.sending == None && (c.state == Connected || c.state == Disconnecting)
  }

  function ApplyStep(c: Conn, step: Step): Conn
    requires Enabled(c, step)
  {
    match step
    case Establish => c.(state := Connected)
    case Send(data) => if c.state == Connected then c.(sending := Some(data)) else c
    case SendGoesOn(result) => SendInLoop(c.(sending := None), c.sending.value, result)
    case Shutdown(inLoop) =>
      if c.state != Connected then c
      else if inLoop then ShutdownInLoop(c.(state := Disconnecting))
      else c.(state := Disconnecting, calls := c.calls + multiset{ShutdownJob})
    case ForceCloseCall => ForceClose(c)
    case ForceCloseWithDelay =>
      if c.state == Connected || c.state == Disconnecting
      then c.(state := Disconnecting, delayed := c.delayed + 1)
      else c
    case DelayOver => ForceClose(c.(delayed := c.delayed - 1))
    case Push(job) => c.(jobs := c.jobs + [job], calls := c.calls - multiset{job})
    case NextJob => RunJob(c.(jobs := c.jobs[1..]), c.jobs[0])
    case Writable(result) => HandleWrite(c, result)
    case PeerCloses => HandleClose(c)
  }

  // ---------------------------------------------------------------- what every step keeps

  predicate Inv(c: Conn) {
    // conservation: what was accepted has been written or is in the buffer
    && c.accepted == c.written + c.output
    // write interest exactly while there is something to write
    && (if c.state == Disconnected then !c.writing else (c.writing <==> c.output != []))
    // a half-closed connection is drained, and stays so
    && (c.halfClosed ==> c.state == Disconnecting || c.state == Disconnected)
    && (c.halfClosed && c.state != Disconnected ==> c.output == [])
    // no send is under way behind a half-close
    && (c.sending != None ==> !c.halfClosed && (c.state == Connected || c.state == Disconnecting))
    // only a closing connection has closing work queued
    && (Busy(c) ==> c.state == Disconnecting || c.state == Disconnected)
    // a drained connection that is to close has been half-closed, or is about to be
    && (c.state == Disconnecting && c.output == [] ==> c.halfClosed || Busy(c))
  }

  /** Some closing work is queued, about to be queued or waiting for its time. */
  predicate Busy(c: Conn) { c.jobs != [] || |c.calls| > 0 || c.delayed > 0 }

  lemma SendKeepsInv(c: Conn, data: seq<Byte>, result: WriteResult)
    requires Inv(c) && c.sending == None && PossibleWrite(result, |data|)
    requires c.halfClosed ==> c.state == Disconnected
    ensures var d := SendInLoop(c, data, result);
            var lost := c.state == Disconnected || (result == Broken && c.output == []);
            && Inv(d)
            && d.accepted == c.accepted + (if lost then [] else data)
            && d.written == c.written + (if lost || c.output != [] || !result.Wrote? then [] else data[..result.n])
  {
    if !c.writing && c.output == [] {
      assert data == data[..Taken(result)] + data[Taken(result)..];
      assert c.written + c.output == c.written;
    }
  }

  lemma WriteKeepsInv(c: Conn, result: WriteResult)
    requires Inv(c) && c.sending == None && PossibleWrite(result, |c.output|)
    ensures var d := HandleWrite(c, result);
            && Inv(d)
            && d.accepted == c.accepted
            && d.written == c.written + (if c.state == Disconnected || !result.Wrote? then [] else c.output[..result.n])
  {
    if c.writing && Taken(result) > 0 {
      assert c.output == c.output[..result.n] + c.output[result.n..];
    }
  }

  lemma CallKeepsInv(c: Conn, step: Step)
    requires Inv(c) && Enabled(c, step)
    requires step.Shutdown? || step.ForceCloseCall? || step.ForceCloseWithDelay? || step.DelayOver?
    ensures Inv(ApplyStep(c, step))
  {
  }

  lemma JobKeepsInv(c: Conn, step: Step)
    requires Inv(c) && Enabled(c, step) && (step.NextJob? || step.Push?)
    ensures Inv(ApplyStep(c, step))
  {
    if step.Push? { assert |c.calls| > 0; }
  }

  lemma StepKeepsInv(c: Conn, step: Step)
    requires Inv(c) && Enabled(c, step)
    ensures Inv(ApplyStep(c, step))
  {
    hide SendInLoop, HandleWrite, ForceClose, RunJob, ShutdownInLoop, Busy;
    match step
    case SendGoesOn(result) =>
      BusySame(c);
      SendKeepsInv(c.(sending := None), c.sending.value, result);
    case Writable(result) => WriteKeepsInv(c, result);
    case NextJob => JobKeepsInv(c, step);
    case Push(_) => JobKeepsInv(c, step);
    case Establish => EasyKeepsInv(c, step);
    case Send(_) => EasyKeepsInv(c, step);
    case PeerCloses => EasyKeepsInv(c, step);
    case _ => CallKeepsInv(c, step);
  }

  lemma BusySame(c: Conn)
    ensures Busy(c.(sending := None)) == Busy(c)
  {
  }

  lemma EasyKeepsInv(c: Conn, step: Step)
    requires Inv(c) && Enabled(c, step) && (step.Establish? || step.Send? || step.PeerCloses?)
    ensures Inv(ApplyStep(c, step))
  {
  }

  // ---------------------------------------------------------------- whole runs

  ghost predicate Runs(c: Conn, steps: seq<Step>)
    decreases |steps|
  {
    steps == [] || (Enabled(c, steps[0]) && Runs(ApplyStep(c, steps[0]), steps[1..]))
  }

  function Exec(c: Conn, steps: seq<Step>): Conn
    requires Runs(c, steps)
    decreases |steps|
  {
    if steps == [] then c else Exec(ApplyStep(c, steps[0]), steps[1..])
  }

  lemma {:induction false} RunKeepsInv(c: Conn, steps: seq<Step>)
    requires Inv(c) && Runs(c, steps)
    ensures Inv(Exec(c, steps))
    decreases |steps|
  {
    hide Inv, ApplyStep, Enabled;
    if steps != [] {
      StepKeepsInv(c, steps[0]);
      RunKeepsInv(ApplyStep(c, steps[0]), steps[1..]);
    }
  }

  // ---------------------------------------------------------------- what the steps amount to

  predicate AsksToClose(step: Step) {
    step.Shutdown? || step.ForceCloseCall? || step.ForceCloseWithDelay? || step.PeerCloses?
  }

  /** Established, and nobody has asked to close since. */
  predicate Up(steps: seq<Step>) {
    steps != [] &&
    var last := steps[|steps| - 1];
    last == Establish || (!AsksToClose(last) && Up(steps[..|steps| - 1]))
  }

  /** The functors queued so far. */
  function Queued(steps: seq<Step>): seq<Job> {
    if steps == [] then [] else
    var last := steps[|steps| - 1];
    Queued(steps[..|steps| - 1]) + if last.Push? then [last.job] else []
  }

  /** The functors run so far: each turn runs the oldest of the others. */
  function Served(steps: seq<Step>): seq<Job> {
    if steps == [] then [] else
    var before, served := steps[..|steps| - 1], Served(steps[..|steps| - 1]);
    if steps[|steps| - 1] == NextJob && |served| < |Queued(before)| then served + [Queued(before)[|served|]] else served
  }

  /** The peer has closed, or a queued close has run. */
  predicate Gone(steps: seq<Step>) { PeerCloses in steps || ForceCloseJob in Served(steps) }

  function StateAfter(steps: seq<Step>): ConnState {
    if Gone(steps) then Disconnected else if Up(steps) then Connected
    else if Establish in steps then Disconnecting else Connecting
  }

  predicate Open(steps: seq<Step>) { Establish in steps && !Gone(steps) }

  /** What a list of steps amounts to, told without buffer and write interest. */
  datatype Story = Story(
    sending: Option<seq<Byte>>,
    /** All bytes taken from the user, and how many of them the socket took. */
    taken: seq<Byte>,
    sent: nat,
    /** The end of the stream has been sent. */
    finished: bool,
    /** Functors that threads inside a call still have to queue, and timers set. */
    owed: multiset<Job>,
    timers: nat)

  function Told(steps: seq<Step>): Story {
    if steps == [] then Story(None, [], 0, false, multiset{}, 0)
    else ToldNext(Told(steps[..|steps| - 1]), steps[..|steps| - 1], steps[|steps| - 1])
  }

  /** How many bytes the socket took. */
  function BytesOut(result: WriteResult): nat {
    match result
    case Wrote(n) => n
    case _ => 0
  }

  function ToldNext(s: Story, before: seq<Step>, step: Step): Story {
    match step
    case Send(data) => if Up(before) then s.(sending := Some(data)) else s
    case SendGoesOn(result) => if s.sending == None then s else Sent(s.(sending := None), s.sending.value, result)
    case Writable(result) =>
      if Gone(before) || BytesOut(result) == 0 then s
      else Finished(s.(sent := s.sent + BytesOut(result)), StateAfter(before) == Disconnecting)
    case Shutdown(inLoop) =>
      if !Up(before) then s else if inLoop then Finished(s, true) else s.(owed := s.owed + multiset{ShutdownJob})
    case ForceCloseCall => if Open(before) then s.(owed := s.owed + multiset{ForceCloseJob}) else s
    case ForceCloseWithDelay => if Open(before) then s.(timers := s.timers + 1) else s
    case DelayOver =>
      var s1 := if s.timers > 0 then s.(timers := s.timers - 1) else s;
      if Open(before) then s1.(owed := s1.owed + multiset{ForceCloseJob}) else s1
    case Push(job) => s.(owed := s.owed - multiset{job})
    case NextJob =>
      if |Served(before)| < |Queued(before)| && Queued(before)[|Served(before)|] == ShutdownJob
      then (if Gone(before) then s.(finished := true) else Finished(s, true)) else s
    case Establish => s
    case PeerCloses => s
  }

  /** Data goes behind data that is not out yet; otherwise the socket gets it first, and may refuse it. */
  function Sent(s: Story, data: seq<Byte>, result: WriteResult): Story {
    if s.sent < |s.taken| then s.(taken := s.taken + data)
    else if result == Broken then s
    else s.(taken := s.taken + data, sent := s.sent + BytesOut(result))
  }

  /** If everything is out and the connection is to close, the end of the stream follows. */
  function Finished(s: Story, closing: bool): Story {
    if closing && s.sent == |s.taken| then s.(finished := true) else s
  }

  predicate StateFits(c: Conn, steps: seq<Step>) {
    && c.state == StateAfter(steps) && (Up(steps) ==> c.state == Connected && Establish in steps)
    && |Served(steps)| <= |Queued(steps)| && c.jobs == Queued(steps)[|Served(steps)|..]
  }

  predicate StoryFits(c: Conn, s: Story) {
    && c.sending == s.sending && c.calls == s.owed && c.delayed == s.timers && c.halfClosed == s.finished
    && s.sent <= |s.taken|
    && c.accepted == s.taken && c.written == s.taken[..s.sent] && c.output == s.taken[s.sent..]
  }

  /** The last step of a run, after all the others. */
  lemma {:induction false} Snoc(c: Conn, steps: seq<Step>)
    requires steps != [] && Runs(c, steps)
    ensures var init, last := steps[..|steps| - 1], steps[|steps| - 1];
            Runs(c, init) && Enabled(Exec(c, init), last) && Exec(c, steps) == ApplyStep(Exec(c, init), last)
    decreases |steps|
  {
    hide Enabled, ApplyStep;
    if |steps| > 1 {
      Snoc(ApplyStep(c, steps[0]), steps[1..]);
      assert steps[1..][..|steps| - 2] == steps[..|steps| - 1][1..];
    }
  }

  /** What one more step changes about the state told. */
  lemma StateNext(steps: seq<Step>, n: nat)
    requires |steps| == n + 1
    ensures var before, step := steps[..n], steps[n];
            && (Up(steps) <==> step == Establish || (!AsksToClose(step) && Up(before)))
            && (Establish in steps <==> step == Establish || Establish in before)
            && (Gone(steps) <==> || Gone(before) || step == PeerCloses
                                 || (step == NextJob && |Served(before)| < |Queued(before)|
                                     && Queued(before)[|Served(before)|] == ForceCloseJob))
  {
    assert steps == steps[..n] + [steps[n]];
    hide Queued, Served;
    ServedNext(steps, n);
  }

  lemma StateStep(c: Conn, steps: seq<Step>, n: nat)
    requires |steps| == n + 1 && Inv(c) && Enabled(c, steps[n]) && StateFits(c, steps[..n])
    ensures StateFits(ApplyStep(c, steps[n]), steps)
  {
    hide Queued, Served, Up, Gone, SendInLoop, HandleWrite, ShutdownInLoop, Busy;
    StateNext(steps, n);
    QueuedNext(steps, n);
    ServedNext(steps, n);
    var step := steps[n];
    if step == NextJob {
      JobStep(c, steps[..n]);
    } else if step.SendGoesOn? || step.Writable? || step.Shutdown? {
      OutputSame(c, step);
    } else if step.Push? {
      assert (Queued(steps[..n]) + [step.job])[|Served(steps)|..] == c.jobs + [step.job];
    } else if step.DelayOver? {
      DelayMeetsClosing(c);
    }
  }

  /** Sending and writing change neither state nor queue, and a shutdown asked for is under way. */
  lemma OutputSame(c: Conn, step: Step)
    requires Enabled(c, step)
    ensures step.SendGoesOn? || step.Writable? ==>
              ApplyStep(c, step).state == c.state && ApplyStep(c, step).jobs == c.jobs
    ensures step.Shutdown? ==>
              && ApplyStep(c, step).state == (if c.state == Connected then Disconnecting else c.state)
              && ApplyStep(c, step).jobs == c.jobs
  {
  }

  lemma DelayMeetsClosing(c: Conn)
    requires Inv(c) && Enabled(c, DelayOver)
    ensures c.state == Disconnecting || c.state == Disconnected
  {
  }

  lemma JobStep(c: Conn, before: seq<Step>)
    requires Inv(c) && Enabled(c, NextJob) && StateFits(c, before)
    ensures |Served(before)| < |Queued(before)| && c.jobs[0] == Queued(before)[|Served(before)|]
    ensures c.state == Disconnecting || c.state == Disconnected
    ensures var d := ApplyStep(c, NextJob);
            && d.jobs == Queued(before)[|Served(before)| + 1..]
            && d.state == if c.jobs[0] == ForceCloseJob then Disconnected else c.state
  {
    hide Queued, Served, Up, StateAfter;
  }

  lemma QueuedNext(steps: seq<Step>, n: nat)
    requires |steps| == n + 1
    ensures Queued(steps) == Queued(steps[..n]) + if steps[n].Push? then [steps[n].job] else []
  {
  }

  lemma ServedNext(steps: seq<Step>, n: nat)
    requires |steps| == n + 1
    ensures var served, queued := Served(steps[..n]), Queued(steps[..n]);
            Served(steps) == if steps[n] == NextJob && |served| < |queued| then served + [queued[|served|]] else served
  {
  }

  lemma SendStory(c: Conn, before: seq<Step>, s: Story, result: WriteResult)
    requires Inv(c) && Enabled(c, SendGoesOn(result)) && StoryFits(c, s)
    ensures StoryFits(ApplyStep(c, SendGoesOn(result)), ToldNext(s, before, SendGoesOn(result)))
  {
    hide Busy;
    var data, d := c.sending.value, ApplyStep(c, SendGoesOn(result));
    if s.sent < |s.taken| {
      assert d.accepted == s.taken + data;
    } else if result != Broken {
      var n := Taken(result);
      assert s.taken[..s.sent] == s.taken && c.output == [];
      assert (s.taken + data)[..s.sent + n] == s.taken + data[..n];
      assert (s.taken + data)[s.sent + n..] == data[n..];
    }
  }

  lemma WriteStory(c: Conn, before: seq<Step>, s: Story, result: WriteResult)
    requires Inv(c) && Enabled(c, Writable(result)) && StateFits(c, before) && StoryFits(c, s)
    ensures StoryFits(ApplyStep(c, Writable(result)), ToldNext(s, before, Writable(result)))
  {
    hide Queued, Served, Up, Busy;
    if c.writing && Taken(result) > 0 {
      var n := result.n;
      assert s.taken[..s.sent + n] == s.taken[..s.sent] + s.taken[s.sent..][..n];
      assert s.taken[s.sent + n..] == s.taken[s.sent..][n..];
    }
  }

  lemma JobStory(c: Conn, before: seq<Step>, s: Story)
    requires Inv(c) && Enabled(c, NextJob) && StateFits(c, before) && StoryFits(c, s)
    ensures StoryFits(ApplyStep(c, NextJob), ToldNext(s, before, NextJob))
  {
    JobStep(c, before);
    hide Queued, Served, Up, Busy;
  }

  lemma CallStory(c: Conn, before: seq<Step>, s: Story, step: Step)
    requires Inv(c) && Enabled(c, step) && StateFits(c, before) && StoryFits(c, s)
    requires step.Shutdown? || step.ForceCloseCall? || step.ForceCloseWithDelay? || step.DelayOver?
    ensures StoryFits(ApplyStep(c, step), ToldNext(s, before, step))
  {
    hide Queued, Served, Up, Busy, Gone, SendInLoop, HandleWrite, RunJob, HandleClose;
  }

  lemma EasyStory(c: Conn, before: seq<Step>, s: Story, step: Step)
    requires Inv(c) && Enabled(c, step) && StateFits(c, before) && StoryFits(c, s)
    requires step.Establish? || step.Send? || step.Push? || step.PeerCloses?
    ensures StoryFits(ApplyStep(c, step), ToldNext(s, before, step))
  {
    hide Queued, Served, Up, Busy, Gone, SendInLoop, HandleWrite, RunJob, ForceClose, ShutdownInLoop;
  }

  lemma StoryStep(c: Conn, before: seq<Step>, s: Story, step: Step)
    requires Inv(c) && Enabled(c, step) && StateFits(c, before) && StoryFits(c, s)
    ensures StoryFits(ApplyStep(c, step), ToldNext(s, before, step))
  {
    hide Inv, StateFits, StoryFits, ToldNext, ApplyStep, Enabled;
    match step
    case SendGoesOn(result) => SendStory(c, before, s, result);
    case Writable(result) => WriteStory(c, before, s, result);
    case NextJob => JobStory(c, before, s);
    case Establish => EasyStory(c, before, s, step);
    case Send(_) => EasyStory(c, before, s, step);
    case Push(_) => EasyStory(c, before, s, step);
    case PeerCloses => EasyStory(c, before, s, step);
    case _ => CallStory(c, before, s, step);
  }

  /**
    Over every run, with any partial, blocked or failed writes, the connection is in the state that
    the steps tell, the bytes accepted are those of the sends that got through, in order, those
    written are the first of them, as many as the socket took, the buffer holds the others, and the
    end of the stream has been sent exactly if the steps say so.
   */
  lemma {:induction false} OutputConserved(steps: seq<Step>)
    requires Runs(FRESH_CONN, steps)
    ensures var c, s := Exec(FRESH_CONN, steps), Told(steps);
            && c.state == StateAfter(steps)
            && c.accepted == s.taken && s.sent <= |s.taken|
            && c.written == s.taken[..s.sent] && c.output == s.taken[s.sent..]
            && (c.state != Disconnected ==> (c.writing <==> s.sent < |s.taken|))
            && c.halfClosed == s.finished
    ensures StateFits(Exec(FRESH_CONN, steps), steps) && StoryFits(Exec(FRESH_CONN, steps), Told(steps))
    decreases |steps|
  {
    RunKeepsInv(FRESH_CONN, steps);
    hide ApplyStep, Enabled, ToldNext, StateAfter, Served, Queued;
    if steps == [] {
      NothingYet();
    } else {
      var n := |steps| - 1;
      Snoc(FRESH_CONN, steps);
      OutputConserved(steps[..n]);
      RunKeepsInv(FRESH_CONN, steps[..n]);
      StateStep(Exec(FRESH_CONN, steps[..n]), steps, n);
      StoryStep(Exec(FRESH_CONN, steps[..n]), steps[..n], Told(steps[..n]), steps[n]);
    }
  }

  lemma NothingYet()
    ensures StateFits(FRESH_CONN, [])
  {
  }

  /** While connected in any way, a half-close means that every accepted byte was written before. */
  lemma HalfCloseAfterAllBytes(steps: seq<Step>)
    requires Runs(FRESH_CONN, steps)
    ensures var c := Exec(FRESH_CONN, steps);
            c.halfClosed && c.state != Disconnected ==> c.state == Disconnecting && c.written == c.accepted
  {
    RunKeepsInv(FRESH_CONN, steps);
  }

  lemma SilentStep(c: Conn, step: Step)
    requires Inv(c) && c.halfClosed && Enabled(c, step)
    ensures var d := ApplyStep(c, step); d.halfClosed && d.written == c.written && d.accepted == c.accepted
  {
  }

  /** Nothing is written and nothing accepted after a half-close, for the rest of the run. */
  lemma {:induction false} SilentAfterHalfClose(c: Conn, steps: seq<Step>)
    requires Inv(c) && c.halfClosed && Runs(c, steps)
    ensures var d := Exec(c, steps); d.halfClosed && d.written == c.written && d.accepted == c.accepted
    decreases |steps|
  {
    if steps != [] {
      StepKeepsInv(c, steps[0]);
      SilentStep(c, steps[0]);
      hide Inv, ApplyStep, Enabled;
      SilentAfterHalfClose(ApplyStep(c, steps[0]), steps[1..]);
    }
  }

  /** Draining the buffer while disconnecting half-closes, whichever thread asked for it. */
  lemma DrainHalfCloses(c: Conn, n: nat)
    requires Inv(c) && c.state == Disconnecting && c.sending == None
    requires c.output != [] && n == |c.output|
    ensures var d := ApplyStep(c, Writable(Wrote(n))); d.halfClosed && !d.writing && d.written == d.accepted
  {
    WriteKeepsInv(c, Wrote(n));
  }

  /** A closing connection with nothing left to write and nothing left to run is half-closed. */
  lemma NothingForgotten(steps: seq<Step>)
    requires Runs(FRESH_CONN, steps)
    ensures var c := Exec(FRESH_CONN, steps);
            c.state == Disconnecting && c.output == [] && !Busy(c) ==> c.halfClosed && c.written == c.accepted
  {
    RunKeepsInv(FRESH_CONN, steps);
  }

  /** A shutdown asked for while connected takes hold at once, and half-closes at once if it may. */
  lemma ShutdownTakesHold(c: Conn, inLoop: bool)
    requires Inv(c) && Enabled(c, Shutdown(inLoop)) && c.state == Connected
    ensures var d := ApplyStep(c, Shutdown(inLoop));
            && d.state == Disconnecting && d.output == c.output && d.written == c.written
            && (c.output != [] || d.halfClosed || ShutdownJob in d.calls)
            && (inLoop && c.output == [] ==> d.halfClosed)
  {
  }

  lemma {:induction false} Joined(c: Conn, s: seq<Step>, t: seq<Step>)
    requires Runs(c, s + t)
    ensures Runs(c, s) && Runs(Exec(c, s), t) && Exec(c, s + t) == Exec(Exec(c, s), t)
    decreases |s|
  {
    hide ApplyStep, Enabled;
    if s == [] {
      assert s + t == t;
    } else {
      assert (s + t)[1..] == s[1..] + t;
      Joined(ApplyStep(c, s[0]), s[1..], t);
    }
  }

  predicate Closing(c: Conn) { c.state == Disconnecting || c.state == Disconnected }

  lemma ClosingStep(c: Conn, step: Step)
    requires Closing(c) && Enabled(c, step)
    ensures Closing(ApplyStep(c, step)) && c.accepted <= ApplyStep(c, step).accepted
  {
  }

  lemma {:induction false} ClosingStays(c: Conn, steps: seq<Step>)
    requires Closing(c) && Runs(c, steps)
    ensures Closing(Exec(c, steps)) && c.accepted <= Exec(c, steps).accepted
    decreases |steps|
  {
    hide Closing, ApplyStep, Enabled;
    if steps != [] {
      ClosingStep(c, steps[0]);
      ClosingStays(ApplyStep(c, steps[0]), steps[1..]);
    }
  }

  /**
    A shutdown is never forgotten: after one that came while the connection was up, no continuation is
    connected again, and once nothing is left to write or to run, the stream has been ended behind
    every byte taken, in particular every byte taken before the call.
   */
  lemma ShutdownIsKept(before: seq<Step>, inLoop: bool, after: seq<Step>)
    requires Runs(FRESH_CONN, before + [Shutdown(inLoop)] + after) && Up(before)
    ensures var c := Exec(FRESH_CONN, before + [Shutdown(inLoop)] + after);
            && (c.state == Disconnecting || c.state == Disconnected)
            && Told(before).taken <= c.accepted
            && (c.state == Disconnecting && c.output == [] && !Busy(c) ==> c.halfClosed && c.written == c.accepted)
  {
    assert Inv(FRESH_CONN);
    hide ApplyStep, Enabled, ToldNext, Served, Queued, Up, Busy, Runs, Exec;
    var steps := before + [Shutdown(inLoop)];
    Joined(FRESH_CONN, steps, after);
    Snoc(FRESH_CONN, steps);
    assert steps[..|before|] == before;
    OutputConserved(before);
    RunKeepsInv(FRESH_CONN, before);
    ClosingAfterShutdown(Exec(FRESH_CONN, before), inLoop);
    ClosingStays(Exec(FRESH_CONN, steps), after);
    NothingForgotten(steps + after);
  }

  lemma ClosingAfterShutdown(c: Conn, inLoop: bool)
    requires Inv(c) && Enabled(c, Shutdown(inLoop)) && c.state == Connected
    ensures var d := ApplyStep(c, Shutdown(inLoop)); Closing(d) && d.accepted == c.accepted
  {
  }

  // ---------------------------------------------------------------- the source's class

  class TcpConnection {
    var state: ConnState
    const channel: Channel
    const outputBuffer: Buffer
    /** Functors of this connection in its loop's queue. */
    var jobs: seq<Job>
    ghost var sending: Option<seq<Byte>>
    ghost var calls: multiset<Job>
    ghost var delayed: nat
    ghost var accepted: seq<Byte>
    ghost var written: seq<Byte>
    ghost var halfClosed: bool

    ghost function View(): Conn
      requires outputBuffer.Valid()
      reads this, channel, outputBuffer, outputBuffer.buffer
    {
      Conn(state, channel.IsWriting(), outputBuffer.Contents(), sending, jobs, calls, delayed, accepted, written,
           halfClosed)
    }

    ghost predicate Valid()
      reads this, channel, outputBuffer, outputBuffer.buffer
    {
      outputBuffer.Valid() && Inv(View())
    }

    constructor (fd: Fd)
      ensures Valid() && View() == FRESH_CONN && fresh(channel) && fresh(outputBuffer) && fresh(outputBuffer.buffer)
    {
      state := Connecting;
      channel := new Channel(fd);
      outputBuffer := new Buffer(INITIAL_SIZE);
      jobs, sending, calls, delayed, accepted, written, halfClosed := [], None, multiset{}, 0, [], [], false;
    }

    method DoConnectEstablished()
      requires Valid() && Enabled(View(), Establish)
      modifies this`state, channel`events
      ensures outputBuffer.Valid() && View() == ApplyStep(old(View()), Establish) && Valid()
      ensures channel.IsReading()
    {
      StepKeepsInv(View(), Establish);
      hide Inv;
      state := Connected;
      channel.EnableReading();
    }

    /** `send` on the loop thread, up to the call of `sendInLoop`. */
    method DoSend(data: seq<Byte>) returns (goesOn: bool)
      requires Valid() && sending == None
      modifies this
      ensures outputBuffer.Valid() && View() == ApplyStep(old(View()), Send(data)) && Valid()
      ensures goesOn <==> state == Connected
    {
      StepKeepsInv(View(), Send(data));
      goesOn := state == Connected;
      if goesOn {
        sending := Some(data);
      }
    }

    /** The rest of the data goes behind what is buffered already. */
    method QueueOutput(rest: seq<Byte>)
      requires outputBuffer.Valid()
      modifies channel`events, outputBuffer, outputBuffer.buffer
      ensures outputBuffer.Valid() && (outputBuffer.buffer == old(outputBuffer.buffer) || fresh(outputBuffer.buffer))
      ensures outputBuffer.Contents() == old(outputBuffer.Contents()) + rest && channel.IsWriting()
    {
      outputBuffer.Append(rest);
      if !channel.IsWriting() {
        channel.EnableWriting();
      }
    }

    method DoSendInLoop(data: seq<Byte>, result: WriteResult)
      requires Valid() && sending == Some(data) && PossibleWrite(result, |data|)
      modifies this, channel`events, outputBuffer, outputBuffer.buffer
      ensures outputBuffer.Valid() && (outputBuffer.buffer == old(outputBuffer.buffer) || fresh(outputBuffer.buffer))
      ensures View() == ApplyStep(old(View()), SendGoesOn(result)) && Valid()
      ensures old(state) != Disconnected && old(outputBuffer.Contents()) != [] ==>
                outputBuffer.Contents() == old(outputBuffer.Contents()) + data && written == old(written)
      ensures old(state) != Disconnected && old(outputBuffer.Contents()) == [] && result != Broken ==>
                && written == old(written) + data[..BytesOut(result)]
                && outputBuffer.Contents() == data[BytesOut(result)..]
    {
      assert state == Disconnected || (channel.IsWriting() <==> outputBuffer.Contents() != []);
      hide Inv;
      StepKeepsInv(View(), SendGoesOn(result));
      sending := None;
      if state == Disconnected {
        return;
      }
      if !channel.IsWriting() && outputBuffer.ReadableBytes() == 0 {
        WriteDirectly(data, result);
      } else if data != [] {
        accepted := accepted + data;
        QueueOutput(data);
      }
    }

    /** The whole of `send`, when no other thread comes in between. */
    method SendAll(data: seq<Byte>, result: WriteResult)
      requires Valid() && sending == None && PossibleWrite(result, |data|)
      modifies this, channel`events, outputBuffer, outputBuffer.buffer
      ensures outputBuffer.Valid() && Valid()
      ensures View() == if old(state) == Connected then SendInLoop(old(View()), data, result) else old(View())
      ensures old(state) == Connected && (old(outputBuffer.Contents()) != [] || result != Broken) ==>
                written + outputBuffer.Contents() == old(written + outputBuffer.Contents()) + data
    {
      hide Inv, SendInLoop;
      var goesOn := DoSend(data);
      if goesOn {
        DoSendInLoop(data, result);
      }
    }

    /** Nothing is queued: try `write` first, and buffer what it did not take. */
    method WriteDirectly(data: seq<Byte>, result: WriteResult)
      requires outputBuffer.Valid() && PossibleWrite(result, |data|) && state != Disconnected
      requires !channel.IsWriting() && outputBuffer.Contents() == []
      modifies this, channel`events, outputBuffer, outputBuffer.buffer
      ensures outputBuffer.Valid() && (outputBuffer.buffer == old(outputBuffer.buffer) || fresh(outputBuffer.buffer))
      ensures View() == SendInLoop(old(View()), data, result)
    {
      var nwrote, faultError := 0, false;
      if result.Wrote? {
        nwrote := result.n;
      } else {
        faultError := result == Broken;
      }
      if !faultError {
        written := written + data[..nwrote];
        accepted := accepted + data;
        var remaining := |data| - nwrote;
        if remaining > 0 {
          QueueOutput(data[nwrote..]);
        }
      }
    }

    method DoShutdownInLoop()
      requires outputBuffer.Valid()
      modifies this`halfClosed
      ensures View() == ShutdownInLoop(old(View()))
    {
      if !channel.IsWriting() {
        halfClosed := true;
      }
    }

    method DoShutdown(inLoopThread: bool)
      requires Valid() && (inLoopThread ==> sending == None)
      modifies this
      ensures outputBuffer.Valid() && View() == ApplyStep(old(View()), Shutdown(inLoopThread)) && Valid()
      ensures old(state) == Connected ==> state == Disconnecting
    {
      StepKeepsInv(View(), Shutdown(inLoopThread));
      hide Inv;
      if state == Connected {
        state := Disconnecting;
        if inLoopThread {
          DoShutdownInLoop();
        } else {
          calls := calls + multiset{ShutdownJob};
        }
      }
    }

    method DoForceClose()
      requires Valid()
      modifies this
      ensures outputBuffer.Valid() && View() == ApplyStep(old(View()), ForceCloseCall) && Valid()
    {
      StepKeepsInv(View(), ForceCloseCall);
      hide Inv;
      if state == Connected || state == Disconnecting {
        state := Disconnecting;
        calls := calls + multiset{ForceCloseJob};
      }
    }

    /** The rest of `shutdown` or `forceClose` in its thread. */
    method QueueJob(job: Job)
      requires Valid() && job in calls
      modifies this`jobs, this`calls
      ensures outputBuffer.Valid() && View() == ApplyStep(old(View()), Push(job)) && Valid()
    {
      hide Inv;
      StepKeepsInv(View(), Push(job));
      calls := calls - multiset{job};
      jobs := jobs + [job];
    }

    method DoForceCloseWithDelay()
      requires Valid()
      modifies this
      ensures outputBuffer.Valid() && View() == ApplyStep(old(View()), ForceCloseWithDelay) && Valid()
    {
      hide Inv;
      StepKeepsInv(View(), ForceCloseWithDelay);
      if state == Connected || state == Disconnecting {
        state := Disconnecting;
        delayed := delayed + 1;
      }
    }

    /** The timer of `forceCloseWithDelay` calls `forceClose`. */
    method DoDelayOver()
      requires Valid() && Enabled(View(), DelayOver)
      modifies this
      ensures outputBuffer.Valid() && View() == ApplyStep(old(View()), DelayOver) && Valid()
    {
      hide Inv;
      StepKeepsInv(View(), DelayOver);
      delayed := delayed - 1;
      if state == Connected || state == Disconnecting {
        state := Disconnecting;
        calls := calls + multiset{ForceCloseJob};
      }
    }

    /** The loop runs the next functor of this connection. */
    method RunNextJob()
      requires Valid() && Enabled(View(), NextJob)
      modifies this, channel`events
      ensures outputBuffer.Valid() && View() == ApplyStep(old(View()), NextJob) && Valid()
    {
      hide Inv;
      StepKeepsInv(View(), NextJob);
      var job := jobs[0];
      jobs := jobs[1..];
      match job
      case ShutdownJob => DoShutdownInLoop();
      case ForceCloseJob =>
        if state == Connected || state == Disconnecting {
          state := Disconnected;
          channel.DisableAll();
        }
    }

    method DoHandleWrite(result: WriteResult)
      requires Valid() && sending == None && PossibleWrite(result, outputBuffer.ReadableBytes())
      modifies this, channel`events, outputBuffer
      ensures outputBuffer.Valid() && outputBuffer.buffer == old(outputBuffer.buffer)
      ensures View() == HandleWrite(old(View()), result) && Valid()
      ensures state != Disconnected ==> written == old(written) + old(outputBuffer.Contents())[..BytesOut(result)]
      ensures written + outputBuffer.Contents() == old(written + outputBuffer.Contents())
    {
      WriteKeepsInv(View(), result);
      hide Inv;
      if channel.IsWriting() {
        if result.Wrote? && result.n > 0 {
          var taken := outputBuffer.Peek(result.n);
          written := written + taken;
          outputBuffer.Retrieve(result.n);
          if outputBuffer.ReadableBytes() == 0 {
            channel.DisableWriting();
            if state == Disconnecting {
              DoShutdownInLoop();
            }
          }
        }
      }
    }

    method DoHandleClose()
      requires Valid() && sending == None
      requires state == Connected || state == Disconnecting
      modifies this, channel`events
      ensures outputBuffer.Valid() && View() == ApplyStep(old(View()), PeerCloses) && Valid()
      ensures channel.events == NONE_EVENT
    {
      StepKeepsInv(View(), PeerCloses);
      hide Inv;
      state := Disconnected;
      channel.DisableAll();
    }
  }
}
