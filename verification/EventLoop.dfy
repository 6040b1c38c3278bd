/**
  The event loop's functor queue and its wakeup through an eventfd (`muduo/net/EventLoop.cc`).
  Any number of foreign threads push functors and then signal the eventfd; the loop thread polls,
  handles events, swaps the queue out under the mutex and runs what it took.
 */
module EventLoops {

  type Tid = nat
  type Functor = nat

  /** Where the loop thread is inside `loop()`. */
  datatype Phase =
    | Polling
    | Handling
    | Swapping
    | Running
    /** `queueInloop` from a functor: pushed, not yet signalled. */
    | Signalling
    | Stopped

  datatype Loop = Loop(
    phase: Phase,
    quit: bool,
    pending: seq<Functor>,
    /** What `doPendingFunctors` has taken and not run yet. */
    batch: seq<Functor>,
    /** The eventfd's counter; positive means readable. */
    eventfd: nat,
    /** Foreign threads between a push (or a `quit`) and their `wakeup()`. */
    waking: set<Tid>,
    /** All functors ever pushed, and all ever run, in order. */
    pushed: seq<Functor>,
    ran: seq<Functor>)

  const START := Loop(Polling, false, [], [], 0, {}, [], [])

  datatype Step =
    | ForeignPush(t: Tid, f: Functor)
    | ForeignQuit(t: Tid)
    | ForeignWake(t: Tid)
    /** `poll` returns: the eventfd is readable, or another event, a timeout or a signal. */
    | PollReturns
    | ReadEventfd
    | HandlerPush(f: Functor)
    | LoopQuit
    | HandlersDone
    | Swap
    | RunNext
    | FunctorPush(f: Functor)
    | FunctorWake
    | IterationDone

  predicate Enabled(s: Loop, step: Step) {
    match step
    case ForeignPush(t, _) => t !in s.waking
    case ForeignQuit(t) => t !in s.waking
    case ForeignWake(t) => t in s.waking
    case PollReturns => s.phase == Polling
    case ReadEventfd => s.phase == Handling && s.eventfd > 0
    case HandlerPush(_) => s.phase == Handling
    case LoopQuit => s.phase == Handling || s.phase == Running
    case HandlersDone => s.phase == Handling
    case Swap => s.phase == Swapping
    case RunNext => s.phase == Running && s.batch != []
    case FunctorPush(_) => s.phase == Running
    case FunctorWake => s.phase == Signalling
    case IterationDone => s.phase == Running && s.batch == []
  }

  function Push(s: Loop, f: Functor): Loop {
    s.(pending := s.pending + [f], pushed := s.pushed + [f])
  }

  function Wakeup(s: Loop): Loop { s.(eventfd := s.eventfd + 1) }

  function ApplyStep(s: Loop, step: Step): Loop
    requires Enabled(s, step)
  {
    match step
    case ForeignPush(t, f) => Push(s, f).(waking := s.waking + {t})
    case ForeignQuit(t) => s.(quit := true, waking := s.waking + {t})
    case ForeignWake(t) => Wakeup(s).(waking := s.waking - {t})
    case PollReturns => s.(phase := Handling)
    case ReadEventfd => s.(eventfd := 0)
    case HandlerPush(f) => Push(s, f)
    case LoopQuit => s.(quit := true)
    case HandlersDone => s.(phase := Swapping)
    case Swap => s.(phase := Running, batch := s.pending, pending := [])
    case RunNext => s.(batch := s.batch[1..], ran := s.ran + [s.batch[0]])
    case FunctorPush(f) => Push(s, f).(phase := Signalling)
    case FunctorWake => Wakeup(s).(phase := Running)
    case IterationDone => s.(phase := if s.quit then Stopped else Polling)
  }

  function Flatten(ss: seq<seq<Functor>>): seq<Functor> {
    if ss == [] then [] else Flatten(ss[..|ss| - 1]) + ss[|ss| - 1]
  }

  // ---------------------------------------------------------------- the source's class

  class EventLoop {
    var quit: bool
    var callingPendingFunctors: bool
    var pendingFunctors: seq<Functor>
    var wakeUpFd: nat
    /** The local vector of `doPendingFunctors`. */
    var functors: seq<Functor>
    ghost var phase: Phase
    ghost var waking: set<Tid>
    ghost var pushed: seq<Functor>
    ghost var ran: seq<Functor>

    /** The flag that decides about the wakeup tells the two callers of `queueInloop` apart. */
    ghost predicate Valid()
      reads this
    {
      callingPendingFunctors <==> phase == Swapping || phase == Running || phase == Signalling
    }

    ghost function View(): Loop
      reads this
    {
      Loop(phase, quit, pendingFunctors, functors, wakeUpFd, waking, pushed, ran)
    }

    constructor ()
      ensures Valid() && View() == START
    {
      quit, callingPendingFunctors, pendingFunctors, wakeUpFd, functors := false, false, [], 0, [];
      phase, waking, pushed, ran := Polling, {}, [], [];
    }

    /** The wakeup that `queueInloop` or `quit` owes: afterwards `poll` cannot block on the eventfd. */
    method WakeUp(inLoopThread: bool, ghost t: Tid)
      requires Valid() && Enabled(View(), if inLoopThread then FunctorWake else ForeignWake(t))
      modifies this`wakeUpFd, this`waking, this`phase
      ensures Valid() && wakeUpFd > 0
      ensures View() == ApplyStep(old(View()), if inLoopThread then FunctorWake else ForeignWake(t))
    {
      wakeUpFd := wakeUpFd + 1;
      if inLoopThread {
        phase := Running;
      } else {
        waking := waking - {t};
      }
    }

    method HandleRead()
      requires Valid() && Enabled(View(), ReadEventfd)
      modifies this`wakeUpFd
      ensures wakeUpFd == 0 && View() == ApplyStep(old(View()), ReadEventfd)
    {
      wakeUpFd := 0;
    }

    /** `quit` up to its `if`; the answer is whether it goes on to call `wakeup()`. */
    method Quit(inLoopThread: bool, ghost t: Tid) returns (wakes: bool)
      requires Valid()
      requires if inLoopThread then phase == Handling || phase == Running else t !in waking
      modifies this`quit, this`waking
      ensures Valid() && quit && (wakes <==> !inLoopThread)
      ensures View() == ApplyStep(old(View()), if inLoopThread then LoopQuit else ForeignQuit(t))
    {
      quit := true;
      wakes := !inLoopThread;
      if wakes {
        waking := waking + {t};
      }
    }

    /** `queueInloop` up to its `if`; the answer is whether it goes on to call `wakeup()`. */
    method QueueInLoop(cb: Functor, inLoopThread: bool, ghost t: Tid) returns (wakes: bool)
      requires Valid()
      requires if inLoopThread then phase == Handling || phase == Running else t !in waking
      modifies this
      ensures Valid() && (wakes <==> !inLoopThread || old(phase) == Running)
      ensures pendingFunctors == old(pendingFunctors) + [cb]
      ensures View() == ApplyStep(old(View()),
                                  if !inLoopThread then ForeignPush(t, cb)
                                  else if old(phase) == Running then FunctorPush(cb) else HandlerPush(cb))
    {
      pendingFunctors := pendingFunctors + [cb];
      pushed := pushed + [cb];
      wakes := !inLoopThread || callingPendingFunctors;
      if !inLoopThread {
        waking := waking + {t};
      } else if callingPendingFunctors {
        phase := Signalling;
      }
    }

    /** The start of `doPendingFunctors`, after all handlers: flag, then swap under the mutex. */
    method TakePendingFunctors()
      requires Valid() && phase == Handling && functors == []
      modifies this
      ensures Valid() && functors == old(pendingFunctors)
      ensures View() == ApplyStep(ApplyStep(old(View()), HandlersDone), Swap)
    {
      callingPendingFunctors := true;
      phase := Swapping;
      functors, pendingFunctors := pendingFunctors, functors;
      phase := Running;
    }

    /** One functor of the batch. */
    method RunFunctor() returns (functor: Functor)
      requires Valid() && phase == Running && functors != []
      modifies this
      ensures Valid() && functor == old(functors)[0]
      ensures View() == ApplyStep(old(View()), RunNext)
    {
      functor := functors[0];
      functors := functors[1..];
      ran := ran + [functor];
    }

    /** `functor()`, which may call `queueInloop` in turn. */
    method CallFunctor(calls: seq<Functor>)
      requires Valid() && phase == Running && functors != []
      modifies this
      ensures Valid() && phase == Running && functors == old(functors)[1..]
      ensures ran == old(ran) + [old(functors)[0]] && pendingFunctors == old(pendingFunctors) + calls
      ensures quit == old(quit) && wakeUpFd == old(wakeUpFd) + |calls|
    {
      var functor := RunFunctor();
      for i := 0 to |calls|
        invariant Valid() && phase == Running && quit == old(quit) && functors == old(functors)[1..]
        invariant ran == old(ran) + [old(functors)[0]] && pendingFunctors == old(pendingFunctors) + calls[..i]
        invariant wakeUpFd == old(wakeUpFd) + i
      {
        var wakes := QueueInLoop(calls[i], true, 0);
        assert wakes;
        WakeUp(true, 0);
      }
    }

    /** With nobody interfering: exactly the batch runs, and what it queues is signalled. */
    method DoPendingFunctors(calls: seq<seq<Functor>>)
      requires Valid() && phase == Handling && functors == [] && |calls| == |pendingFunctors|
      modifies this
      ensures Valid() && functors == [] && phase == (if quit then Stopped else Polling) && quit == old(quit)
      ensures ran == old(ran) + old(pendingFunctors)
      ensures pendingFunctors == Flatten(calls) && (pendingFunctors != [] ==> wakeUpFd > old(wakeUpFd))
    {
      TakePendingFunctors();
      ghost var batch := functors;
      var i := 0;
      while functors != []
        invariant Valid() && phase == Running && quit == old(quit)
        invariant i + |functors| == |batch| && batch[i..] == functors
        invariant ran == old(ran) + batch[..i] && pendingFunctors == Flatten(calls[..i])
        invariant wakeUpFd == old(wakeUpFd) + |pendingFunctors|
        decreases |functors|
      {
        CallFunctor(calls[i]);
        assert calls[..i + 1][..i] == calls[..i];
        i := i + 1;
      }
      assert calls[..i] == calls && batch[..i] == batch;
      FinishIteration();
    }

    /** The end of an iteration of `loop()`. */
    method FinishIteration()
      requires Valid() && phase == Running && functors == []
      modifies this
      ensures Valid() && View() == ApplyStep(old(View()), IterationDone)
    {
      callingPendingFunctors := false;
      phase := if quit then Stopped else Polling;
    }
  }

  // ---------------------------------------------------------------- what every step keeps

  /** The loop will be woken: the eventfd is readable or somebody is about to make it so. */
  predicate WillWake(s: Loop) {
    s.eventfd > 0 || s.waking != {} || s.phase == Signalling
  }

  predicate Inv(s: Loop) {
    && s.pushed == s.ran + s.batch + s.pending
    && (s.phase == Polling || s.phase == Running || s.phase == Signalling ==> s.pending != [] ==> WillWake(s))
    && (s.phase == Polling && s.quit ==> WillWake(s))
    && (s.phase == Polling || s.phase == Handling || s.phase == Swapping || s.phase == Stopped ==> s.batch == [])
  }

  lemma StepConserves(s: Loop, step: Step)
    requires s.pushed == s.ran + s.batch + s.pending && Enabled(s, step)
    requires step == Swap ==> s.batch == []
    ensures var s' := ApplyStep(s, step); s'.pushed == s'.ran + s'.batch + s'.pending
  {
    if step == RunNext {
      assert s.batch == [s.batch[0]] + s.batch[1..];
    }
  }

  lemma StepKeepsInv(s: Loop, step: Step)
    requires Inv(s) && Enabled(s, step)
    ensures Inv(ApplyStep(s, step))
  {
    StepConserves(s, step);
  }

  // ---------------------------------------------------------------- whole runs

  ghost predicate Runs(s: Loop, steps: seq<Step>)
    decreases |steps|
  {
    steps == [] || (Enabled(s, steps[0]) && Runs(ApplyStep(s, steps[0]), steps[1..]))
  }

  function Exec(s: Loop, steps: seq<Step>): Loop
    requires Runs(s, steps)
    decreases |steps|
  {
    if steps == [] then s else Exec(ApplyStep(s, steps[0]), steps[1..])
  }

  lemma {:induction false} RunKeepsInv(s: Loop, steps: seq<Step>)
    requires Inv(s) && Runs(s, steps)
    ensures Inv(Exec(s, steps))
    decreases |steps|
  {
    hide Inv, ApplyStep, Enabled;
    if steps != [] {
      StepKeepsInv(s, steps[0]);
      RunKeepsInv(ApplyStep(s, steps[0]), steps[1..]);
    }
  }

  /**
    In every interleaving, a loop that is at `poll` with something to run or to stop for is
    signalled, or a thread is between its push and its wakeup.
   */
  lemma NoLostWakeup(steps: seq<Step>)
    requires Runs(START, steps)
    ensures var s := Exec(START, steps);
            s.phase == Polling && (s.pending != [] || s.quit) ==> s.eventfd > 0 || s.waking != {}
  {
    RunKeepsInv(START, steps);
  }

  // ---------------------------------------------------------------- what the steps ask for

  /** The last step of a run, after all the others. */
  lemma {:induction false} Snoc(s: Loop, steps: seq<Step>)
    requires steps != [] && Runs(s, steps)
    ensures var init, last := steps[..|steps| - 1], steps[|steps| - 1];
            Runs(s, init) && Enabled(Exec(s, init), last) && Exec(s, steps) == ApplyStep(Exec(s, init), last)
    decreases |steps|
  {
    hide Enabled, ApplyStep;
    if |steps| > 1 {
      Snoc(ApplyStep(s, steps[0]), steps[1..]);
      assert steps[1..][..|steps| - 2] == steps[..|steps| - 1][1..];
    }
  }

  /** The functors that the calls of `queueInloop` bring, in whatever thread. */
  function Brought(steps: seq<Step>): seq<Functor> {
    if steps == [] then [] else
    var before, last := Brought(steps[..|steps| - 1]), steps[|steps| - 1];
    if last.ForeignPush? || last.HandlerPush? || last.FunctorPush? then before + [last.f] else before
  }

  /** How often `doPendingFunctors` calls a functor. */
  function Turns(steps: seq<Step>): nat {
    if steps == [] then 0 else Turns(steps[..|steps| - 1]) + if steps[|steps| - 1] == RunNext then 1 else 0
  }

  /** The wakeups since the eventfd was read last. */
  function Signals(steps: seq<Step>): nat {
    if steps == [] then 0 else
    var before, last := Signals(steps[..|steps| - 1]), steps[|steps| - 1];
    if last == ReadEventfd then 0 else if last.ForeignWake? || last == FunctorWake then before + 1 else before
  }

  /** Some thread has called `quit`. */
  predicate QuitCalled(steps: seq<Step>) {
    steps != [] &&
    var last := steps[|steps| - 1];
    last.ForeignQuit? || last == LoopQuit || QuitCalled(steps[..|steps| - 1])
  }

  /**
    In every interleaving the functors run, taken and pending are those that the calls of
    `queueInloop` brought, in their order: none is lost, none comes twice, none overtakes. Each turn of
    `doPendingFunctors` runs one. The eventfd counts the wakeups since it was read, and the loop is
    asked to quit exactly if some `quit` was called.
   */
  lemma {:induction false} RunInQueueOrder(steps: seq<Step>)
    requires Runs(START, steps)
    ensures var s := Exec(START, steps);
            && s.ran + s.batch + s.pending == Brought(steps)
            && |s.ran| == Turns(steps)
            && s.eventfd == Signals(steps)
            && (s.quit <==> QuitCalled(steps))
    decreases |steps|
  {
    assert Inv(START);
    hide Enabled, Inv, ApplyStep;
    if steps != [] {
      var n := |steps| - 1;
      Snoc(START, steps);
      RunInQueueOrder(steps[..n]);
      var s := Exec(START, steps[..n]);
      RunKeepsInv(START, steps[..n]);
      StepTells(s, steps[n]);
    }
  }

  /** What one step adds to each account. */
  lemma StepTells(s: Loop, step: Step)
    requires Inv(s) && Enabled(s, step)
    ensures var s' := ApplyStep(s, step);
            && s'.ran + s'.batch + s'.pending == s.ran + s.batch + s.pending
                 + (if step.ForeignPush? || step.HandlerPush? || step.FunctorPush? then [step.f] else [])
            && |s'.ran| == |s.ran| + (if step == RunNext then 1 else 0)
            && s'.eventfd == (if step == ReadEventfd then 0
                              else if step.ForeignWake? || step == FunctorWake then s.eventfd + 1 else s.eventfd)
            && (s'.quit <==> s.quit || step.ForeignQuit? || step == LoopQuit)
  {
    StepConserves(s, step);
  }

  /** At the end of an iteration the loop stops exactly if some `quit` was called before. */
  lemma StopsExactly(steps: seq<Step>)
    requires Runs(START, steps + [IterationDone])
    ensures var s := Exec(START, steps + [IterationDone]);
            s.phase == if QuitCalled(steps) then Stopped else Polling
  {
    hide QuitCalled, Brought, Turns, Signals, Exec, Runs;
    Snoc(START, steps + [IterationDone]);
    assert (steps + [IterationDone])[..|steps|] == steps;
    RunInQueueOrder(steps);
  }

  /** A loop that has stopped stays stopped, whatever other threads do. */
  lemma {:induction false} StoppedStays(s: Loop, steps: seq<Step>)
    requires s.phase == Stopped && Runs(s, steps)
    ensures Exec(s, steps).phase == Stopped && Exec(s, steps).ran == s.ran
    decreases |steps|
  {
    if steps != [] { StoppedStays(ApplyStep(s, steps[0]), steps[1..]); }
  }

  /** How far the functors of `first` have come, by the phase the loop is in. */
  predicate HandedOver(first: seq<Functor>, s: Loop) {
    match s.phase
    case Handling => first <= s.pushed
    case Swapping => first <= s.pushed
    case Running => first <= s.ran + s.batch
    case Signalling => first <= s.ran + s.batch
    case Polling => first <= s.ran
    case Stopped => first <= s.ran
  }

  lemma StepHandsOver(first: seq<Functor>, s: Loop, step: Step)
    requires Inv(s) && Enabled(s, step) && HandedOver(first, s)
    ensures HandedOver(first, ApplyStep(s, step))
  {
    var s' := ApplyStep(s, step);
    if step == RunNext {
      assert s'.ran + s'.batch == s.ran + s.batch;
    } else if step == Swap {
      assert s.ran + [] + s.pending == s'.ran + s'.batch;
    } else if step == IterationDone {
      assert s.ran + s.batch == s.ran;
    } else if step == PollReturns {
      assert s.ran <= s.pushed;
    }
  }

  /** Whatever was queued before the handlers ran has run once the loop is back at `poll`, or has stopped. */
  lemma {:induction false} IterationRunsAll(first: seq<Functor>, s: Loop, steps: seq<Step>)
    requires Inv(s) && Runs(s, steps) && HandedOver(first, s)
    ensures var e := Exec(s, steps); e.phase == Polling || e.phase == Stopped ==> first <= e.ran
    decreases |steps|
  {
    hide Inv, ApplyStep, Enabled;
    if steps != [] {
      StepKeepsInv(s, steps[0]);
      StepHandsOver(first, s, steps[0]);
      IterationRunsAll(first, ApplyStep(s, steps[0]), steps[1..]);
    }
  }

  /** A functor queued while the loop sleeps in `poll` is run by the iteration that the wakeup starts. */
  lemma PendingAtPollRuns(s: Loop, steps: seq<Step>)
    requires Inv(s) && s.phase == Polling && Runs(s, [PollReturns] + steps)
    ensures var e := Exec(s, [PollReturns] + steps);
            e.phase == Polling || e.phase == Stopped ==> s.ran + s.pending <= e.ran
  {
    var s1 := ApplyStep(s, PollReturns);
    assert ([PollReturns] + steps)[1..] == steps;
    StepKeepsInv(s, PollReturns);
    assert s.ran + s.batch + s.pending == s.ran + s.pending;
    IterationRunsAll(s.ran + s.pending, s1, steps);
  }

  // ---------------------------------------------------------------- the loop gets on

  /** What the loop thread does next by itself. */
  function Onward(s: Loop): Step {
    match s.phase
    case Handling => HandlersDone
    case Swapping => Swap
    case Running => if s.batch != [] then RunNext else IterationDone
    case Signalling => FunctorWake
    case Polling => PollReturns
    case Stopped => PollReturns
  }

  function StepsLeft(s: Loop): nat {
    match s.phase
    case Handling => |s.pending| + 3
    case Swapping => |s.pending| + 2
    case Running => |s.batch| + 1
    case Signalling => |s.batch| + 2
    case _ => 0
  }

  /** What will have run at the end of the iteration. */
  function Goal(s: Loop): seq<Functor> {
    match s.phase
    case Handling => s.ran + s.pending
    case Swapping => s.ran + s.pending
    case Running => s.ran + s.batch
    case Signalling => s.ran + s.batch
    case _ => s.ran
  }

  lemma OnwardStep(s: Loop)
    requires Inv(s) && s.phase != Polling && s.phase != Stopped
    ensures Enabled(s, Onward(s))
    ensures var s' := ApplyStep(s, Onward(s)); Goal(s') == Goal(s) && StepsLeft(s') < StepsLeft(s)
  {
    if s.phase == Running && s.batch != [] { assert s.batch == [s.batch[0]] + s.batch[1..]; }
  }

  /** From anywhere in an iteration the loop thread alone gets to its end. */
  lemma {:induction false} IterationEnds(s: Loop) returns (steps: seq<Step>)
    requires Inv(s)
    ensures Runs(s, steps) && Exec(s, steps).phase in {Polling, Stopped} && Exec(s, steps).ran == Goal(s)
    decreases StepsLeft(s)
  {
    if s.phase == Polling || s.phase == Stopped {
      steps := [];
    } else {
      OnwardStep(s);
      StepKeepsInv(s, Onward(s));
      hide Inv, ApplyStep, Enabled, Goal, Onward, StepsLeft;
      var rest := IterationEnds(ApplyStep(s, Onward(s)));
      steps := [Onward(s)] + rest;
      assert steps[1..] == rest;
    }
  }

  /** The iteration that `poll` returning starts runs all that is pending, in order. */
  lemma PendingCanRun(s: Loop) returns (steps: seq<Step>)
    requires Inv(s) && s.phase == Polling
    ensures Runs(s, steps) && Exec(s, steps).phase in {Polling, Stopped} && Exec(s, steps).ran == s.ran + s.pending
  {
    StepKeepsInv(s, PollReturns);
    var rest := IterationEnds(ApplyStep(s, PollReturns));
    steps := [PollReturns] + rest;
    assert steps[1..] == rest;
  }
}
