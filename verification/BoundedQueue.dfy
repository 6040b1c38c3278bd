/**
  The bounded blocking queue (`muduo/base/BoundedBlockingQueue.h`): a monitor with one mutex and
  two conditions, used by any number of threads. A critical section, from locking the mutex to
  waiting or unlocking, is one step. A thread that waits sleeps until it is signalled or wakes up
  for no reason; then it competes for the mutex with everybody else and looks again.
 */
module BoundedQueues {

  type Tid = nat

  datatype Monitor<T> = Monitor(
    capacity: nat,
    items: seq<T>,
    /** Threads asleep in `_not_full.wait()`, and those already woken, with the item they bring. */
    sleepPut: map<Tid, T>,
    wokenPut: map<Tid, T>,
    /** Threads asleep in `_not_empty.wait()`, and those already woken. */
    sleepTake: set<Tid>,
    wokenTake: set<Tid>,
    /** Everything ever handed out, in order. */
    takes: seq<T>)

  predicate Idle<T>(m: Monitor<T>, t: Tid) {
    t !in m.sleepPut && t !in m.wokenPut && t !in m.sleepTake && t !in m.wokenTake
  }

  // ---------------------------------------------------------------- critical sections

  /** `_not_empty.notify()`: wakes the given sleeper if anyone sleeps. */
  function NotifyTaker<T>(m: Monitor<T>, wake: Tid): Monitor<T> {
    if wake in m.sleepTake then m.(sleepTake := m.sleepTake - {wake}, wokenTake := m.wokenTake + {wake}) else m
  }

  /** `_not_full.notify()`. */
  function NotifyPutter<T>(m: Monitor<T>, wake: Tid): Monitor<T> {
    if wake in m.sleepPut
    then m.(sleepPut := m.sleepPut - {wake}, wokenPut := m.wokenPut[wake := m.sleepPut[wake]])
    else m
  }

  /** One turn of `put` in thread t, holding the mutex. */
  function PutTurn<T>(m: Monitor<T>, t: Tid, x: T, wake: Tid): Monitor<T> {
    if |m.items| == m.capacity then m.(sleepPut := m.sleepPut[t := x])
    else NotifyTaker(m.(items := m.items + [x]), wake)
  }

  /** One turn of `take` in thread t, holding the mutex. */
  function TakeTurn<T>(m: Monitor<T>, t: Tid, wake: Tid): Monitor<T> {
    if m.items == [] then m.(sleepTake := m.sleepTake + {t})
    else NotifyPutter(m.(items := m.items[1..], takes := m.takes + [m.items[0]]), wake)
  }

  datatype Step<T> =
    | Put(t: Tid, x: T, wake: Tid)
    | Take(t: Tid, wake: Tid)
    | ResumePut(t: Tid, wake: Tid)
    | ResumeTake(t: Tid, wake: Tid)
    | SpuriousPut(t: Tid)
    | SpuriousTake(t: Tid)

  /** A notification reaches some sleeper whenever there is one. */
  predicate Enabled<T>(m: Monitor<T>, step: Step<T>) {
    match step
    case Put(t, _, wake) => Idle(m, t) && (m.sleepTake != {} ==> wake in m.sleepTake)
    case Take(t, wake) => Idle(m, t) && (|m.sleepPut| > 0 ==> wake in m.sleepPut)
    case ResumePut(t, wake) => t in m.wokenPut && (m.sleepTake != {} ==> wake in m.sleepTake)
    case ResumeTake(t, wake) => t in m.wokenTake && (|m.sleepPut| > 0 ==> wake in m.sleepPut)
    case SpuriousPut(t) => t in m.sleepPut
    case SpuriousTake(t) => t in m.sleepTake
  }

  function ApplyStep<T>(m: Monitor<T>, step: Step<T>): Monitor<T>
    requires Enabled(m, step)
  {
    match step
    case Put(t, x, wake) => PutTurn(m, t, x, wake)
    case Take(t, wake) => TakeTurn(m, t, wake)
    case ResumePut(t, wake) => PutTurn(m.(wokenPut := m.wokenPut - {t}), t, m.wokenPut[t], wake)
    case ResumeTake(t, wake) => TakeTurn(m.(wokenTake := m.wokenTake - {t}), t, wake)
    case SpuriousPut(t) => NotifyPutter(m, t)
    case SpuriousTake(t) => NotifyTaker(m, t)
  }

  /** The monitor itself; each method is one critical section. */
  class BoundedBlockingQueue<T(0)> {
    const capacity: nat
    var queue: seq<T>
    var notFullSleepers: map<Tid, T>
    var notFullWoken: map<Tid, T>
    var notEmptySleepers: set<Tid>
    var notEmptyWoken: set<Tid>
    ghost var takes: seq<T>

    ghost function View(): Monitor<T>
      reads this
    {
      Monitor(capacity, queue, notFullSleepers, notFullWoken, notEmptySleepers, notEmptyWoken, takes)
    }

    constructor (capacity: nat)
      ensures View() == Monitor(capacity, [], map[], map[], {}, {}, [])
    {
      this.capacity := capacity;
      queue, notFullSleepers, notFullWoken, notEmptySleepers, notEmptyWoken := [], map[], map[], {}, {};
      takes := [];
    }

    method PutSection(t: Tid, x: T, wake: Tid) returns (waits: bool)
      requires Inv(View())
      modifies this
      ensures View() == PutTurn(old(View()), t, x, wake)
      ensures waits <==> |old(queue)| == capacity
      ensures if waits then queue == old(queue) && t in notFullSleepers else queue == old(queue) + [x]
    {
      waits := |queue| == capacity;
      if waits {
        notFullSleepers := notFullSleepers[t := x];
      } else {
        assert |queue| < capacity;
        queue := queue + [x];
        if wake in notEmptySleepers {
          notEmptySleepers, notEmptyWoken := notEmptySleepers - {wake}, notEmptyWoken + {wake};
        }
      }
    }

    method TakeSection(t: Tid, wake: Tid) returns (waits: bool, ans: T)
      requires Inv(View())
      modifies this
      ensures View() == TakeTurn(old(View()), t, wake)
      ensures waits <==> old(queue) == []
      ensures if waits then queue == [] && t in notEmptySleepers else old(queue) == [ans] + queue
    {
      hide Inv;
      waits := queue == [];
      if waits {
        ans := *;
        notEmptySleepers := notEmptySleepers + {t};
      } else {
        ans := queue[0];
        queue := queue[1..];
        takes := takes + [ans];
        if wake in notFullSleepers {
          notFullWoken := notFullWoken[wake := notFullSleepers[wake]];
          notFullSleepers := notFullSleepers - {wake};
        }
      }
    }
  }

  // ---------------------------------------------------------------- what every step keeps

  /** No thread is in two places at once. */
  predicate Apart<T>(m: Monitor<T>) {
    m.sleepTake !! m.wokenTake && m.sleepPut.Keys !! m.wokenPut.Keys
  }

  /** A sleeping taker means that every queued item has a woken taker of its own; likewise free slots. */
  predicate NoLostWakeup<T>(m: Monitor<T>) {
    && (m.sleepTake != {} ==> |m.items| <= |m.wokenTake|)
    && (|m.sleepPut| > 0 ==> m.capacity - |m.items| <= |m.wokenPut|)
  }

  ghost predicate Inv<T>(m: Monitor<T>) {
    && |m.items| <= m.capacity
    && Apart(m)
    && NoLostWakeup(m)
  }

  lemma NotifyTakerCounts<T>(m: Monitor<T>, wake: Tid)
    requires Apart(m)
    ensures var n := NotifyTaker(m, wake);
            && n == m.(sleepTake := n.sleepTake, wokenTake := n.wokenTake) && Apart(n)
            && |n.wokenTake| == |m.wokenTake| + (if wake in m.sleepTake then 1 else 0)
            && (wake !in m.sleepTake ==> n == m)
  {
  }

  lemma RemoveKey<T>(m: map<Tid, T>, t: Tid)
    requires t in m
    ensures |m - {t}| == |m| - 1
  {
    assert (m - {t}).Keys == m.Keys - {t};
  }

  lemma AddKey<T>(m: map<Tid, T>, t: Tid, x: T)
    requires t !in m
    ensures |m[t := x]| == |m| + 1
  {
    assert m[t := x].Keys == m.Keys + {t};
  }

  lemma NotifyPutterCounts<T>(m: Monitor<T>, wake: Tid)
    requires Apart(m)
    ensures var n := NotifyPutter(m, wake);
            && n == m.(sleepPut := n.sleepPut, wokenPut := n.wokenPut) && Apart(n)
            && |n.wokenPut| == |m.wokenPut| + (if wake in m.sleepPut then 1 else 0)
            && (wake !in m.sleepPut ==> n == m)
            && |n.sleepPut| <= |m.sleepPut|
  {
    if wake in m.sleepPut {
      AddKey(m.wokenPut, wake, m.sleepPut[wake]);
      RemoveKey(m.sleepPut, wake);
    }
  }

  /**
    A turn of `put` by a thread that was counted in `woken` before (or was not), given that the
    invariant held with it counted.
   */
  lemma PutTurnKeeps<T>(m: Monitor<T>, t: Tid, x: T, wake: Tid)
    requires |m.items| <= m.capacity && Apart(m)
    requires t !in m.wokenPut
    requires m.sleepTake != {} ==> |m.items| <= |m.wokenTake| && wake in m.sleepTake
    requires |m.sleepPut| > 0 ==> m.capacity - |m.items| <= |m.wokenPut| + 1
    ensures Inv(PutTurn(m, t, x, wake)) && PutTurn(m, t, x, wake).capacity == m.capacity
    ensures PutTurn(m, t, x, wake).items == m.items + if |m.items| < m.capacity then [x] else []
  {
    hide NotifyTaker;
    if |m.items| < m.capacity {
      NotifyTakerCounts(m.(items := m.items + [x]), wake);
    }
  }

  lemma TakeServes<T>(m: Monitor<T>, n: Monitor<T>, wake: Tid)
    requires m.items != [] && |m.items| <= m.capacity && Apart(m)
    requires m.sleepTake != {} ==> |m.items| <= |m.wokenTake| + 1
    requires |m.sleepPut| > 0 ==> m.capacity - |m.items| <= |m.wokenPut| && wake in m.sleepPut
    requires n == m.(items := m.items[1..], takes := m.takes + [m.items[0]])
    ensures Inv(NotifyPutter(n, wake)) && NotifyPutter(n, wake).capacity == m.capacity
    ensures NotifyPutter(n, wake).items == n.items
  {
    hide NotifyPutter;
    NotifyPutterCounts(n, wake);
  }

  lemma TakeTurnKeeps<T>(m: Monitor<T>, t: Tid, wake: Tid)
    requires |m.items| <= m.capacity && Apart(m)
    requires t !in m.wokenTake
    requires m.sleepTake != {} ==> |m.items| <= |m.wokenTake| + 1
    requires |m.sleepPut| > 0 ==> m.capacity - |m.items| <= |m.wokenPut| && wake in m.sleepPut
    ensures Inv(TakeTurn(m, t, wake)) && TakeTurn(m, t, wake).capacity == m.capacity
    ensures m.items != [] ==> m.items == [m.items[0]] + TakeTurn(m, t, wake).items
  {
    if m.items != [] {
      hide NotifyPutter, Inv, Apart;
      TakeServes(m, m.(items := m.items[1..], takes := m.takes + [m.items[0]]), wake);
    }
  }

  lemma ResumePutKeeps<T>(m: Monitor<T>, t: Tid, wake: Tid)
    requires Inv(m) && t in m.wokenPut && (m.sleepTake != {} ==> wake in m.sleepTake)
    ensures var n := PutTurn(m.(wokenPut := m.wokenPut - {t}), t, m.wokenPut[t], wake);
            Inv(n) && n.capacity == m.capacity
  {
    hide PutTurn;
    RemoveKey(m.wokenPut, t);
    PutTurnKeeps(m.(wokenPut := m.wokenPut - {t}), t, m.wokenPut[t], wake);
  }

  lemma StepKeepsInv<T>(m: Monitor<T>, step: Step<T>)
    requires Inv(m) && Enabled(m, step)
    ensures Inv(ApplyStep(m, step))
    ensures ApplyStep(m, step).capacity == m.capacity
  {
    hide PutTurn, TakeTurn;
    match step
    case Put(t, x, wake) => PutTurnKeeps(m, t, x, wake);
    case Take(t, wake) => TakeTurnKeeps(m, t, wake);
    case ResumePut(t, wake) => ResumePutKeeps(m, t, wake);
    case ResumeTake(t, wake) => TakeTurnKeeps(m.(wokenTake := m.wokenTake - {t}), t, wake);
    case SpuriousPut(t) => NotifyPutterCounts(m, t);
    case SpuriousTake(t) => NotifyTakerCounts(m, t);
  }

  // ---------------------------------------------------------------- whole runs

  ghost predicate Runs<T>(m: Monitor<T>, steps: seq<Step<T>>)
    decreases |steps|
  {
    steps == [] || (Enabled(m, steps[0]) && Runs(ApplyStep(m, steps[0]), steps[1..]))
  }

  function Exec<T>(m: Monitor<T>, steps: seq<Step<T>>): Monitor<T>
    requires Runs(m, steps)
    decreases |steps|
  {
    if steps == [] then m else Exec(ApplyStep(m, steps[0]), steps[1..])
  }

  function Empty<T>(capacity: nat): Monitor<T> { Monitor(capacity, [], map[], map[], {}, {}, []) }

  lemma {:induction false} RunKeepsInv<T>(m: Monitor<T>, steps: seq<Step<T>>)
    requires Inv(m) && Runs(m, steps)
    ensures Inv(Exec(m, steps)) && Exec(m, steps).capacity == m.capacity
    decreases |steps|
  {
    hide Inv, ApplyStep;
    if steps != [] {
      StepKeepsInv(m, steps[0]);
      RunKeepsInv(ApplyStep(m, steps[0]), steps[1..]);
    }
  }

  // ---------------------------------------------------------------- the plain queue

  /**
    What a list of steps amounts to without monitor and conditions: all items ever queued, how many of
    them were handed out, and who is inside `put` (with what) or inside `take`.
   */
  datatype Log<T> = Log(queued: seq<T>, handedOut: nat, putting: map<Tid, T>, taking: set<Tid>)

  function PutInto<T>(log: Log<T>, capacity: nat, t: Tid, x: T): Log<T> {
    if |log.queued| - log.handedOut < capacity
    then log.(queued := log.queued + [x], putting := log.putting - {t})
    else log.(putting := log.putting[t := x])
  }

  function TakeFrom<T>(log: Log<T>, t: Tid): Log<T> {
    if log.handedOut < |log.queued|
    then log.(handedOut := log.handedOut + 1, taking := log.taking - {t})
    else log.(taking := log.taking + {t})
  }

  function Told<T>(log: Log<T>, capacity: nat, steps: seq<Step<T>>): Log<T>
    decreases |steps|
  {
    if steps == [] then log else Told(ToldStep(log, capacity, steps[0]), capacity, steps[1..])
  }

  /** Wakeups, be they for a reason or not, change nothing here. */
  function ToldStep<T>(log: Log<T>, capacity: nat, step: Step<T>): Log<T> {
    match step
    case Put(t, x, _) => PutInto(log, capacity, t, x)
    case ResumePut(t, _) => if t in log.putting then PutInto(log, capacity, t, log.putting[t]) else log
    case Take(t, _) => TakeFrom(log, t)
    case ResumeTake(t, _) => TakeFrom(log, t)
    case _ => log
  }

  /** The queue is the part of the log that was not handed out; every caller inside is asleep or woken. */
  ghost predicate Keeps<T>(m: Monitor<T>, log: Log<T>) {
    && m.takes + m.items == log.queued && |m.takes| == log.handedOut
    && m.sleepPut + m.wokenPut == log.putting
    && m.sleepTake + m.wokenTake == log.taking
  }

  lemma MergeAt<T>(a: map<Tid, T>, b: map<Tid, T>, c: map<Tid, T>, t: Tid, x: T)
    requires a + b == c - {t} && t !in b
    ensures a[t := x] + b == c[t := x]
  {
    var left, right := a[t := x] + b, c[t := x];
    forall k ensures k in left <==> k in right {
      assert k in a + b <==> k in c - {t};
    }
    forall k | k in left ensures left[k] == right[k] {
      if k != t { assert (a + b)[k] == (c - {t})[k]; }
    }
  }

  lemma PutKeepsLog<T>(m: Monitor<T>, log: Log<T>, t: Tid, x: T, wake: Tid)
    requires Apart(m) && |m.items| <= m.capacity && t !in m.wokenPut && t !in m.sleepPut
    requires m.takes + m.items == log.queued && |m.takes| == log.handedOut
    requires m.sleepPut + m.wokenPut == log.putting - {t} && m.sleepTake + m.wokenTake == log.taking
    ensures Keeps(PutTurn(m, t, x, wake), PutInto(log, m.capacity, t, x))
  {
    var n := PutTurn(m, t, x, wake);
    assert |log.queued| - log.handedOut == |m.items|;
    if |m.items| < m.capacity {
      assert n.takes + n.items == log.queued + [x];
    } else {
      MergeAt(m.sleepPut, m.wokenPut, log.putting, t, x);
    }
  }

  lemma TakeKeepsLog<T>(m: Monitor<T>, log: Log<T>, t: Tid, wake: Tid)
    requires Apart(m) && t !in m.wokenTake && t !in m.sleepTake
    requires m.takes + m.items == log.queued && |m.takes| == log.handedOut
    requires m.sleepPut + m.wokenPut == log.putting && m.sleepTake + m.wokenTake == log.taking - {t}
    ensures Keeps(TakeTurn(m, t, wake), TakeFrom(log, t))
  {
    var n := TakeTurn(m, t, wake);
    if m.items != [] {
      assert m.items == [m.items[0]] + m.items[1..];
      NotifyPutterKeeps(m.(items := m.items[1..], takes := m.takes + [m.items[0]]), wake);
    }
  }

  lemma NotifyPutterKeeps<T>(m: Monitor<T>, wake: Tid)
    requires Apart(m)
    ensures var n := NotifyPutter(m, wake); n.sleepPut + n.wokenPut == m.sleepPut + m.wokenPut
  {
  }

  lemma WokenPutter<T>(m: Monitor<T>, log: Log<T>, t: Tid)
    requires Apart(m) && m.sleepPut + m.wokenPut == log.putting && t in m.wokenPut
    ensures t in log.putting && log.putting[t] == m.wokenPut[t]
    ensures m.sleepPut + (m.wokenPut - {t}) == log.putting - {t}
  {
    assert t in m.sleepPut + m.wokenPut && t !in m.sleepPut.Keys;
  }

  lemma ResumeKeepsLog<T>(m: Monitor<T>, log: Log<T>, t: Tid, wake: Tid)
    requires Inv(m) && Keeps(m, log) && t in m.wokenPut
    requires m.sleepPut + (m.wokenPut - {t}) == log.putting - {t}
    ensures Keeps(PutTurn(m.(wokenPut := m.wokenPut - {t}), t, m.wokenPut[t], wake),
                  PutInto(log, m.capacity, t, m.wokenPut[t]))
  {
    hide PutTurn, PutInto, NoLostWakeup;
    PutKeepsLog(m.(wokenPut := m.wokenPut - {t}), log, t, m.wokenPut[t], wake);
  }

  lemma StepKeepsLog<T>(m: Monitor<T>, log: Log<T>, step: Step<T>)
    requires Inv(m) && Keeps(m, log) && Enabled(m, step)
    ensures Keeps(ApplyStep(m, step), ToldStep(log, m.capacity, step))
  {
    hide PutTurn, TakeTurn, PutInto, TakeFrom, NotifyPutter, NoLostWakeup;
    match step
    case Put(t, x, wake) =>
      assert log.putting - {t} == log.putting;
      PutKeepsLog(m, log, t, x, wake);
    case Take(t, wake) =>
      assert log.taking - {t} == log.taking;
      TakeKeepsLog(m, log, t, wake);
    case ResumePut(t, wake) =>
      WokenPutter(m, log, t);
      ResumeKeepsLog(m, log, t, wake);
    case ResumeTake(t, wake) => TakeKeepsLog(m.(wokenTake := m.wokenTake - {t}), log, t, wake);
    case SpuriousPut(t) =>
      NotifyPutterCounts(m, t);
      NotifyPutterKeeps(m, t);
    case SpuriousTake(t) =>
  }

  lemma {:induction false} RunKeepsLog<T>(m: Monitor<T>, log: Log<T>, steps: seq<Step<T>>)
    requires Inv(m) && Keeps(m, log) && Runs(m, steps)
    ensures Keeps(Exec(m, steps), Told(log, m.capacity, steps))
    decreases |steps|
  {
    hide Inv, ApplyStep, ToldStep, Keeps, Enabled;
    if steps != [] {
      StepKeepsInv(m, steps[0]);
      StepKeepsLog(m, log, steps[0]);
      RunKeepsLog(ApplyStep(m, steps[0]), ToldStep(log, m.capacity, steps[0]), steps[1..]);
    }
  }

  /**
    In every interleaving the queue is bounded and first in, first out: the items handed out are the
    first of those that the put turns queued, in the order of these turns, and the queue holds the
    rest. Whoever has called and not been served sleeps or is woken, with the item it brought, and no
    wakeup is lost.
   */
  lemma EveryInterleaving<T>(capacity: nat, steps: seq<Step<T>>)
    requires Runs(Empty<T>(capacity), steps)
    ensures var m := Exec(Empty<T>(capacity), steps);
            var log := Told(Log([], 0, map[], {}), capacity, steps);
            && |m.items| <= capacity
            && log.handedOut <= |log.queued|
            && m.takes == log.queued[..log.handedOut] && m.items == log.queued[log.handedOut..]
            && m.sleepPut + m.wokenPut == log.putting && m.sleepTake + m.wokenTake == log.taking
            && (m.sleepTake != {} ==> |m.items| <= |m.wokenTake|)
            && (|m.sleepPut| > 0 ==> capacity - |m.items| <= |m.wokenPut|)
  {
    hide Enabled, ApplyStep, ToldStep, Runs, Exec, Told;
    var m := Empty<T>(capacity);
    RunKeepsInv(m, steps);
    RunKeepsLog(m, Log([], 0, map[], {}), steps);
  }

  /**
    Takers and putters of a queue with room for something never wait for each other: if somebody
    sleeps on each side, somebody has been woken, and on the side where a turn succeeds.
   */
  lemma NeverStuck<T>(capacity: nat, steps: seq<Step<T>>)
    requires capacity > 0 && Runs(Empty<T>(capacity), steps)
    ensures var m := Exec(Empty<T>(capacity), steps);
            m.sleepTake != {} && |m.sleepPut| > 0 ==>
              || (exists t :: t in m.wokenTake && m.items != [])
              || (exists t :: t in m.wokenPut && |m.items| < capacity)
  {
    RunKeepsInv(Empty<T>(capacity), steps);
    var m := Exec(Empty<T>(capacity), steps);
    if m.sleepTake != {} && |m.sleepPut| > 0 {
      if m.items != [] {
        var t := AnyOf(m.wokenTake);
        assert t in m.wokenTake;
      } else {
        var t := AnyOf(m.wokenPut.Keys);
        assert t in m.wokenPut;
      }
    }
  }

  lemma AnyOf(s: set<Tid>) returns (t: Tid)
    requires |s| > 0
    ensures t in s
  {
    t :| t in s;
  }
}
