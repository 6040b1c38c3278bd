/** Sorted lists of timer entries: `std::set<std::pair<Timestamp, Timer*>>` and its operations. */
module TimerLists {

  type Addr = nat

  /** A timer's expiration in microseconds, and the address of the timer. */
  datatype Entry = Entry(when: int, addr: Addr)

  predicate Less(a: Entry, b: Entry) {
    a.when < b.when || (a.when == b.when && a.addr < b.addr)
  }

  predicate Sorted(s: seq<Entry>) {
    forall i, j | 0 <= i < j < |s| :: Less(s[i], s[j])
  }

  function Insert(s: seq<Entry>, e: Entry): seq<Entry> {
    if s == [] || Less(e, s[0]) then [e] + s else [s[0]] + Insert(s[1..], e)
  }

  function Erase(s: seq<Entry>, e: Entry): seq<Entry> {
    if s == [] then [] else if s[0] == e then s[1..] else [s[0]] + Erase(s[1..], e)
  }

  /** `lower_bound` of (now, largest pointer): how many entries expire at or before now. */
  function ExpiredCount(s: seq<Entry>, now: int): (k: nat)
    ensures k <= |s|
  {
    if s == [] || s[0].when > now then 0 else 1 + ExpiredCount(s[1..], now)
  }

  lemma {:induction false} InsertHas(s: seq<Entry>, e: Entry, x: Entry)
    ensures x in Insert(s, e) <==> x == e || x in s
    ensures |Insert(s, e)| == |s| + 1
  {
    if s != [] && !Less(e, s[0]) {
      InsertHas(s[1..], e, x);
      assert s == [s[0]] + s[1..];
    }
  }

  lemma {:induction false} InsertSorted(s: seq<Entry>, e: Entry)
    requires Sorted(s) && e !in s
    ensures Sorted(Insert(s, e))
  {
    if s != [] && !Less(e, s[0]) {
      InsertSorted(s[1..], e);
      var t := Insert(s[1..], e);
      forall j | 0 <= j < |t| ensures Less(s[0], t[j]) {
        InsertHas(s[1..], e, t[j]);
        if t[j] != e {
          var k :| 0 <= k < |s| - 1 && s[1..][k] == t[j];
          assert Less(s[0], s[k + 1]);
        }
      }
    }
  }

  /** The new first entry is the earlier of the old one and the new one. */
  lemma InsertFirst(s: seq<Entry>, e: Entry)
    ensures Insert(s, e) != []
    ensures Insert(s, e)[0].when == if s == [] || e.when < s[0].when then e.when else s[0].when
  {
  }

  lemma {:induction false} EraseHas(s: seq<Entry>, e: Entry, x: Entry)
    requires Sorted(s)
    ensures x in Erase(s, e) <==> x in s && x != e
    ensures |Erase(s, e)| == |s| - if e in s then 1 else 0
  {
    if s != [] {
      assert s == [s[0]] + s[1..];
      assert forall j | 1 <= j < |s| :: Less(s[0], s[j]);
      EraseHas(s[1..], e, x);
    }
  }

  lemma {:induction false} EraseSorted(s: seq<Entry>, e: Entry)
    requires Sorted(s)
    ensures Sorted(Erase(s, e))
    ensures Erase(s, e) != [] ==> s != [] && Erase(s, e)[0].when >= s[0].when
  {
    if s != [] && s[0] != e {
      EraseSorted(s[1..], e);
      var t := Erase(s[1..], e);
      forall j | 0 <= j < |t| ensures Less(s[0], t[j]) {
        EraseHas(s[1..], e, t[j]);
        assert t[j] in s[1..];
      }
    }
  }

  /** The expired entries are exactly a prefix. */
  lemma {:induction false} ExpiredPrefix(s: seq<Entry>, now: int, i: nat)
    requires Sorted(s) && i < |s|
    ensures i < ExpiredCount(s, now) <==> s[i].when <= now
  {
    if i == 0 {
    } else if s[0].when > now {
      assert Less(s[0], s[i]);
    } else {
      ExpiredPrefix(s[1..], now, i - 1);
    }
  }
}

/**
  The timer queue (`muduo/net/TimerQueue.cc`): timers indexed by expiration and by address, an
  in-flight batch while the timerfd is handled, and callbacks that add and cancel timers in the
  middle of it. Timers are heap objects whose addresses are used again after `delete`.
 */
module TimerQueues {
  import opened TimerLists

  /** Timer numbers: `Timer::sequence_`, counted from 1. */
  type Seq = nat

  datatype Timer = Timer(expiration: int, interval: real, sequence: Seq)

  /** The live timer objects; an address can be used again once its timer is deleted. */
  type Heap = map<Addr, Timer>

  /** `TimerId` and `ActiveTimer`. */
  datatype Id = Id(addr: Addr, sequence: Seq)

  /** The kernel timer: when it goes off, and when it was set. */
  datatype TimerFd = Disarmed | Armed(deadline: int, setAt: int)

  /** Where the loop thread is: outside `handleRead`, calling the batch, or in `reset`. */
  datatype Phase = Idle | Calling | Resetting

  /** A timer number in the batch in which it was run. */
  datatype Fired = Fired(batchNo: nat, sequence: Seq)

  datatype Queue = Queue(
    clock: int,
    created: nat,
    heap: Heap,
    /** Timers whose `addTimerInLoop` is queued but has not run. */
    pending: set<Addr>,
    timers: seq<Entry>,
    active: set<Id>,
    canceling: set<Id>,
    phase: Phase,
    /** The vector `expired`, how far it has been run, and its `now`. */
    batch: seq<Entry>,
    ran: nat,
    now: int,
    fd: TimerFd,
    /** Numbers of deleted timers, in order; batches so far; what ran in which batch. */
    freed: seq<Seq>,
    batchNo: nat,
    fired: seq<Fired>,
    /** The batch in or after which an added timer was cancelled. */
    cancelledIn: map<Seq, nat>)

  // ---------------------------------------------------------------- time

  const MICROSECONDS_PER_SECOND := 1000000

  datatype Timespec = Timespec(sec: int, nsec: int)

  function HowMuchTimeFromNow(when: int, now: int): Timespec {
    var microseconds := if when - now < 100 then 100 else when - now;
    Timespec(microseconds / MICROSECONDS_PER_SECOND, microseconds % MICROSECONDS_PER_SECOND * 1000)
  }

  function Micros(ts: Timespec): int { ts.sec * MICROSECONDS_PER_SECOND + ts.nsec / 1000 }

  /** The timespec is well-formed and stands for the time left, at least 100 microseconds. */
  lemma TimespecOfWait(when: int, now: int)
    ensures var ts := HowMuchTimeFromNow(when, now);
            && ts.sec >= 0 && 0 <= ts.nsec < 1000000000
            && ts.sec * 1000000000 + ts.nsec == 1000 * (if when > now + 100 then when - now else 100)
            && now + Micros(ts) == if when > now + 100 then when else now + 100
  {
  }

  /** `addTime` with a non-negative interval: the product is truncated to microseconds. */
  function AddTime(time: int, seconds: real): int {
    time + (seconds * 1000000.0).Floor
  }

  predicate Repeats(t: Timer) { t.interval > 0.0 }

  // ---------------------------------------------------------------- the source's operations

  function ResetTimerfd(q: Queue, when: int): Queue {
    q.(fd := Armed(q.clock + Micros(HowMuchTimeFromNow(when, q.clock)), q.clock))
  }

  /** `insert`: both indices at once. */
  function InsertTimer(q: Queue, a: Addr): Queue
    requires a in q.heap
  {
    q.(timers := Insert(q.timers, Entry(q.heap[a].expiration, a)), active := q.active + {Id(a, q.heap[a].sequence)})
  }

  predicate EarliestChanged(q: Queue, when: int) { q.timers == [] || when < q.timers[0].when }

  function CreateTimer(q: Queue, a: Addr, when: int, interval: real): Queue {
    q.(created := q.created + 1, heap := q.heap[a := Timer(when, interval, q.created + 1)], pending := q.pending + {a})
  }

  function AddTimerInLoop(q: Queue, a: Addr): Queue
    requires a in q.heap
  {
    var q1 := InsertTimer(q.(pending := q.pending - {a}), a);
    if EarliestChanged(q, q.heap[a].expiration) then ResetTimerfd(q1, q.heap[a].expiration) else q1
  }

  function Delete(q: Queue, a: Addr): Queue
    requires a in q.heap
  {
    q.(heap := q.heap - {a}, freed := q.freed + [q.heap[a].sequence])
  }

  /** Whether an id names a timer that has been added, be it waiting, in flight or gone. */
  predicate WasAdded(q: Queue, id: Id) {
    || (id.addr in q.heap && q.heap[id.addr].sequence == id.sequence && id.addr !in q.pending)
    || id.sequence in q.freed
  }

  function CancelInLoop(q: Queue, id: Id): Queue
    requires id in q.active ==> id.addr in q.heap
  {
    var q0 := if WasAdded(q, id) && id.sequence !in q.cancelledIn
              then q.(cancelledIn := q.cancelledIn[id.sequence := q.batchNo]) else q;
    if id in q.active then
      var timers := Erase(q.timers, Entry(q.heap[id.addr].expiration, id.addr));
      Delete(q0.(timers := timers, active := q.active - {id}), id.addr)
    else if q.phase == Calling then q0.(canceling := q.canceling + {id})
    else q0
  }

  function IdsOf(heap: Heap, es: seq<Entry>): set<Id>
    requires forall e | e in es :: e.addr in heap
  {
    set e | e in es :: Id(e.addr, heap[e.addr].sequence)
  }

  /** `handleRead` up to the first callback: read the timerfd, take the expired timers out. */
  function BeginRead(q: Queue): Queue
    requires forall e | e in q.timers :: e.addr in q.heap
  {
    var k := ExpiredCount(q.timers, q.clock);
    var expired := q.timers[..k];
    q.(phase := Calling, now := q.clock, ran := 0, batch := expired, timers := q.timers[k..],
       active := q.active - IdsOf(q.heap, expired), canceling := {}, batchNo := q.batchNo + 1,
       fd := if q.fd.Armed? && q.fd.deadline <= q.clock then Disarmed else q.fd)
  }

  function RunNext(q: Queue): Queue
    requires q.ran < |q.batch| && q.batch[q.ran].addr in q.heap
  {
    q.(ran := q.ran + 1, fired := q.fired + [Fired(q.batchNo, q.heap[q.batch[q.ran].addr].sequence)])
  }

  /** One turn of the loop in `reset`: restart and insert again, or delete. */
  function ResetNext(q: Queue): Queue
    requires q.batch != [] && q.batch[0].addr in q.heap
  {
    var a := q.batch[0].addr;
    var t := q.heap[a];
    var q1 := q.(batch := q.batch[1..]);
    if Repeats(t) && Id(a, t.sequence) !in q.canceling then
      InsertTimer(q1.(heap := q.heap[a := t.(expiration := AddTime(q.now, t.interval))]), a)
    else Delete(q1, a)
  }

  function EndRead(q: Queue): Queue {
    var q1 := q.(phase := Idle);
    if q.timers != [] && q.timers[0].when > 0 then ResetTimerfd(q1, q.timers[0].when) else q1
  }

  datatype Step =
    | Tick(d: nat)
    /** `addTimer` in any thread: the timer exists, its insertion is posted. */
    | Create(a: Addr, when: int, interval: real)
    | Add(a: Addr)
    | Cancel(id: Id)
    | Begin
    | RunCallback
    | CallsDone
    | Reset
    | End

  /** Adding and cancelling happen between events and inside callbacks, never inside `reset`. */
  predicate Enabled(q: Queue, step: Step) {
    match step
    case Tick(_) => true
    case Create(a, _, _) => a !in q.heap
    case Add(a) => a in q.pending && q.phase != Resetting
    case Cancel(_) => q.phase != Resetting
    case Begin => q.phase == Idle
    case RunCallback => q.phase == Calling && q.ran < |q.batch|
    case CallsDone => q.phase == Calling && q.ran == |q.batch|
    case Reset => q.phase == Resetting && q.batch != []
    case End => q.phase == Resetting && q.batch == []
  }

  /** What every object access on the way needs. */
  ghost predicate Live(q: Queue) {
    && q.pending <= q.heap.Keys
    && (forall e | e in q.timers :: e.addr in q.heap)
    && (forall e | e in q.batch :: e.addr in q.heap)
    && (forall id | id in q.active :: id.addr in q.heap)
  }

  function ApplyStep(q: Queue, step: Step): Queue
    requires Live(q) && Enabled(q, step)
  {
    match step
    case Tick(d) => q.(clock := q.clock + d)
    case Create(a, when, interval) => CreateTimer(q, a, when, interval)
    case Add(a) => AddTimerInLoop(q, a)
    case Cancel(id) => CancelInLoop(q, id)
    case Begin => BeginRead(q)
    case RunCallback => RunNext(q)
    case CallsDone => q.(phase := Resetting)
    case Reset => ResetNext(q)
    case End => EndRead(q)
  }

  // ---------------------------------------------------------------- what every step keeps

  predicate Waiting(heap: Heap, active: set<Id>, a: Addr) { a in heap && Id(a, heap[a].sequence) in active }

  predicate InFlight(batch: seq<Entry>, a: Addr) { exists i | 0 <= i < |batch| :: batch[i].addr == a }

  /** The two indices hold exactly the same timers. */
  ghost predicate Indexed(heap: Heap, timers: seq<Entry>, active: set<Id>) {
    && Sorted(timers)
    && (forall e | e in timers :: Waiting(heap, active, e.addr) && heap[e.addr].expiration == e.when)
    && (forall id | id in active ::
          id.addr in heap && heap[id.addr].sequence == id.sequence
          && Entry(heap[id.addr].expiration, id.addr) in timers)
  }

  /** Every timer object is in exactly one place. */
  ghost predicate Partitioned(heap: Heap, pending: set<Addr>, active: set<Id>, batch: seq<Entry>) {
    && pending <= heap.Keys
    && (forall i | 0 <= i < |batch| :: batch[i].addr in heap)
    && (forall i, j | 0 <= i < j < |batch| :: batch[i].addr != batch[j].addr)
    && (forall a | a in heap :: a in pending || Waiting(heap, active, a) || InFlight(batch, a))
    && (forall a | a in pending :: !Waiting(heap, active, a) && !InFlight(batch, a))
    && (forall i | 0 <= i < |batch| :: !Waiting(heap, active, batch[i].addr))
  }

  ghost predicate Lives(heap: Heap, s: Seq) { exists a :: a in heap && heap[a].sequence == s }

  /** Every number given out belongs to one live timer or was deleted, once. */
  ghost predicate Numbered(heap: Heap, created: nat, freed: seq<Seq>) {
    && (forall a | a in heap :: 1 <= heap[a].sequence <= created && heap[a].sequence !in freed)
    && (forall a, b | a in heap && b in heap && a != b :: heap[a].sequence != heap[b].sequence)
    && (forall s | s in freed :: 1 <= s <= created)
    && (forall i, j | 0 <= i < j < |freed| :: freed[i] != freed[j])
    && (forall s | 1 <= s <= created :: s in freed || Lives(heap, s))
  }

  /** A cancelled timer that still lives is in flight, and marked. */
  ghost predicate Marked(heap: Heap, batch: seq<Entry>, canceling: set<Id>, cancelledIn: map<Seq, nat>, batchNo: nat) {
    forall a | a in heap && heap[a].sequence in cancelledIn ::
      InFlight(batch, a) && Id(a, heap[a].sequence) in canceling && cancelledIn[heap[a].sequence] == batchNo
  }

  /** No timer ran in a batch later than the one it was cancelled in. */
  ghost predicate NoneAfterCancel(fired: seq<Fired>, cancelledIn: map<Seq, nat>, batchNo: nat, created: nat) {
    && (forall s | s in cancelledIn :: s <= created && cancelledIn[s] <= batchNo)
    && (forall f | f in fired ::
          f.batchNo <= batchNo && f.sequence <= created
          && (f.sequence in cancelledIn ==> f.batchNo <= cancelledIn[f.sequence]))
  }

  function Max(a: int, b: int): int { if a > b then a else b }

  predicate ArmedFor(fd: TimerFd, clock: int, when: int) {
    fd.Armed? && fd.setAt <= clock && fd.deadline <= Max(when, fd.setAt + 100)
  }

  /**
    Outside `handleRead`, the timerfd goes off in time for the earliest timer. Inside it, that holds
    already if the earliest timer has a time that `reset` takes for invalid.
   */
  predicate InTime(fd: TimerFd, clock: int, timers: seq<Entry>, phase: Phase) {
    timers != [] && (phase == Idle || timers[0].when <= 0) ==> ArmedFor(fd, clock, timers[0].when)
  }

  /** The numbers run in batch b, in order. */
  function RunIn(fired: seq<Fired>, b: nat): seq<Seq> {
    if fired == [] then [] else
    var last := fired[|fired| - 1];
    RunIn(fired[..|fired| - 1], b) + if last.batchNo == b then [last.sequence] else []
  }

  /** The numbers ns are those of the first |ns| timers of the batch. */
  ghost predicate AreFirst(heap: Heap, batch: seq<Entry>, ns: seq<Seq>) {
    |ns| <= |batch| && forall i | 0 <= i < |ns| :: batch[i].addr in heap && ns[i] == heap[batch[i].addr].sequence
  }

  /** While the batch is called, exactly its first timers have run in it, once each and in order. */
  ghost predicate RunsOnce(q: Queue) {
    && (q.phase == Idle ==> q.batch == [])
    && (q.phase == Calling ==>
          AreFirst(q.heap, q.batch, RunIn(q.fired, q.batchNo)) && |RunIn(q.fired, q.batchNo)| == q.ran)
  }

  ghost predicate Inv(q: Queue) {
    && 0 < q.clock
    && (q.phase != Idle ==> 0 < q.now <= q.clock)
    && Indexed(q.heap, q.timers, q.active)
    && Partitioned(q.heap, q.pending, q.active, q.batch)
    && Numbered(q.heap, q.created, q.freed)
    && Marked(q.heap, q.batch, q.canceling, q.cancelledIn, q.batchNo)
    && NoneAfterCancel(q.fired, q.cancelledIn, q.batchNo, q.created)
    && InTime(q.fd, q.clock, q.timers, q.phase)
    && RunsOnce(q)
  }

  lemma InvLive(q: Queue)
    requires Inv(q)
    ensures Live(q)
  {
    hide Numbered, Marked, NoneAfterCancel, InTime, RunsOnce;
  }

  // ---------------------------------------------------------------- creating

  lemma IndexedCreate(heap: Heap, timers: seq<Entry>, active: set<Id>, a: Addr, t: Timer)
    requires Indexed(heap, timers, active) && a !in heap
    ensures Indexed(heap[a := t], timers, active)
  {
  }

  lemma PartitionedCreate(heap: Heap, pending: set<Addr>, active: set<Id>, batch: seq<Entry>, a: Addr, t: Timer)
    requires Partitioned(heap, pending, active, batch) && a !in heap && Id(a, t.sequence) !in active
    ensures Partitioned(heap[a := t], pending + {a}, active, batch)
  {
    var h := heap[a := t];
    assert forall b | b in heap :: Waiting(h, active, b) == Waiting(heap, active, b);
    assert !Waiting(h, active, a) && !InFlight(batch, a);
  }

  lemma NumberedCreate(heap: Heap, created: nat, freed: seq<Seq>, a: Addr, t: Timer)
    requires Numbered(heap, created, freed) && a !in heap && t.sequence == created + 1
    ensures Numbered(heap[a := t], created + 1, freed)
  {
    var h := heap[a := t];
    assert h[a].sequence == created + 1;
    forall s | 1 <= s <= created && s !in freed ensures Lives(h, s) {
      var b :| b in heap && heap[b].sequence == s;
      assert b in h && h[b].sequence == s;
    }
  }

  lemma CreateKeepsInv(q: Queue, a: Addr, when: int, interval: real)
    requires Inv(q) && a !in q.heap
    ensures Inv(CreateTimer(q, a, when, interval))
  {
    hide Indexed, Partitioned, Numbered, NoneAfterCancel, InTime;
    var t := Timer(when, interval, q.created + 1);
    assert Id(a, t.sequence) !in q.active && !InFlight(q.batch, a) && t.sequence !in q.cancelledIn by {
      FreshAddress(q, a, t.sequence);
    }
    IndexedCreate(q.heap, q.timers, q.active, a, t);
    PartitionedCreate(q.heap, q.pending, q.active, q.batch, a, t);
    NumberedCreate(q.heap, q.created, q.freed, a, t);
    assert NoneAfterCancel(q.fired, q.cancelledIn, q.batchNo, q.created + 1) by { MoreCreated(q); }
  }

  lemma FreshAddress(q: Queue, a: Addr, s: Seq)
    requires Inv(q) && a !in q.heap && s == q.created + 1
    ensures Id(a, s) !in q.active && !InFlight(q.batch, a) && s !in q.cancelledIn
  {
    hide Numbered, Marked, InTime, RunsOnce;
  }

  lemma MoreCreated(q: Queue)
    requires NoneAfterCancel(q.fired, q.cancelledIn, q.batchNo, q.created)
    ensures NoneAfterCancel(q.fired, q.cancelledIn, q.batchNo, q.created + 1)
  {
  }

  // ---------------------------------------------------------------- adding

  lemma IndexedInsert(heap: Heap, timers: seq<Entry>, active: set<Id>, a: Addr)
    requires Indexed(heap, timers, active) && a in heap && !Waiting(heap, active, a)
    ensures Indexed(heap, Insert(timers, Entry(heap[a].expiration, a)), active + {Id(a, heap[a].sequence)})
  {
    var e := Entry(heap[a].expiration, a);
    forall x ensures x in Insert(timers, e) <==> x == e || x in timers { InsertHas(timers, e, x); }
    InsertSorted(timers, e);
  }

  lemma PartitionedAdd(heap: Heap, pending: set<Addr>, active: set<Id>, batch: seq<Entry>, a: Addr)
    requires Partitioned(heap, pending, active, batch) && a in pending
    ensures Partitioned(heap, pending - {a}, active + {Id(a, heap[a].sequence)}, batch)
  {
    var act := active + {Id(a, heap[a].sequence)};
    assert forall b | b in heap && b != a :: Waiting(heap, act, b) == Waiting(heap, active, b);
    assert !InFlight(batch, a) && Waiting(heap, act, a);
  }

  /** The timerfd is set for the time given, or for 100 microseconds from now. */
  lemma Rearm(q: Queue, when: int)
    ensures ResetTimerfd(q, when).fd == Armed(Max(when, q.clock + 100), q.clock)
    ensures ArmedFor(ResetTimerfd(q, when).fd, q.clock, when)
  {
    TimespecOfWait(when, q.clock);
  }

  lemma InTimeInsert(q: Queue, e: Entry)
    requires InTime(q.fd, q.clock, q.timers, q.phase)
    ensures EarliestChanged(q, e.when) ==>
              InTime(ResetTimerfd(q, e.when).fd, q.clock, Insert(q.timers, e), q.phase)
    ensures !EarliestChanged(q, e.when) ==> InTime(q.fd, q.clock, Insert(q.timers, e), q.phase)
  {
    hide ResetTimerfd;
    InsertFirst(q.timers, e);
    Rearm(q, e.when);
  }

  lemma AddKeepsInv(q: Queue, a: Addr)
    requires Inv(q) && a in q.pending && a in q.heap
    ensures Inv(AddTimerInLoop(q, a))
    ensures var when := q.heap[a].expiration;
            AddTimerInLoop(q, a).fd == if q.timers == [] || when < q.timers[0].when
                                       then Armed(Max(when, q.clock + 100), q.clock) else q.fd
  {
    hide Indexed, Partitioned, Numbered, NoneAfterCancel, InTime, Marked, Micros;
    Rearm(q, q.heap[a].expiration);
    assert !Waiting(q.heap, q.active, a) by { PendingIsNotWaiting(q, a); }
    IndexedInsert(q.heap, q.timers, q.active, a);
    PartitionedAdd(q.heap, q.pending, q.active, q.batch, a);
    InTimeInsert(q, Entry(q.heap[a].expiration, a));
  }

  lemma PendingIsNotWaiting(q: Queue, a: Addr)
    requires Partitioned(q.heap, q.pending, q.active, q.batch) && a in q.pending
    ensures !Waiting(q.heap, q.active, a)
  {
  }

  // ---------------------------------------------------------------- cancelling

  lemma IndexedErase(heap: Heap, timers: seq<Entry>, active: set<Id>, id: Id)
    requires Indexed(heap, timers, active) && id in active
    ensures Indexed(heap - {id.addr}, Erase(timers, Entry(heap[id.addr].expiration, id.addr)), active - {id})
  {
    var e := Entry(heap[id.addr].expiration, id.addr);
    forall x ensures x in Erase(timers, e) <==> x in timers && x != e { EraseHas(timers, e, x); }
    EraseSorted(timers, e);
  }

  lemma PartitionedErase(heap: Heap, pending: set<Addr>, active: set<Id>, batch: seq<Entry>, id: Id)
    requires Partitioned(heap, pending, active, batch)
    requires id in active && id.addr in heap && heap[id.addr].sequence == id.sequence
    ensures Partitioned(heap - {id.addr}, pending, active - {id}, batch)
  {
    var h, act := heap - {id.addr}, active - {id};
    assert Waiting(heap, active, id.addr);
    assert forall b | b in h :: Waiting(h, act, b) == Waiting(heap, active, b);
  }

  lemma NumberedDelete(heap: Heap, created: nat, freed: seq<Seq>, a: Addr)
    requires Numbered(heap, created, freed) && a in heap
    ensures Numbered(heap - {a}, created, freed + [heap[a].sequence])
  {
    var h := heap - {a};
    forall s | 1 <= s <= created && s !in freed && s != heap[a].sequence ensures Lives(h, s) {
      var b :| b in heap && heap[b].sequence == s;
      assert b in h && h[b].sequence == s;
    }
  }

  /** A timer to be cancelled is in the indices, in flight, or gone. */
  lemma AddedPlaces(q: Queue, id: Id)
    requires Inv(q) && WasAdded(q, id)
    ensures id.sequence <= q.created
    ensures id in q.active ==> id.addr in q.heap && q.heap[id.addr].sequence == id.sequence
    ensures id !in q.active && id.addr in q.heap && q.heap[id.addr].sequence == id.sequence ==>
              InFlight(q.batch, id.addr) && q.phase != Idle
  {
    hide Marked, NoneAfterCancel, InTime;
  }

  /** An id in the indices names a live timer with its own number. */
  lemma ActiveIsAdded(q: Queue, id: Id)
    requires Inv(q) && id in q.active
    ensures id.addr in q.heap && q.heap[id.addr].sequence == id.sequence && WasAdded(q, id)
    ensures id.sequence !in q.cancelledIn
  {
    hide Numbered, NoneAfterCancel, InTime, RunsOnce;
    assert Waiting(q.heap, q.active, id.addr);
  }

  lemma NoneAfterNow(fired: seq<Fired>, cancelledIn: map<Seq, nat>, batchNo: nat, created: nat, s: Seq)
    requires NoneAfterCancel(fired, cancelledIn, batchNo, created) && s <= created
    ensures NoneAfterCancel(fired, cancelledIn[s := batchNo], batchNo, created)
  {
  }

  lemma MarkedDelete(heap: Heap, batch: seq<Entry>, canceling: set<Id>, cancelledIn: map<Seq, nat>, batchNo: nat,
                     created: nat, freed: seq<Seq>, a: Addr)
    requires Marked(heap, batch, canceling, cancelledIn, batchNo) && Numbered(heap, created, freed) && a in heap
    ensures Marked(heap - {a}, batch, canceling, cancelledIn[heap[a].sequence := batchNo], batchNo)
  {
  }

  lemma InTimeErase(q: Queue, e: Entry)
    requires InTime(q.fd, q.clock, q.timers, q.phase) && Sorted(q.timers)
    ensures InTime(q.fd, q.clock, Erase(q.timers, e), q.phase)
  {
    EraseSorted(q.timers, e);
  }

  lemma RunsOnceDelete(q: Queue, q1: Queue, a: Addr)
    requires RunsOnce(q) && !InFlight(q.batch, a) && q1.heap == q.heap - {a}
    requires q1.batch == q.batch && q1.fired == q.fired && q1.batchNo == q.batchNo && q1.ran == q.ran
    requires q1.phase == q.phase
    ensures RunsOnce(q1)
  {
  }

  lemma CancelActiveKeepsInv(q: Queue, id: Id)
    requires Inv(q) && id in q.active && id.addr in q.heap
    ensures Inv(CancelInLoop(q, id))
  {
    hide Indexed, Partitioned, Numbered, NoneAfterCancel, InTime, Marked, RunsOnce, WasAdded;
    ActiveIsAdded(q, id);
    IndexedErase(q.heap, q.timers, q.active, id);
    PartitionedErase(q.heap, q.pending, q.active, q.batch, id);
    NumberedDelete(q.heap, q.created, q.freed, id.addr);
    MarkedDelete(q.heap, q.batch, q.canceling, q.cancelledIn, q.batchNo, q.created, q.freed, id.addr);
    AddedPlaces(q, id);
    NoneAfterNow(q.fired, q.cancelledIn, q.batchNo, q.created, id.sequence);
    InTimeErase(q, Entry(q.heap[id.addr].expiration, id.addr)) by { assert Sorted(q.timers) by { IndexedSorted(q); } }
    assert !InFlight(q.batch, id.addr) by { WaitingIsNotInFlight(q, id.addr); }
    RunsOnceDelete(q, CancelInLoop(q, id), id.addr);
  }

  lemma IndexedSorted(q: Queue)
    requires Indexed(q.heap, q.timers, q.active)
    ensures Sorted(q.timers)
  {
  }

  lemma WaitingIsNotInFlight(q: Queue, a: Addr)
    requires Partitioned(q.heap, q.pending, q.active, q.batch) && Waiting(q.heap, q.active, a)
    ensures !InFlight(q.batch, a) && a !in q.pending
  {
  }

  lemma MarkedCancel(q: Queue, id: Id)
    requires Inv(q) && id !in q.active && WasAdded(q, id) && q.phase != Resetting
    ensures Marked(q.heap, q.batch, if q.phase == Calling then q.canceling + {id} else q.canceling,
                   q.cancelledIn[id.sequence := q.batchNo], q.batchNo)
  {
    hide Indexed, Partitioned, NoneAfterCancel, InTime, RunsOnce;
    AddedPlaces(q, id);
  }

  lemma CancelOtherKeepsInv(q: Queue, id: Id)
    requires Inv(q) && id !in q.active && q.phase != Resetting
    ensures Inv(CancelInLoop(q, id))
  {
    hide Indexed, Partitioned, Numbered, NoneAfterCancel, InTime, WasAdded;
    if WasAdded(q, id) && id.sequence !in q.cancelledIn {
      AddedPlaces(q, id);
      MarkedCancel(q, id);
      NoneAfterNow(q.fired, q.cancelledIn, q.batchNo, q.created, id.sequence);
    }
  }

  // ---------------------------------------------------------------- taking the expired timers

  lemma IndexedTake(heap: Heap, timers: seq<Entry>, active: set<Id>, now: int, gone: set<Id>)
    requires Indexed(heap, timers, active)
    requires forall id :: id in gone <==>
               id.addr in heap && heap[id.addr].sequence == id.sequence
               && Entry(heap[id.addr].expiration, id.addr) in timers[..ExpiredCount(timers, now)]
    ensures Indexed(heap, timers[ExpiredCount(timers, now)..], active - gone)
  {
    var k := ExpiredCount(timers, now);
    var rest := timers[k..];
    assert timers == timers[..k] + rest;
    RestSorted(timers, k);
    forall e | e in rest ensures Waiting(heap, active - gone, e.addr) && heap[e.addr].expiration == e.when {
      assert e in timers;
      NotTwice(timers, k, e);
    }
  }

  lemma RestSorted(timers: seq<Entry>, k: nat)
    requires Sorted(timers) && k <= |timers|
    ensures Sorted(timers[k..])
  {
    forall i, j | 0 <= i < j < |timers| - k ensures Less(timers[k..][i], timers[k..][j]) {
      assert Less(timers[k + i], timers[k + j]);
    }
  }

  lemma NotTwice(timers: seq<Entry>, k: nat, e: Entry)
    requires Sorted(timers) && k <= |timers| && e in timers[k..]
    ensures e !in timers[..k]
  {
    var j :| k <= j < |timers| && timers[j] == e;
    assert forall i | 0 <= i < k :: Less(timers[i], timers[j]);
  }

  lemma GoneIds(q: Queue, k: nat)
    requires Indexed(q.heap, q.timers, q.active) && k <= |q.timers|
    ensures forall e | e in q.timers[..k] :: e.addr in q.heap
    ensures forall id :: id in IdsOf(q.heap, q.timers[..k]) <==>
               id.addr in q.heap && q.heap[id.addr].sequence == id.sequence
               && Entry(q.heap[id.addr].expiration, id.addr) in q.timers[..k]
  {
    assert forall e | e in q.timers[..k] :: e in q.timers;
  }

  lemma PartitionedTake(q: Queue, k: nat)
    requires Indexed(q.heap, q.timers, q.active) && k <= |q.timers|
    requires Partitioned(q.heap, q.pending, q.active, []) && forall e | e in q.timers[..k] :: e.addr in q.heap
    ensures Partitioned(q.heap, q.pending, q.active - IdsOf(q.heap, q.timers[..k]), q.timers[..k])
  {
    GoneIds(q, k);
    var batch := q.timers[..k];
    var act := q.active - IdsOf(q.heap, batch);
    forall i, j | 0 <= i < j < k ensures batch[i].addr != batch[j].addr {
      assert Less(batch[i], batch[j]) && batch[i] in q.timers && batch[j] in q.timers;
    }
    forall a | a in q.heap ensures InFlight(batch, a) <==> Waiting(q.heap, q.active, a) && !Waiting(q.heap, act, a) {
      if InFlight(batch, a) {
        var i :| 0 <= i < k && batch[i].addr == a;
        assert batch[i] in batch && batch[i] in q.timers;
      }
    }
  }

  lemma RunInNone(fired: seq<Fired>, b: nat)
    requires forall f | f in fired :: f.batchNo < b
    ensures RunIn(fired, b) == []
  {
  }

  lemma NothingRunYet(q: Queue)
    requires Inv(q)
    ensures RunIn(q.fired, q.batchNo + 1) == []
    ensures NoneAfterCancel(q.fired, q.cancelledIn, q.batchNo + 1, q.created)
  {
    hide Indexed, Partitioned, Numbered, InTime, Marked, RunsOnce;
    RunInNone(q.fired, q.batchNo + 1);
  }

  /** Outside `handleRead`, no cancelled timer lives. */
  lemma NoneMarked(q: Queue, batch: seq<Entry>)
    requires Inv(q) && q.phase == Idle
    ensures Marked(q.heap, batch, {}, q.cancelledIn, q.batchNo + 1)
  {
    hide Indexed, Partitioned, Numbered, InTime, NoneAfterCancel;
  }

  lemma InTimeTake(q: Queue)
    requires Indexed(q.heap, q.timers, q.active) && q.clock > 0
    ensures InTime(Disarmed, q.clock, q.timers[ExpiredCount(q.timers, q.clock)..], Calling)
    ensures InTime(q.fd, q.clock, q.timers[ExpiredCount(q.timers, q.clock)..], Calling)
  {
    var k := ExpiredCount(q.timers, q.clock);
    if k < |q.timers| { ExpiredPrefix(q.timers, q.clock, k); }
  }

  lemma BeginKeepsInv(q: Queue)
    requires Inv(q) && q.phase == Idle && forall e | e in q.timers :: e.addr in q.heap
    ensures Inv(BeginRead(q))
  {
    hide Indexed, Partitioned, Numbered, NoneAfterCancel, InTime, Marked, IdsOf, RunIn;
    var k := ExpiredCount(q.timers, q.clock);
    GoneIds(q, k);
    IndexedTake(q.heap, q.timers, q.active, q.clock, IdsOf(q.heap, q.timers[..k]));
    PartitionedTake(q, k);
    NothingRunYet(q);
    NoneMarked(q, q.timers[..k]);
    InTimeTake(q);
  }

  // ---------------------------------------------------------------- running the batch

  lemma RunInNext(fired: seq<Fired>, f: Fired)
    ensures RunIn(fired + [f], f.batchNo) == RunIn(fired, f.batchNo) + [f.sequence]
  {
    assert (fired + [f])[..|fired|] == fired;
  }

  lemma NoneAfterRun(q: Queue, f: Fired)
    requires Inv(q) && q.phase == Calling && q.ran < |q.batch| && q.batch[q.ran].addr in q.heap
    requires f == Fired(q.batchNo, q.heap[q.batch[q.ran].addr].sequence)
    ensures NoneAfterCancel(q.fired + [f], q.cancelledIn, q.batchNo, q.created)
  {
    hide Indexed, Partitioned, InTime, RunsOnce;
  }

  lemma RunKeeps(q: Queue)
    requires Inv(q) && q.phase == Calling && q.ran < |q.batch| && q.batch[q.ran].addr in q.heap
    ensures Inv(RunNext(q))
  {
    hide Indexed, Partitioned, Numbered, NoneAfterCancel, InTime, Marked, RunIn;
    var f := Fired(q.batchNo, q.heap[q.batch[q.ran].addr].sequence);
    NoneAfterRun(q, f);
    RunInNext(q.fired, f);
  }

  // ---------------------------------------------------------------- resetting

  lemma IndexedElsewhere(heap: Heap, timers: seq<Entry>, active: set<Id>, a: Addr, h: Heap)
    requires Indexed(heap, timers, active) && a in heap && !Waiting(heap, active, a)
    requires forall b | b in heap && b != a :: b in h && h[b] == heap[b]
    ensures Indexed(h, timers, active)
  {
    assert forall id | id in active :: id.addr != a;
    assert forall e | e in timers :: e.addr != a;
  }

  lemma FirstOut(batch: seq<Entry>)
    requires batch != [] && forall i, j | 0 <= i < j < |batch| :: batch[i].addr != batch[j].addr
    ensures InFlight(batch, batch[0].addr) && !InFlight(batch[1..], batch[0].addr)
    ensures forall b | b != batch[0].addr :: InFlight(batch[1..], b) <==> InFlight(batch, b)
  {
    forall b | b != batch[0].addr && InFlight(batch, b) ensures InFlight(batch[1..], b) {
      var i :| 0 <= i < |batch| && batch[i].addr == b;
      assert batch[1..][i - 1].addr == b;
    }
  }

  lemma PartitionedDrop(heap: Heap, pending: set<Addr>, active: set<Id>, batch: seq<Entry>)
    requires Partitioned(heap, pending, active, batch) && batch != []
    ensures Partitioned(heap - {batch[0].addr}, pending, active, batch[1..])
  {
    var a := batch[0].addr;
    FirstOut(batch);
    assert forall b | b in heap && b != a :: Waiting(heap - {a}, active, b) == Waiting(heap, active, b);
  }

  lemma PartitionedRestart(heap: Heap, pending: set<Addr>, active: set<Id>, batch: seq<Entry>, when: int)
    requires Partitioned(heap, pending, active, batch) && batch != []
    ensures var a := batch[0].addr;
            var h := heap[a := heap[a].(expiration := when)];
            Partitioned(h, pending, active + {Id(a, heap[a].sequence)}, batch[1..])
  {
    var a := batch[0].addr;
    FirstOut(batch);
    var h, act := heap[a := heap[a].(expiration := when)], active + {Id(a, heap[a].sequence)};
    assert forall b | b in heap && b != a :: Waiting(h, act, b) == Waiting(heap, active, b);
  }

  lemma NumberedRestart(heap: Heap, created: nat, freed: seq<Seq>, a: Addr, when: int)
    requires Numbered(heap, created, freed) && a in heap
    ensures Numbered(heap[a := heap[a].(expiration := when)], created, freed)
  {
    var h := heap[a := heap[a].(expiration := when)];
    forall s | Lives(heap, s) ensures Lives(h, s) {
      var b :| b in heap && heap[b].sequence == s;
      assert b in h && h[b].sequence == s;
    }
  }

  /** What `reset` does to a timer it takes up next: nothing cancelled is put back. */
  lemma MarkedReset(q: Queue, h: Heap)
    requires Inv(q) && q.batch != [] && q.batch[0].addr in q.heap
    requires var a := q.batch[0].addr;
             || h == q.heap - {a}
             || (Id(a, q.heap[a].sequence) !in q.canceling && a in h && h[a].sequence == q.heap[a].sequence
                 && h == q.heap[a := h[a]])
    ensures Marked(h, q.batch[1..], q.canceling, q.cancelledIn, q.batchNo)
  {
    hide Indexed, Numbered, InTime, NoneAfterCancel, RunsOnce;
    FirstOut(q.batch);
  }

  lemma FirstIsNotWaiting(q: Queue)
    requires Partitioned(q.heap, q.pending, q.active, q.batch) && q.batch != []
    ensures q.batch[0].addr in q.heap && !Waiting(q.heap, q.active, q.batch[0].addr)
  {
  }

  lemma InTimeRestart(q: Queue, e: Entry)
    requires InTime(q.fd, q.clock, q.timers, q.phase) && q.phase == Resetting && e.when > 0
    ensures InTime(q.fd, q.clock, Insert(q.timers, e), q.phase)
  {
    InsertFirst(q.timers, e);
  }

  lemma ResetDeleteKeepsInv(q: Queue)
    requires Inv(q) && q.phase == Resetting && q.batch != []
    ensures Inv(Delete(q.(batch := q.batch[1..]), q.batch[0].addr))
  {
    hide Indexed, Partitioned, Numbered, NoneAfterCancel, InTime, Marked, Waiting;
    FirstIsNotWaiting(q);
    var a := q.batch[0].addr;
    IndexedElsewhere(q.heap, q.timers, q.active, a, q.heap - {a});
    PartitionedDrop(q.heap, q.pending, q.active, q.batch);
    NumberedDelete(q.heap, q.created, q.freed, a);
    MarkedReset(q, q.heap - {a});
  }

  lemma ResetRestartKeepsInv(q: Queue, when: int)
    requires Inv(q) && q.phase == Resetting && q.batch != [] && q.batch[0].addr in q.heap && when > 0
    requires Id(q.batch[0].addr, q.heap[q.batch[0].addr].sequence) !in q.canceling
    ensures var a := q.batch[0].addr;
            Inv(InsertTimer(q.(batch := q.batch[1..], heap := q.heap[a := q.heap[a].(expiration := when)]), a))
  {
    hide Indexed, Partitioned, Numbered, NoneAfterCancel, InTime, Marked;
    FirstIsNotWaiting(q);
    var a := q.batch[0].addr;
    var h := q.heap[a := q.heap[a].(expiration := when)];
    IndexedElsewhere(q.heap, q.timers, q.active, a, h);
    IndexedInsert(h, q.timers, q.active, a);
    PartitionedRestart(q.heap, q.pending, q.active, q.batch, when);
    NumberedRestart(q.heap, q.created, q.freed, a, when);
    MarkedReset(q, h);
    InTimeRestart(q, Entry(when, a));
  }

  /** So many whole microseconds after `now` as there are in the interval. */
  predicate IntervalAfter(when: int, now: int, seconds: real) {
    (when - now) as real <= seconds * 1000000.0 < (when - now + 1) as real
  }

  lemma RestartIsLater(now: int, interval: real)
    requires interval > 0.0
    ensures IntervalAfter(AddTime(now, interval), now, interval) && AddTime(now, interval) >= now
  {
  }

  /** A timer that `reset` has been through: put back for the given time, or deleted. */
  ghost predicate Settled(q: Queue, id: Id, t: Timer, now: int, back: bool) {
    if back then
      && Waiting(q.heap, q.active, id.addr)
      && q.heap[id.addr] == t.(expiration := q.heap[id.addr].expiration)
      && IntervalAfter(q.heap[id.addr].expiration, now, t.interval)
    else id.sequence in q.freed
  }

  /** One turn puts a repeating timer back, for the time of the batch plus its interval, or deletes the timer. */
  lemma ResetKeepsInv(q: Queue)
    requires Inv(q) && q.phase == Resetting && q.batch != [] && q.batch[0].addr in q.heap
    ensures var t := q.heap[q.batch[0].addr];
            var id := Id(q.batch[0].addr, t.sequence);
            Inv(ResetNext(q)) && Settled(ResetNext(q), id, t, q.now, t.interval > 0.0 && id !in q.canceling)
  {
    hide Indexed, Partitioned, Numbered, NoneAfterCancel, InTime, Marked, RunsOnce, AddTime, Insert, IntervalAfter;
    var t := q.heap[q.batch[0].addr];
    if Repeats(t) && Id(q.batch[0].addr, t.sequence) !in q.canceling {
      RestartIsLater(q.now, t.interval);
      ResetRestartKeepsInv(q, AddTime(q.now, t.interval));
    } else {
      ResetDeleteKeepsInv(q);
    }
  }

  lemma EndKeepsInv(q: Queue)
    requires Inv(q) && q.phase == Resetting && q.batch == []
    ensures Inv(EndRead(q))
    ensures EndRead(q).fd == if q.timers != [] && q.timers[0].when > 0
                             then Armed(Max(q.timers[0].when, q.clock + 100), q.clock) else q.fd
  {
    hide Indexed, Partitioned, Numbered, NoneAfterCancel, Marked, RunIn, HowMuchTimeFromNow, Micros;
    if q.timers != [] { Rearm(q, q.timers[0].when); }
  }

  // ---------------------------------------------------------------- every run

  lemma StepKeepsInv(q: Queue, step: Step)
    requires Inv(q) && Live(q) && Enabled(q, step)
    ensures Inv(ApplyStep(q, step))
  {
    hide Indexed, Partitioned, Numbered, NoneAfterCancel, Marked, RunIn, AddTimerInLoop, CancelInLoop, CreateTimer,
      BeginRead, RunNext, ResetNext, EndRead, InFlight;
    match step
    case Tick(_) =>
    case Create(a, when, interval) => CreateKeepsInv(q, a, when, interval);
    case Add(a) => AddKeepsInv(q, a);
    case Cancel(id) => if id in q.active { CancelActiveKeepsInv(q, id); } else { CancelOtherKeepsInv(q, id); }
    case Begin => BeginKeepsInv(q);
    case RunCallback => RunKeeps(q);
    case CallsDone =>
    case Reset => ResetKeepsInv(q);
    case End => EndKeepsInv(q);
  }

  function Start(clock: int): Queue {
    Queue(clock, 0, map[], {}, [], {}, {}, Idle, [], 0, 0, Disarmed, [], 0, [], map[])
  }

  ghost predicate Runs(q: Queue, steps: seq<Step>)
    decreases |steps|
  {
    steps == [] || (Live(q) && Enabled(q, steps[0]) && Runs(ApplyStep(q, steps[0]), steps[1..]))
  }

  ghost function Exec(q: Queue, steps: seq<Step>): Queue
    requires Runs(q, steps)
    decreases |steps|
  {
    if steps == [] then q else Exec(ApplyStep(q, steps[0]), steps[1..])
  }

  lemma {:induction false} RunKeepsInv(q: Queue, steps: seq<Step>)
    requires Inv(q) && Runs(q, steps)
    ensures Inv(Exec(q, steps))
    decreases |steps|
  {
    hide Inv, ApplyStep, Enabled, Live;
    if steps != [] {
      StepKeepsInv(q, steps[0]);
      RunKeepsInv(ApplyStep(q, steps[0]), steps[1..]);
    }
  }

  lemma StartInv(clock: int)
    requires clock > 0
    ensures Inv(Start(clock))
  {
  }

  /** A state that some run from an empty queue leads to. */
  ghost predicate Reachable(q: Queue) {
    exists clock, steps :: clock > 0 && Runs(Start(clock), steps) && q == Exec(Start(clock), steps)
  }

  lemma ReachableInv(q: Queue)
    requires Reachable(q)
    ensures Inv(q)
  {
    hide Inv, ApplyStep, Enabled, Live, Exec, Runs;
    var clock, steps :| clock > 0 && Runs(Start(clock), steps) && q == Exec(Start(clock), steps);
    StartInv(clock);
    RunKeepsInv(Start(clock), steps);
  }

  /** No step meets a deleted timer: every address held anywhere is that of a live one. */
  lemma NoDanglingPointer(q: Queue)
    requires Reachable(q)
    ensures Live(q)
  {
    hide Reachable;
    ReachableInv(q);
    InvLive(q);
  }

  /** Every timer is pending, waiting or in flight, and in one of these only. */
  lemma ExactlyOnePlace(q: Queue, a: Addr)
    requires Reachable(q) && a in q.heap
    ensures a in q.pending || Waiting(q.heap, q.active, a) || InFlight(q.batch, a)
    ensures !(a in q.pending && Waiting(q.heap, q.active, a))
    ensures !(a in q.pending && InFlight(q.batch, a))
    ensures !(Waiting(q.heap, q.active, a) && InFlight(q.batch, a))
    ensures Waiting(q.heap, q.active, a) <==> Entry(q.heap[a].expiration, a) in q.timers
  {
    hide Reachable, Numbered, Marked, NoneAfterCancel, InTime, RunsOnce;
    ReachableInv(q);
  }

  /** Numbers are conserved: each one given out is alive, or was deleted exactly once, never both. */
  lemma DeletedOnce(q: Queue, s: Seq)
    requires Reachable(q) && 1 <= s <= q.created
    ensures Lives(q.heap, s) <==> s !in q.freed
    ensures forall i, j | 0 <= i < j < |q.freed| :: q.freed[i] != q.freed[j]
  {
    hide Reachable, Indexed, Partitioned, Marked, NoneAfterCancel, InTime, RunsOnce;
    ReachableInv(q);
  }

  lemma {:induction false} IdsOfSize(heap: Heap, es: seq<Entry>)
    requires forall e | e in es :: e.addr in heap
    requires forall i, j | 0 <= i < j < |es| :: es[i].addr != es[j].addr
    ensures |IdsOf(heap, es)| == |es|
  {
    if es != [] {
      var rest := es[1..];
      IdsOfSize(heap, rest);
      var id := Id(es[0].addr, heap[es[0].addr].sequence);
      assert es == [es[0]] + rest;
      assert IdsOf(heap, es) == {id} + IdsOf(heap, rest);
      assert id !in IdsOf(heap, rest);
    }
  }

  /** The size assertion at the start and the end of every operation. */
  lemma SameSize(q: Queue)
    requires Indexed(q.heap, q.timers, q.active)
    ensures |q.timers| == |q.active|
  {
    GoneIds(q, |q.timers|);
    assert q.timers[..|q.timers|] == q.timers;
    assert IdsOf(q.heap, q.timers) == q.active;
    forall i, j | 0 <= i < j < |q.timers| ensures q.timers[i].addr != q.timers[j].addr {
      assert Less(q.timers[i], q.timers[j]) && q.timers[i] in q.timers && q.timers[j] in q.timers;
    }
    IdsOfSize(q.heap, q.timers);
  }

  /** The remaining assertions of the source: nothing is inserted twice, everything erased was there. */
  lemma AssertionsHold(q: Queue)
    requires Reachable(q)
    ensures |q.timers| == |q.active|
    ensures forall a | a in q.pending :: a in q.heap && Id(a, q.heap[a].sequence) !in q.active
                                         && Entry(q.heap[a].expiration, a) !in q.timers
    ensures forall i, when | 0 <= i < |q.batch| ::
              q.batch[i].addr in q.heap && Id(q.batch[i].addr, q.heap[q.batch[i].addr].sequence) !in q.active
              && Entry(when, q.batch[i].addr) !in q.timers
    ensures forall id | id in q.active :: id.addr in q.heap && Entry(q.heap[id.addr].expiration, id.addr) in q.timers
    ensures forall e | e in q.timers :: e.addr in q.heap && Id(e.addr, q.heap[e.addr].sequence) in q.active
  {
    hide Reachable, Numbered, Marked, NoneAfterCancel, InTime, RunsOnce;
    ReachableInv(q);
    SameSize(q);
  }

  /** The batch is exactly the timers that are due, in order of expiration; the others stay. */
  lemma BatchIsTheDue(q: Queue)
    requires Reachable(q) && q.phase == Idle
    ensures Live(q)
    ensures var q1 := BeginRead(q);
            && q1.batch + q1.timers == q.timers
            && Sorted(q1.batch)
            && (forall e | e in q1.batch :: e.when <= q.clock)
            && (forall e | e in q1.timers :: e.when > q.clock)
            && (forall a | Waiting(q.heap, q.active, a) :: InFlight(q1.batch, a) <==> q.heap[a].expiration <= q.clock)
  {
    hide Reachable, Indexed, Partitioned, Numbered, Marked, NoneAfterCancel, InTime, RunsOnce, IdsOf, Live,
      ExpiredCount, InFlight;
    NoDanglingPointer(q);
    ReachableInv(q);
    IndexedSorted(q);
    DueArePrefix(q.timers, q.clock);
    forall a | Waiting(q.heap, q.active, a)
      ensures InFlight(q.timers[..ExpiredCount(q.timers, q.clock)], a) <==> q.heap[a].expiration <= q.clock
    {
      WaitingIsTaken(q, a);
    }
  }

  lemma DueArePrefix(timers: seq<Entry>, now: int)
    requires Sorted(timers)
    ensures var k := ExpiredCount(timers, now);
            && timers[..k] + timers[k..] == timers
            && Sorted(timers[..k])
            && (forall e | e in timers[..k] :: e.when <= now)
            && (forall e | e in timers[k..] :: e.when > now)
  {
    forall i | 0 <= i < |timers| ensures i < ExpiredCount(timers, now) <==> timers[i].when <= now {
      ExpiredPrefix(timers, now, i);
    }
  }

  lemma WaitingIsTaken(q: Queue, a: Addr)
    requires Indexed(q.heap, q.timers, q.active) && Waiting(q.heap, q.active, a)
    ensures InFlight(q.timers[..ExpiredCount(q.timers, q.clock)], a) <==> q.heap[a].expiration <= q.clock
  {
    var k := ExpiredCount(q.timers, q.clock);
    var e := Entry(q.heap[a].expiration, a);
    var i :| 0 <= i < |q.timers| && q.timers[i] == e;
    ExpiredPrefix(q.timers, q.clock, i);
    if i < k { assert q.timers[..k][i].addr == a; }
    forall j | 0 <= j < k && q.timers[j].addr == a ensures e.when <= q.clock {
      assert q.timers[j] in q.timers;
      ExpiredPrefix(q.timers, q.clock, j);
    }
  }

  /** Once the calls are done, the batch has run: each of its timers once, in order, nothing else. */
  lemma BatchRanInOrder(q: Queue)
    requires Reachable(q) && q.phase == Calling && q.ran == |q.batch|
    ensures |RunIn(q.fired, q.batchNo)| == |q.batch|
    ensures forall i | 0 <= i < |q.batch| ::
              q.batch[i].addr in q.heap && RunIn(q.fired, q.batchNo)[i] == q.heap[q.batch[i].addr].sequence
  {
    hide Reachable, Indexed, Partitioned, Numbered, Marked, NoneAfterCancel, InTime, RunIn;
    ReachableInv(q);
  }

  // ---------------------------------------------------------------- cancelling, over runs

  lemma StepKeepsCancelled(q: Queue, step: Step, s: Seq)
    requires Live(q) && Enabled(q, step) && s in q.cancelledIn
    ensures var q1 := ApplyStep(q, step); s in q1.cancelledIn && q1.cancelledIn[s] == q.cancelledIn[s]
  {
    hide Live, IdsOf, Insert, Erase, ExpiredCount, WasAdded;
  }

  lemma {:induction false} RunKeepsCancelled(q: Queue, steps: seq<Step>, s: Seq)
    requires Runs(q, steps) && s in q.cancelledIn
    ensures var q1 := Exec(q, steps); s in q1.cancelledIn && q1.cancelledIn[s] == q.cancelledIn[s]
    decreases |steps|
  {
    hide ApplyStep, Enabled, Live;
    if steps != [] {
      StepKeepsCancelled(q, steps[0], s);
      RunKeepsCancelled(ApplyStep(q, steps[0]), steps[1..], s);
    }
  }

  /**
    Cancelling is final: whatever happens afterwards, no batch after the current one runs the timer.
    In particular a repeating timer that cancels itself is not started again.
   */
  lemma CancelIsFinal(q: Queue, id: Id, steps: seq<Step>, f: Fired)
    requires Reachable(q) && Live(q) && q.phase != Resetting && WasAdded(q, id)
    requires Runs(ApplyStep(q, Cancel(id)), steps)
    requires f in Exec(ApplyStep(q, Cancel(id)), steps).fired && f.sequence == id.sequence
    ensures f.batchNo <= q.batchNo
  {
    hide Reachable, Live, Indexed, Partitioned, Numbered, Marked, InTime, RunsOnce, Exec, Runs, WasAdded, Erase;
    ReachableInv(q);
    StepKeepsInv(q, Cancel(id));
    var q1 := ApplyStep(q, Cancel(id));
    assert id.sequence in q1.cancelledIn && q1.cancelledIn[id.sequence] <= q.batchNo;
    RunKeepsCancelled(q1, steps, id.sequence);
    RunKeepsInv(q1, steps);
  }

  /**
    Cancelling touches one timer only. An id that is out of date changes nothing about a newer
    timer that got the same address.
   */
  lemma CancelTouchesOne(q: Queue, id: Id, a: Addr)
    requires Reachable(q) && Live(q) && q.phase != Resetting
    requires a in q.heap && Id(a, q.heap[a].sequence) != id
    ensures var q1 := CancelInLoop(q, id);
            && a in q1.heap && q1.heap[a] == q.heap[a]
            && (Waiting(q1.heap, q1.active, a) <==> Waiting(q.heap, q.active, a))
            && (a in q1.pending <==> a in q.pending)
            && (Id(a, q.heap[a].sequence) in q1.canceling <==> Id(a, q.heap[a].sequence) in q.canceling)
            && (Entry(q.heap[a].expiration, a) in q1.timers <==> Entry(q.heap[a].expiration, a) in q.timers)
            && q1.batch == q.batch
  {
    hide Reachable, Partitioned, Numbered, Marked, InTime, RunsOnce, NoneAfterCancel, WasAdded;
    ReachableInv(q);
    if id in q.active {
      EraseHas(q.timers, Entry(q.heap[id.addr].expiration, id.addr), Entry(q.heap[a].expiration, a));
    }
  }

  // ---------------------------------------------------------------- nothing lost, nothing late

  /** A waiting timer stays as it is until it is due, unless someone cancels it. */
  lemma StepLeavesWaiting(q: Queue, step: Step, id: Id)
    requires Inv(q) && Live(q) && Enabled(q, step) && id in q.active && step != Cancel(id)
    requires q.clock < q.heap[id.addr].expiration
    ensures var q1 := ApplyStep(q, step);
            && id in q1.active && id.addr in q1.heap && q1.heap[id.addr] == q.heap[id.addr]
            && q.clock <= q1.clock
  {
    hide Numbered, Marked, InTime, RunsOnce, NoneAfterCancel, WasAdded, Insert, Erase, Micros, IdsOf, AddTime;
    assert Waiting(q.heap, q.active, id.addr);
    if step.Begin? { NotTaken(q, id); }
  }

  lemma NotTaken(q: Queue, id: Id)
    requires Indexed(q.heap, q.timers, q.active) && Live(q) && id in q.active
    requires q.clock < q.heap[id.addr].expiration
    ensures id !in IdsOf(q.heap, q.timers[..ExpiredCount(q.timers, q.clock)])
  {
    var k := ExpiredCount(q.timers, q.clock);
    GoneIds(q, k);
    forall i | 0 <= i < k ensures q.timers[i].when <= q.clock { ExpiredPrefix(q.timers, q.clock, i); }
  }

  lemma StepTime(q: Queue, step: Step)
    requires Live(q) && Enabled(q, step)
    ensures q.clock <= ApplyStep(q, step).clock
  {
    hide Live, IdsOf, Insert, Erase, ExpiredCount, WasAdded;
  }

  lemma {:induction false} RunTime(q: Queue, steps: seq<Step>)
    requires Runs(q, steps)
    ensures q.clock <= Exec(q, steps).clock
    decreases |steps|
  {
    hide Live, Enabled, ApplyStep;
    if steps != [] {
      StepTime(q, steps[0]);
      RunTime(ApplyStep(q, steps[0]), steps[1..]);
    }
  }

  lemma {:induction false} WaitsUntilDue(q: Queue, steps: seq<Step>, id: Id)
    requires Inv(q) && Runs(q, steps) && id in q.active && Cancel(id) !in steps
    requires id.addr in q.heap && Exec(q, steps).clock < q.heap[id.addr].expiration
    ensures var q1 := Exec(q, steps);
            id in q1.active && id.addr in q1.heap && q1.heap[id.addr] == q.heap[id.addr]
    decreases |steps|
  {
    hide Inv, ApplyStep, Enabled, Live;
    if steps != [] {
      RunTime(q, steps);
      StepLeavesWaiting(q, steps[0], id);
      StepKeepsInv(q, steps[0]);
      WaitsUntilDue(ApplyStep(q, steps[0]), steps[1..], id);
    }
  }

  /**
    A due timer is not forgotten: between events, once its time has come and 100 microseconds have
    gone by since the timerfd was set, the timerfd is readable, and handling it takes the timer.
   */
  lemma DueIsTaken(q: Queue, a: Addr)
    requires Reachable(q) && q.phase == Idle && Waiting(q.heap, q.active, a)
    ensures q.fd.Armed? && q.fd.setAt <= q.clock && q.fd.deadline <= Max(q.heap[a].expiration, q.fd.setAt + 100)
    ensures Live(q) && (q.heap[a].expiration <= q.clock ==> InFlight(BeginRead(q).batch, a))
  {
    hide Reachable, Numbered, Partitioned, Marked, RunsOnce, NoneAfterCancel, BeginRead;
    ReachableInv(q);
    BatchIsTheDue(q);
    var e := Entry(q.heap[a].expiration, a);
    var i :| 0 <= i < |q.timers| && q.timers[i] == e;
    assert i > 0 ==> Less(q.timers[0], q.timers[i]);
  }

  // ---------------------------------------------------------------- cancelling too early

  lemma Cons(q: Queue, step: Step, rest: seq<Step>)
    requires Live(q) && Enabled(q, step) && Runs(ApplyStep(q, step), rest)
    ensures Runs(q, [step] + rest) && Exec(q, [step] + rest) == Exec(ApplyStep(q, step), rest)
  {
    hide ApplyStep, Enabled, Live;
    assert ([step] + rest)[1..] == rest;
  }

  /** What the loop does next inside `handleRead`. */
  function Onward(q: Queue): Step {
    if q.phase == Calling then (if q.ran < |q.batch| then RunCallback else CallsDone)
    else if q.batch != [] then Reset else End
  }

  function StepsLeft(q: Queue): int {
    match q.phase
    case Idle => 0
    case Calling => |q.batch| - q.ran + |q.batch| + 2
    case Resetting => |q.batch| + 1
  }

  lemma OnwardStep(q: Queue, a: Addr)
    requires Inv(q) && Live(q) && q.phase != Idle && a in q.pending
    ensures Enabled(q, Onward(q))
    ensures var q' := ApplyStep(q, Onward(q));
            && a in q'.pending && a in q'.heap && q'.heap[a] == q.heap[a]
            && q'.batchNo == q.batchNo && 0 <= StepsLeft(q') < StepsLeft(q)
  {
    hide Indexed, Numbered, Marked, NoneAfterCancel, InTime, AddTime, Insert, RunIn;
    if q.batch != [] { assert q.batch[0].addr != a; }
  }

  lemma {:induction false} FinishBatch(q: Queue, a: Addr) returns (steps: seq<Step>, q': Queue)
    requires Inv(q) && a in q.pending && a in q.heap
    ensures Runs(q, steps) && q' == Exec(q, steps) && Inv(q') && q'.phase == Idle
    ensures a in q'.pending && a in q'.heap && q'.heap[a] == q.heap[a] && q'.batchNo == q.batchNo
    decreases StepsLeft(q)
  {
    hide Inv, ApplyStep, Enabled, Live, Onward, StepsLeft;
    if q.phase == Idle {
      steps, q' := [], q;
    } else {
      InvLive(q);
      OnwardStep(q, a);
      StepKeepsInv(q, Onward(q));
      var rest, q1 := FinishBatch(ApplyStep(q, Onward(q)), a);
      Cons(q, Onward(q), rest);
      steps, q' := [Onward(q)] + rest, q1;
    }
  }

  lemma RunOne(q: Queue)
    requires Inv(q) && Live(q) && q.phase == Calling && q.ran < |q.batch|
    ensures Enabled(q, RunCallback)
    ensures var q' := ApplyStep(q, RunCallback);
            && q'.phase == Calling && q'.batch == q.batch && q'.heap == q.heap && q'.ran == q.ran + 1
            && q'.batchNo == q.batchNo && q.batch[q.ran].addr in q.heap
            && Fired(q.batchNo, q.heap[q.batch[q.ran].addr].sequence) in q'.fired
  {
  }

  /** The batch gets to its timer number i. */
  lemma {:induction false} RunUpTo(q: Queue, i: nat, s: Seq) returns (steps: seq<Step>)
    requires Inv(q) && q.phase == Calling && q.ran <= i < |q.batch|
    requires q.batch[i].addr in q.heap && q.heap[q.batch[i].addr].sequence == s
    ensures Runs(q, steps) && Fired(q.batchNo, s) in Exec(q, steps).fired
    decreases i - q.ran
  {
    hide Inv, ApplyStep, Enabled, Live;
    InvLive(q);
    RunOne(q);
    StepKeepsInv(q, RunCallback);
    var rest := [];
    if q.ran < i { rest := RunUpTo(ApplyStep(q, RunCallback), i, s); }
    Cons(q, RunCallback, rest);
    steps := [RunCallback] + rest;
  }

  lemma Added(q: Queue, a: Addr) returns (q': Queue)
    requires Inv(q) && q.phase == Idle && a in q.pending && a in q.heap
    ensures Live(q) && Enabled(q, Add(a)) && q' == ApplyStep(q, Add(a)) && Inv(q')
    ensures q'.phase == Idle && a in q'.heap && q'.heap[a] == q.heap[a] && Waiting(q'.heap, q'.active, a)
    ensures q'.batchNo == q.batchNo
  {
    hide Inv, Insert, Micros;
    InvLive(q);
    StepKeepsInv(q, Add(a));
    q' := ApplyStep(q, Add(a));
  }

  lemma Elapsed(q: Queue, d: nat) returns (q': Queue)
    requires Inv(q)
    ensures Live(q) && Enabled(q, Tick(d)) && q' == ApplyStep(q, Tick(d)) && Inv(q') && q' == q.(clock := q.clock + d)
  {
    hide Inv;
    InvLive(q);
    StepKeepsInv(q, Tick(d));
    q' := ApplyStep(q, Tick(d));
  }

  lemma Taken(q: Queue, a: Addr) returns (q': Queue, i: nat)
    requires Inv(q) && q.phase == Idle && Waiting(q.heap, q.active, a) && q.heap[a].expiration <= q.clock
    ensures Live(q) && Enabled(q, Begin) && q' == ApplyStep(q, Begin) && Inv(q')
    ensures q'.phase == Calling && q'.ran == 0 && q'.heap == q.heap && q'.batchNo == q.batchNo + 1
    ensures i < |q'.batch| && q'.batch[i].addr == a
  {
    hide Partitioned, Numbered, Marked, NoneAfterCancel, InTime, RunsOnce, IdsOf;
    InvLive(q);
    StepKeepsInv(q, Begin);
    q' := ApplyStep(q, Begin);
    WaitingIsTaken(q, a);
    i :| 0 <= i < |q'.batch| && q'.batch[i].addr == a;
  }

  /** A timer whose addition is still queued can come to run in a later batch. */
  lemma PendingFires(q: Queue, a: Addr) returns (steps: seq<Step>, f: Fired)
    requires Inv(q) && a in q.pending && a in q.heap
    ensures Runs(q, steps) && f in Exec(q, steps).fired && f.sequence == q.heap[a].sequence && f.batchNo > q.batchNo
  {
    hide Inv, ApplyStep, Enabled, Live, Runs, Exec;
    var first, q1 := FinishBatch(q, a);
    var q2 := Added(q1, a);
    var wait := if q.heap[a].expiration <= q2.clock then 0 else q.heap[a].expiration - q2.clock;
    var q3 := Elapsed(q2, wait);
    var q4, i := Taken(q3, a);
    var last := RunUpTo(q4, i, q.heap[a].sequence);
    Cons(q3, Begin, last);
    Cons(q2, Tick(wait), [Begin] + last);
    Cons(q1, Add(a), [Tick(wait)] + ([Begin] + last));
    Joined(q, first, [Add(a)] + ([Tick(wait)] + ([Begin] + last)));
    steps := first + ([Add(a)] + ([Tick(wait)] + ([Begin] + last)));
    f := Fired(q4.batchNo, q.heap[a].sequence);
  }

  lemma {:induction false} Joined(q: Queue, s: seq<Step>, t: seq<Step>)
    requires Runs(q, s) && Runs(Exec(q, s), t)
    ensures Runs(q, s + t) && Exec(q, s + t) == Exec(Exec(q, s), t)
    decreases |s|
  {
    hide ApplyStep, Enabled, Live;
    if s == [] {
      assert s + t == t;
    } else {
      assert (s + t)[1..] == s[1..] + t;
      Joined(ApplyStep(q, s[0]), s[1..], t);
    }
  }

  /** `addTimer` has returned this id at some time. */
  predicate Issued(q: Queue, id: Id) {
    (id.addr in q.heap && q.heap[id.addr].sequence == id.sequence) || id.sequence in q.freed
  }

  /** No way of going on runs the timer in a batch after number b. */
  ghost predicate Silenced(q: Queue, s: Seq, b: nat) {
    forall steps, f | Runs(q, steps) && f in Exec(q, steps).fired && f.sequence == s :: f.batchNo <= b
  }

  lemma CancelPending(q: Queue, id: Id)
    requires Inv(q) && Live(q) && Enabled(q, Cancel(id)) && Issued(q, id) && !WasAdded(q, id)
    ensures var q1 := ApplyStep(q, Cancel(id));
            && id.addr in q1.pending && id.addr in q1.heap && q1.heap[id.addr].sequence == id.sequence
            && q1.batchNo == q.batchNo
  {
    hide Numbered, Marked, NoneAfterCancel, InTime, RunsOnce;
    assert id !in q.active by {
      if id in q.active { ActiveIsAdded(q, id); }
    }
  }

  /**
    Cancelling is final exactly if the addition has run. A cancellation on the loop's own thread
    that overtakes the queued addition does nothing, and the timer runs later.
   */
  lemma CancelFinalExactly(q: Queue, id: Id)
    requires Reachable(q) && Live(q) && q.phase != Resetting && Issued(q, id)
    ensures Silenced(ApplyStep(q, Cancel(id)), id.sequence, q.batchNo) <==> WasAdded(q, id)
  {
    hide Reachable, Live, Inv, Exec, Runs, WasAdded, ApplyStep, Issued;
    ReachableInv(q);
    var q1 := ApplyStep(q, Cancel(id));
    if WasAdded(q, id) {
      forall steps, f | Runs(q1, steps) && f in Exec(q1, steps).fired && f.sequence == id.sequence
        ensures f.batchNo <= q.batchNo
      {
        CancelIsFinal(q, id, steps, f);
      }
    } else {
      CancelPending(q, id);
      StepKeepsInv(q, Cancel(id));
      var steps, f := PendingFires(q1, id.addr);
    }
  }

  // ---------------------------------------------------------------- one-shot timers

  function Count(fired: seq<Fired>, s: Seq): nat {
    if fired == [] then 0 else
    Count(fired[..|fired| - 1], s) + if fired[|fired| - 1].sequence == s then 1 else 0
  }

  lemma CountNext(fired: seq<Fired>, f: Fired, s: Seq)
    ensures Count(fired + [f], s) == Count(fired, s) + if f.sequence == s then 1 else 0
  {
    assert (fired + [f])[..|fired|] == fired;
  }

  lemma CountNone(fired: seq<Fired>, s: Seq)
    requires forall f | f in fired :: f.sequence != s
    ensures Count(fired, s) == 0
  {
  }

  /** A one-shot timer has run at most once, and not at all before its turn in a batch. */
  ghost predicate OneShot(q: Queue, s: Seq) {
    && s <= q.created
    && Count(q.fired, s) <= 1
    && forall a | a in q.heap && q.heap[a].sequence == s ::
         && !Repeats(q.heap[a])
         && (a in q.pending || Waiting(q.heap, q.active, a) ==> Count(q.fired, s) == 0)
         && (q.phase == Calling ==> forall i | q.ran <= i < |q.batch| && q.batch[i].addr == a :: Count(q.fired, s) == 0)
  }

  lemma BeginOneShot(q: Queue, s: Seq)
    requires Inv(q) && Live(q) && q.phase == Idle && OneShot(q, s)
    ensures OneShot(BeginRead(q), s)
  {
    hide Partitioned, Numbered, Marked, NoneAfterCancel, InTime, RunsOnce, ExpiredCount, IdsOf, Count;
    var q1 := BeginRead(q);
    assert forall i | 0 <= i < |q1.batch| :: q1.batch[i] in q.timers;
  }

  lemma RunOneShot(q: Queue, s: Seq)
    requires Inv(q) && Live(q) && Enabled(q, RunCallback) && OneShot(q, s)
    ensures OneShot(RunNext(q), s)
  {
    hide Indexed, Marked, NoneAfterCancel, InTime, Count;
    CountNext(q.fired, Fired(q.batchNo, q.heap[q.batch[q.ran].addr].sequence), s);
    assert InFlight(q.batch, q.batch[q.ran].addr);
  }

  lemma ResetOneShot(q: Queue, s: Seq)
    requires Inv(q) && Live(q) && Enabled(q, Reset) && OneShot(q, s)
    ensures OneShot(ResetNext(q), s)
  {
    hide Indexed, Partitioned, Marked, NoneAfterCancel, InTime, Count, Insert, AddTime;
    assert q.batch[0] in q.batch;
  }

  lemma StepOneShot(q: Queue, step: Step, s: Seq)
    requires Inv(q) && Live(q) && Enabled(q, step) && OneShot(q, s)
    ensures OneShot(ApplyStep(q, step), s)
  {
    hide Partitioned, Numbered, Marked, NoneAfterCancel, InTime, RunsOnce, Count, Insert, Erase, Micros, WasAdded,
      BeginRead, ResetNext, RunNext;
    match step
    case Begin => BeginOneShot(q, s);
    case RunCallback => RunOneShot(q, s);
    case Reset => ResetOneShot(q, s);
    case _ =>
  }

  lemma {:induction false} RunsOneShot(q: Queue, steps: seq<Step>, s: Seq)
    requires Inv(q) && Runs(q, steps) && OneShot(q, s)
    ensures OneShot(Exec(q, steps), s)
    decreases |steps|
  {
    hide Inv, ApplyStep, Enabled, Live, OneShot;
    if steps != [] {
      StepOneShot(q, steps[0], s);
      StepKeepsInv(q, steps[0]);
      RunsOneShot(ApplyStep(q, steps[0]), steps[1..], s);
    }
  }

  /** A timer added without an interval runs at most once, in every run. */
  lemma OneShotRunsOnce(q: Queue, a: Addr, when: int, interval: real, steps: seq<Step>)
    requires Reachable(q) && a !in q.heap && interval <= 0.0
    requires Runs(CreateTimer(q, a, when, interval), steps)
    ensures Count(Exec(CreateTimer(q, a, when, interval), steps).fired, q.created + 1) <= 1
  {
    hide Reachable, Indexed, Partitioned, Marked, InTime, RunsOnce, Exec, Runs, Count;
    ReachableInv(q);
    CountNone(q.fired, q.created + 1);
    CreateKeepsInv(q, a, when, interval);
    RunsOneShot(CreateTimer(q, a, when, interval), steps, q.created + 1);
  }

  // ---------------------------------------------------------------- what becomes of a batch

  /** A timer of the batch on its way through `handleRead`, and whether it was cancelled on the way. */
  ghost predicate Underway(q: Queue, id: Id, t: Timer, now: int, cancelled: bool) {
    && q.phase != Idle && q.now == now && t.sequence == id.sequence
    && if InFlight(q.batch, id.addr)
       then id.addr in q.heap && q.heap[id.addr] == t && (id in q.canceling <==> cancelled)
       else q.phase == Resetting && Settled(q, id, t, now, t.interval > 0.0 && !cancelled)
  }

  lemma CallUnderway(q: Queue, step: Step, id: Id, t: Timer, now: int, cancelled: bool)
    requires Inv(q) && Live(q) && Enabled(q, step) && (step.Add? || step.Cancel?)
    requires Underway(q, id, t, now, cancelled)
    ensures Underway(ApplyStep(q, step), id, t, now, cancelled || step == Cancel(id))
  {
    hide Indexed, Numbered, Marked, NoneAfterCancel, InTime, RunsOnce, Insert, Erase, Micros, WasAdded, Settled;
    if step.Cancel? && step.id in q.active { ActiveIsNotInFlight(q, step.id); }
  }

  lemma ActiveIsNotInFlight(q: Queue, id: Id)
    requires Inv(q) && id in q.active
    ensures !InFlight(q.batch, id.addr)
  {
    hide Numbered, Marked, NoneAfterCancel, InTime, RunsOnce;
    assert Waiting(q.heap, q.active, id.addr);
  }

  lemma CreateUnderway(q: Queue, step: Step, id: Id, t: Timer, now: int, cancelled: bool)
    requires Inv(q) && Live(q) && Enabled(q, step)
    requires step.Create? || step.Tick? || step.RunCallback? || step.CallsDone?
    requires Underway(q, id, t, now, cancelled)
    ensures Underway(ApplyStep(q, step), id, t, now, cancelled)
  {
    hide Indexed, Numbered, Marked, NoneAfterCancel, InTime, RunsOnce, IntervalAfter;
  }

  lemma ResetUnderway(q: Queue, id: Id, t: Timer, now: int, cancelled: bool)
    requires Inv(q) && Live(q) && Enabled(q, Reset)
    requires Underway(q, id, t, now, cancelled)
    ensures Underway(ResetNext(q), id, t, now, cancelled)
  {
    hide Indexed, Numbered, Marked, NoneAfterCancel, InTime, RunsOnce, Insert, IntervalAfter, AddTime, InFlight;
    FirstOut(q.batch);
    var a := q.batch[0].addr;
    if a == id.addr {
      if Repeats(t) { RestartIsLater(q.now, t.interval); }
    } else {
      assert q.batch[0] in q.batch;
    }
  }

  lemma StepUnderway(q: Queue, step: Step, id: Id, t: Timer, now: int, cancelled: bool)
    requires Inv(q) && Live(q) && Enabled(q, step) && step != Begin && step != End
    requires Underway(q, id, t, now, cancelled)
    ensures Underway(ApplyStep(q, step), id, t, now, cancelled || step == Cancel(id))
  {
    hide Inv, Live, Underway, AddTimerInLoop, CancelInLoop, CreateTimer, RunNext, ResetNext;
    match step
    case Add(_) => CallUnderway(q, step, id, t, now, cancelled);
    case Cancel(_) => CallUnderway(q, step, id, t, now, cancelled);
    case Reset => ResetUnderway(q, id, t, now, cancelled);
    case _ => CreateUnderway(q, step, id, t, now, cancelled);
  }

  lemma {:induction false} RunUnderway(q: Queue, steps: seq<Step>, id: Id, t: Timer, now: int, cancelled: bool)
    requires Inv(q) && Runs(q, steps) && Begin !in steps && End !in steps
    requires Underway(q, id, t, now, cancelled)
    ensures Inv(Exec(q, steps))
    ensures Underway(Exec(q, steps), id, t, now, cancelled || Cancel(id) in steps)
    decreases |steps|
  {
    hide Inv, ApplyStep, Enabled, Live, Underway;
    if steps != [] {
      StepKeepsInv(q, steps[0]);
      StepUnderway(q, steps[0], id, t, now, cancelled);
      assert steps == [steps[0]] + steps[1..];
      RunUnderway(ApplyStep(q, steps[0]), steps[1..], id, t, now, cancelled || steps[0] == Cancel(id));
    }
  }

  lemma BeginUnderway(q: Queue, a: Addr)
    requires Inv(q) && Live(q) && q.phase == Idle && Waiting(q.heap, q.active, a) && q.heap[a].expiration <= q.clock
    ensures Inv(BeginRead(q))
    ensures Underway(BeginRead(q), Id(a, q.heap[a].sequence), q.heap[a], q.clock, false)
  {
    hide Partitioned, Numbered, Marked, NoneAfterCancel, InTime, RunsOnce, IdsOf, Settled, ExpiredCount;
    StepKeepsInv(q, Begin);
    WaitingIsTaken(q, a);
  }

  lemma EndUnderway(q: Queue, id: Id, t: Timer, now: int, cancelled: bool)
    requires Inv(q) && Live(q) && Enabled(q, End) && Underway(q, id, t, now, cancelled)
    ensures Settled(EndRead(q), id, t, now, t.interval > 0.0 && !cancelled)
  {
    hide Inv, IntervalAfter, Micros;
  }

  /**
    One `handleRead` from its beginning to its end, whatever the callbacks add and cancel: every due
    timer that repeats and that nobody cancelled meanwhile is waiting again, the same but for its
    expiration, which is the time of the batch plus the interval in whole microseconds. Every other
    due timer has been deleted.
   */
  lemma BatchSettles(q: Queue, steps: seq<Step>, a: Addr)
    requires Reachable(q) && q.phase == Idle && Waiting(q.heap, q.active, a) && q.heap[a].expiration <= q.clock
    requires Runs(q, [Begin] + steps + [End]) && Begin !in steps && End !in steps
    ensures var t, q1 := q.heap[a], Exec(q, [Begin] + steps + [End]);
            if t.interval > 0.0 && Cancel(Id(a, t.sequence)) !in steps then
              && Waiting(q1.heap, q1.active, a)
              && q1.heap[a] == t.(expiration := q1.heap[a].expiration)
              && var micros := q1.heap[a].expiration - q.clock;
                 micros as real <= t.interval * 1000000.0 < (micros + 1) as real
            else t.sequence in q1.freed
  {
    hide Reachable, Inv, Enabled, ApplyStep, Underway;
    ReachableInv(q);
    InvLive(q);
    BeginUnderway(q, a);
    assert [Begin] + steps + [End] == [Begin] + (steps + [End]);
    assert ([Begin] + (steps + [End]))[1..] == steps + [End];
    OnlyBegin(q);
    Split(BeginRead(q), steps, [End]);
    var id := Id(a, q.heap[a].sequence);
    RunUnderway(BeginRead(q), steps, id, q.heap[a], q.clock, false);
    var q2 := Exec(BeginRead(q), steps);
    EndUnderway(q2, id, q.heap[a], q.clock, Cancel(id) in steps);
    OnlyEnd(q2);
  }

  lemma OnlyBegin(q: Queue)
    requires Live(q) && Enabled(q, Begin)
    ensures ApplyStep(q, Begin) == BeginRead(q)
  {
  }

  lemma OnlyEnd(q: Queue)
    requires Live(q) && Enabled(q, End)
    ensures ApplyStep(q, End) == EndRead(q)
  {
  }

  lemma {:induction false} Split(q: Queue, s: seq<Step>, t: seq<Step>)
    requires Runs(q, s + t)
    ensures Runs(q, s) && Runs(Exec(q, s), t) && Exec(q, s + t) == Exec(Exec(q, s), t)
    decreases |s|
  {
    hide ApplyStep, Enabled, Live;
    if s == [] {
      assert s + t == t;
    } else {
      assert (s + t)[1..] == s[1..] + t;
      Split(ApplyStep(q, s[0]), s[1..], t);
    }
  }

  // ---------------------------------------------------------------- repeating timers

  /** A repeating timer that was added and will not be dropped by the `reset` under way. */
  ghost predicate Repeating(q: Queue, a: Addr, s: Seq) {
    && a in q.heap && a !in q.pending && q.heap[a].sequence == s && q.heap[a].interval > 0.0
    && (InFlight(q.batch, a) ==> Id(a, s) !in q.canceling)
  }

  lemma RepeatingGoesOn(q: Queue, a: Addr, s: Seq)
    requires Inv(q) && Live(q) && q.phase != Idle && Repeating(q, a, s)
    ensures Enabled(q, Onward(q))
    ensures var q' := ApplyStep(q, Onward(q));
            Repeating(q', a, s) && Count(q'.fired, s) >= Count(q.fired, s) && 0 <= StepsLeft(q') < StepsLeft(q)
  {
    hide Indexed, Numbered, Marked, NoneAfterCancel, InTime, AddTime, Insert, RunIn, Count, InFlight, Micros;
    if q.phase == Calling && q.ran < |q.batch| {
      CountNext(q.fired, Fired(q.batchNo, q.heap[q.batch[q.ran].addr].sequence), s);
    } else if q.phase == Resetting && q.batch != [] {
      FirstOut(q.batch);
    }
  }

  /** The list has no cancellation in it. */
  predicate Uncancelled(steps: seq<Step>) { forall step | step in steps :: !step.Cancel? }

  lemma {:induction false} FinishRepeating(q: Queue, a: Addr, s: Seq) returns (steps: seq<Step>, q': Queue)
    requires Inv(q) && Repeating(q, a, s)
    ensures Runs(q, steps) && Uncancelled(steps) && q' == Exec(q, steps) && Inv(q') && q'.phase == Idle
    ensures Waiting(q'.heap, q'.active, a) && Repeating(q', a, s) && Count(q'.fired, s) >= Count(q.fired, s)
    decreases StepsLeft(q)
  {
    hide Inv, ApplyStep, Enabled, Live, StepsLeft, Repeating, Count;
    if q.phase == Idle {
      steps, q' := [], q;
      IdleIsWaiting(q, a, s);
    } else {
      InvLive(q);
      RepeatingGoesOn(q, a, s);
      StepKeepsInv(q, Onward(q));
      var rest, q1 := FinishRepeating(ApplyStep(q, Onward(q)), a, s);
      Cons(q, Onward(q), rest);
      steps, q' := [Onward(q)] + rest, q1;
    }
  }

  lemma IdleIsWaiting(q: Queue, a: Addr, s: Seq)
    requires Inv(q) && Repeating(q, a, s) && q.phase == Idle
    ensures Waiting(q.heap, q.active, a)
  {
    hide Indexed, Numbered, Marked, NoneAfterCancel, InTime, RunIn;
  }

  /** The batch gets to its timer number i, which runs. */
  lemma {:induction false} RunRepeating(q: Queue, i: nat, s: Seq) returns (steps: seq<Step>, q': Queue)
    requires Inv(q) && q.phase == Calling && q.ran <= i < |q.batch|
    requires Repeating(q, q.batch[i].addr, s)
    ensures Runs(q, steps) && Uncancelled(steps) && q' == Exec(q, steps) && Inv(q')
    ensures Repeating(q', q.batch[i].addr, s) && Count(q'.fired, s) >= Count(q.fired, s) + 1
    decreases i - q.ran
  {
    hide Inv, ApplyStep, Enabled, Live, Repeating, Count;
    InvLive(q);
    RunRepeatingOne(q, i, s);
    StepKeepsInv(q, RunCallback);
    var rest: seq<Step> := [];
    q' := ApplyStep(q, RunCallback);
    if q.ran < i { rest, q' := RunRepeating(q', i, s); }
    Cons(q, RunCallback, rest);
    steps := [RunCallback] + rest;
  }

  lemma RunRepeatingOne(q: Queue, i: nat, s: Seq)
    requires Inv(q) && Live(q) && q.phase == Calling && q.ran <= i < |q.batch| && Repeating(q, q.batch[i].addr, s)
    ensures Enabled(q, RunCallback)
    ensures var q' := ApplyStep(q, RunCallback);
            && q'.phase == Calling && q'.batch == q.batch && q'.ran == q.ran + 1
            && Repeating(q', q.batch[i].addr, s)
            && Count(q'.fired, s) >= Count(q.fired, s) + if q.ran == i then 1 else 0
  {
    hide Inv, Count, InFlight;
    assert q.batch[q.ran] in q.batch;
    CountNext(q.fired, Fired(q.batchNo, q.heap[q.batch[q.ran].addr].sequence), s);
  }

  lemma TakenRepeating(q: Queue, a: Addr, s: Seq) returns (q': Queue, i: nat)
    requires Inv(q) && q.phase == Idle && Waiting(q.heap, q.active, a) && q.heap[a].expiration <= q.clock
    requires Repeating(q, a, s)
    ensures Live(q) && Enabled(q, Begin) && q' == ApplyStep(q, Begin) && Inv(q') && q'.fired == q.fired
    ensures q'.phase == Calling && q'.ran == 0 && i < |q'.batch| && q'.batch[i].addr == a && Repeating(q', a, s)
  {
    hide Inv, IdsOf, InFlight;
    q', i := Taken(q, a);
  }

  /** A repeating timer that nobody cancels can go on to run, in later and later batches, any number of times. */
  lemma {:induction false} FiresAgain(q: Queue, a: Addr, s: Seq, n: nat) returns (steps: seq<Step>)
    requires Inv(q) && Repeating(q, a, s)
    ensures Runs(q, steps) && Uncancelled(steps) && Count(Exec(q, steps).fired, s) >= Count(q.fired, s) + n
    decreases n
  {
    hide Inv, ApplyStep, Enabled, Live, Runs, Exec, Repeating, Count, Waiting;
    if n == 0 {
      steps := [];
      NoSteps(q);
    } else {
      var first, q1 := FinishRepeating(q, a, s);
      var wait := WaitFor(q1, a);
      var q2 := Elapsed(q1, wait);
      SameButTime(q1, q2, a, s);
      var q3, i := TakenRepeating(q2, a, s);
      var run, q4 := RunRepeating(q3, i, s);
      var last := FiresAgain(q4, a, s, n - 1);
      Joined(q3, run, last);
      Cons(q2, Begin, run + last);
      Cons(q1, Tick(wait), [Begin] + (run + last));
      Joined(q, first, [Tick(wait)] + ([Begin] + (run + last)));
      steps := first + ([Tick(wait)] + ([Begin] + (run + last)));
    }
  }

  lemma NoSteps(q: Queue)
    ensures Runs(q, []) && Exec(q, []) == q
  {
  }

  lemma WaitFor(q: Queue, a: Addr) returns (d: nat)
    requires Waiting(q.heap, q.active, a)
    ensures a in q.heap && q.heap[a].expiration <= q.clock + d
  {
    d := if q.heap[a].expiration <= q.clock then 0 else q.heap[a].expiration - q.clock;
  }

  lemma SameButTime(q: Queue, q': Queue, a: Addr, s: Seq)
    requires q' == q.(clock := q'.clock)
    ensures Repeating(q', a, s) == Repeating(q, a, s)
    ensures Waiting(q'.heap, q'.active, a) == Waiting(q.heap, q.active, a)
  {
  }

  /** A timer keeps address and interval, and until it first runs also the time it was made for. */
  ghost predicate AsMade(q: Queue, s: Seq, a: Addr, when: int, interval: real) {
    && s <= q.created
    && forall b | b in q.heap && q.heap[b].sequence == s ::
         && b == a && q.heap[b].interval == interval
         && (Count(q.fired, s) == 0 ==> q.heap[b].expiration == when)
         && (q.phase == Calling ==>
               forall i | 0 <= i < q.ran && i < |q.batch| && q.batch[i].addr == b :: Count(q.fired, s) > 0)
         && (q.phase == Resetting ==> forall i | 0 <= i < |q.batch| && q.batch[i].addr == b :: Count(q.fired, s) > 0)
  }

  lemma RunAsMade(q: Queue, s: Seq, a: Addr, when: int, interval: real)
    requires Inv(q) && Live(q) && Enabled(q, RunCallback) && AsMade(q, s, a, when, interval)
    ensures AsMade(RunNext(q), s, a, when, interval)
  {
    hide Indexed, Partitioned, Numbered, Marked, NoneAfterCancel, InTime, RunsOnce, Count;
    CountNext(q.fired, Fired(q.batchNo, q.heap[q.batch[q.ran].addr].sequence), s);
  }

  lemma ResetAsMade(q: Queue, s: Seq, a: Addr, when: int, interval: real)
    requires Inv(q) && Live(q) && Enabled(q, Reset) && AsMade(q, s, a, when, interval)
    ensures AsMade(ResetNext(q), s, a, when, interval)
  {
    hide Indexed, Partitioned, Numbered, Marked, NoneAfterCancel, InTime, RunsOnce, Count, Insert, AddTime;
    var q1 := ResetNext(q);
    assert forall i | 0 <= i < |q1.batch| :: q1.batch[i] == q.batch[i + 1];
  }

  lemma StepAsMade(q: Queue, step: Step, s: Seq, a: Addr, when: int, interval: real)
    requires Inv(q) && Live(q) && Enabled(q, step) && AsMade(q, s, a, when, interval)
    ensures AsMade(ApplyStep(q, step), s, a, when, interval)
  {
    hide Indexed, Partitioned, Numbered, Marked, NoneAfterCancel, InTime, RunsOnce, Count, Insert, Erase, Micros,
      WasAdded, IdsOf, ExpiredCount, ResetNext, RunNext;
    match step
    case RunCallback => RunAsMade(q, s, a, when, interval);
    case Reset => ResetAsMade(q, s, a, when, interval);
    case _ =>
  }

  lemma {:induction false} RunsAsMade(q: Queue, steps: seq<Step>, s: Seq, a: Addr, when: int, interval: real)
    requires Inv(q) && Runs(q, steps) && AsMade(q, s, a, when, interval)
    ensures AsMade(Exec(q, steps), s, a, when, interval)
    decreases |steps|
  {
    hide Inv, ApplyStep, Enabled, Live, AsMade;
    if steps != [] {
      StepAsMade(q, steps[0], s, a, when, interval);
      StepKeepsInv(q, steps[0]);
      RunsAsMade(ApplyStep(q, steps[0]), steps[1..], s, a, when, interval);
    }
  }

  /**
    Over every run after `addTimer`, the timer with the new number is at the address it was made at
    and has the interval asked for, for as long as it lives; until it has run, it has the time asked for.
   */
  lemma TimerAsAsked(q: Queue, a: Addr, when: int, interval: real, steps: seq<Step>)
    requires Reachable(q) && Live(q) && Enabled(q, Create(a, when, interval))
    requires Runs(ApplyStep(q, Create(a, when, interval)), steps)
    ensures var q0, s := ApplyStep(q, Create(a, when, interval)), q.created + 1;
            && a in q0.heap && q0.heap[a] == Timer(when, interval, s) && a in q0.pending
            && forall b | b in Exec(q0, steps).heap && Exec(q0, steps).heap[b].sequence == s ::
                 && b == a && Exec(q0, steps).heap[b].interval == interval
                 && (Count(Exec(q0, steps).fired, s) == 0 ==> Exec(q0, steps).heap[b].expiration == when)
  {
    hide Reachable, Indexed, Partitioned, Marked, InTime, RunsOnce, Exec, Runs, Count, Live;
    ReachableInv(q);
    var q0 := CreateTimer(q, a, when, interval);
    CreateKeepsInv(q, a, when, interval);
    CountNone(q.fired, q.created + 1);
    assert AsMade(q0, q.created + 1, a, when, interval) by { NobodyElse(q, a, when, interval); }
    RunsAsMade(q0, steps, q.created + 1, a, when, interval);
  }

  lemma NobodyElse(q: Queue, a: Addr, when: int, interval: real)
    requires Inv(q) && a !in q.heap
    ensures AsMade(CreateTimer(q, a, when, interval), q.created + 1, a, when, interval)
  {
    hide Indexed, Marked, InTime, RunsOnce, Count;
    assert forall i | 0 <= i < |q.batch| :: q.batch[i].addr in q.heap;
  }

  // ---------------------------------------------------------------- the class

  /** The loop of `reset` over n more timers, and what follows it. */
  function Resets(n: nat): seq<Step> {
    if n == 0 then [End] else [Reset] + Resets(n - 1)
  }

  lemma {:induction false} ResetsRun(q: Queue)
    requires Inv(q) && q.phase == Resetting
    ensures Runs(q, Resets(|q.batch|))
    decreases |q.batch|
  {
    hide Inv;
    InvLive(q);
    if q.batch != [] {
      StepKeepsInv(q, Reset);
      ResetsRun(ResetNext(q));
      assert Resets(|q.batch|)[1..] == Resets(|q.batch| - 1);
    }
  }

  lemma {:induction false} ResetsSettle(q: Queue, id: Id, t: Timer, now: int, cancelled: bool)
    requires Inv(q) && q.phase == Resetting && Underway(q, id, t, now, cancelled) && Runs(q, Resets(|q.batch|))
    ensures Settled(Exec(q, Resets(|q.batch|)), id, t, now, t.interval > 0.0 && !cancelled)
    decreases |q.batch|
  {
    hide Inv, Underway, Settled, ResetNext, EndRead;
    InvLive(q);
    if q.batch == [] {
      EndUnderway(q, id, t, now, cancelled);
    } else {
      StepKeepsInv(q, Reset);
      StepUnderway(q, Reset, id, t, now, cancelled);
      ResetShrinks(q);
      assert Resets(|q.batch|)[1..] == Resets(|q.batch| - 1);
      ResetsSettle(ResetNext(q), id, t, now, cancelled);
    }
  }

  /** Every timer of the batch has been put back or deleted. */
  ghost predicate AllSettled(q: Queue, was: Queue) {
    forall i | 0 <= i < |was.batch| ::
      var a := was.batch[i].addr;
      a in was.heap
      && var id := Id(a, was.heap[a].sequence);
         Settled(q, id, was.heap[a], was.now, was.heap[a].interval > 0.0 && id !in was.canceling)
  }

  lemma ResetsSettleAll(q: Queue)
    requires Inv(q) && q.phase == Resetting && Runs(q, Resets(|q.batch|))
    ensures AllSettled(Exec(q, Resets(|q.batch|)), q)
  {
    hide Inv, Settled, Runs, Exec;
    InvLive(q);
    forall i | 0 <= i < |q.batch|
      ensures var a := q.batch[i].addr;
              && a in q.heap
              && var id := Id(a, q.heap[a].sequence);
                 Settled(Exec(q, Resets(|q.batch|)), id, q.heap[a], q.now,
                         q.heap[a].interval > 0.0 && id !in q.canceling)
    {
      assert q.batch[i] in q.batch && InFlight(q.batch, q.batch[i].addr);
      var a := q.batch[i].addr;
      var id := Id(a, q.heap[a].sequence);
      ResetsSettle(q, id, q.heap[a], q.now, id in q.canceling);
    }
  }

  lemma BeforeEnd(q: Queue, was: Queue)
    requires Inv(q) && Runs(q, Resets(0)) && AllSettled(Exec(q, Resets(0)), was)
    ensures AllSettled(q, was)
  {
    hide Inv, Micros, IntervalAfter;
    InvLive(q);
    assert Exec(q, [End]) == EndRead(q);
  }

  class TimerQueue {
    var clock: int
    var heap: Heap
    var numCreated: nat
    var timers: seq<Entry>
    var activeTimers: set<Id>
    var cancelingTimers: set<Id>
    var callingExpiredTimers: bool
    var timerfd: TimerFd
    // Local variables of `handleRead`; fields here, because callbacks come in between.
    var expired: seq<Entry>
    var ran: nat
    var now: int
    ghost var resetting: bool
    ghost var pending: set<Addr>
    ghost var freed: seq<Seq>
    ghost var batchNo: nat
    ghost var fired: seq<Fired>
    ghost var cancelledIn: map<Seq, nat>

    ghost function View(): Queue
      reads this
    {
      Queue(clock, numCreated, heap, pending, timers, activeTimers, cancelingTimers,
            if callingExpiredTimers then Calling else if resetting then Resetting else Idle,
            expired, ran, now, timerfd, freed, batchNo, fired, cancelledIn)
    }

    ghost predicate Valid()
      reads this
    {
      Inv(View())
    }

    constructor (clock: int)
      requires clock > 0
      ensures View() == Start(clock) && Valid()
    {
      this.clock, heap, numCreated := clock, map[], 0;
      timers, activeTimers, cancelingTimers, callingExpiredTimers := [], {}, {}, false;
      timerfd, expired, ran, now := Disarmed, [], 0, 0;
      resetting, pending, freed, batchNo, fired, cancelledIn := false, {}, [], 0, [], map[];
      new;
      StartInv(clock);
    }

    method SetTimerfd(expiration: int)
      modifies `timerfd
      ensures View() == ResetTimerfd(old(View()), expiration)
      ensures timerfd == Armed(Max(expiration, clock + 100), clock)
    {
      TimespecOfWait(expiration, clock);
      var wait := HowMuchTimeFromNow(expiration, clock);
      timerfd := Armed(clock + Micros(wait), clock);
    }

    method AddTimer(a: Addr, when: int, interval: real) returns (id: Id)
      requires Valid() && a !in heap
      modifies this
      ensures View() == ApplyStep(old(View()), Create(a, when, interval)) && Valid()
      ensures id == Id(a, old(numCreated) + 1) && id !in activeTimers
      ensures a in heap && heap[a] == Timer(when, interval, id.sequence)
    {
      hide Inv;
      InvLive(View());
      StepKeepsInv(View(), Create(a, when, interval));
      FreshAddress(View(), a, numCreated + 1);
      numCreated := numCreated + 1;
      heap := heap[a := Timer(when, interval, numCreated)];
      pending := pending + {a};
      id := Id(a, numCreated);
    }

    /** Both insertions add something new, and the indices stay the same size. */
    method InsertBoth(a: Addr) returns (earliestChanged: bool)
      requires Indexed(heap, timers, activeTimers) && a in heap && !Waiting(heap, activeTimers, a)
      modifies `timers, `activeTimers
      ensures View() == InsertTimer(old(View()), a)
      ensures earliestChanged == EarliestChanged(old(View()), heap[a].expiration)
      ensures |timers| == old(|timers|) + 1 == |activeTimers|
    {
      SameSize(View());
      var when := heap[a].expiration;
      earliestChanged := timers == [] || when < timers[0].when;
      InsertHas(timers, Entry(when, a), Entry(when, a));
      timers := Insert(timers, Entry(when, a));
      activeTimers := activeTimers + {Id(a, heap[a].sequence)};
    }

    method DoAddTimerInLoop(a: Addr)
      requires Valid() && Enabled(View(), Add(a))
      modifies this
      ensures Live(old(View())) && View() == ApplyStep(old(View()), Add(a)) && Valid()
    {
      hide Inv, Indexed;
      InvLive(View());
      StepKeepsInv(View(), Add(a));
      PendingAddable(View(), a);
      var earliestChanged := InsertBoth(a);
      pending := pending - {a};
      if earliestChanged {
        SetTimerfd(heap[a].expiration);
      }
    }

    method DoCancelInLoop(id: Id)
      requires Valid() && Enabled(View(), Cancel(id))
      modifies this
      ensures Live(old(View())) && View() == ApplyStep(old(View()), Cancel(id)) && Valid()
      ensures |timers| == |activeTimers|
    {
      hide Inv, Erase, WasAdded, Live, ApplyStep, Enabled;
      ghost var q1 := Cancelled(View(), id);
      cancelledIn := q1.cancelledIn;
      if id in activeTimers {
        EraseBoth(id);
      } else if callingExpiredTimers {
        cancelingTimers := cancelingTimers + {id};
      }
      assert View() == q1;
    }

    method EraseBoth(id: Id)
      requires id.addr in heap
      modifies `timers, `activeTimers, `heap, `freed
      ensures timers == Erase(old(timers), Entry(old(heap)[id.addr].expiration, id.addr))
      ensures activeTimers == old(activeTimers) - {id} && heap == old(heap) - {id.addr}
      ensures freed == old(freed) + [old(heap)[id.addr].sequence]
    {
      timers := Erase(timers, Entry(heap[id.addr].expiration, id.addr));
      freed := freed + [heap[id.addr].sequence];
      heap := heap - {id.addr};
      activeTimers := activeTimers - {id};
    }

    /** Reading a timerfd that has gone off makes it unreadable until it is set again. */
    method ReadTimerfd()
      modifies `timerfd
      ensures timerfd == if old(timerfd.Armed? && timerfd.deadline <= clock) then Disarmed else old(timerfd)
    {
      if timerfd.Armed? && timerfd.deadline <= clock {
        timerfd := Disarmed;
      }
    }

    /** Moves the due timers out of both indices. */
    method GetExpired(now: int) returns (expired: seq<Entry>)
      requires forall e | e in timers :: e.addr in heap
      modifies `timers, `activeTimers
      ensures expired == old(timers[..ExpiredCount(timers, now)])
      ensures timers == old(timers[ExpiredCount(timers, now)..])
      ensures (forall e | e in expired :: e.addr in heap) && activeTimers == old(activeTimers) - IdsOf(heap, expired)
    {
      var k := ExpiredCount(timers, now);
      expired := timers[..k];
      timers := timers[k..];
      var i := 0;
      while i < |expired|
        invariant i <= |expired| && timers == old(timers[ExpiredCount(timers, now)..])
        invariant forall e | e in expired[..i] :: e.addr in heap
        invariant activeTimers == old(activeTimers) - IdsOf(heap, expired[..i])
      {
        assert expired[..i + 1] == expired[..i] + [expired[i]];
        activeTimers := activeTimers - {Id(expired[i].addr, heap[expired[i].addr].sequence)};
        i := i + 1;
      }
      assert expired[..i] == expired;
    }

    method TakeExpired()
      requires forall e | e in timers :: e.addr in heap
      modifies `now, `timerfd, `expired, `timers, `activeTimers, `cancelingTimers, `ran
      ensures now == clock && ran == 0 && cancelingTimers == {}
      ensures timerfd == if old(timerfd.Armed? && timerfd.deadline <= clock) then Disarmed else old(timerfd)
      ensures expired == old(timers[..ExpiredCount(timers, clock)])
      ensures timers == old(timers[ExpiredCount(timers, clock)..])
      ensures (forall e | e in expired :: e.addr in heap) && activeTimers == old(activeTimers) - IdsOf(heap, expired)
    {
      hide IdsOf, ExpiredCount;
      now := clock;
      ReadTimerfd();
      expired := GetExpired(now);
      cancelingTimers, ran := {}, 0;
    }

    method BeginHandleRead()
      requires Valid() && Enabled(View(), Begin)
      modifies this
      ensures Live(old(View())) && View() == ApplyStep(old(View()), Begin) && Valid()
    {
      hide Inv, IdsOf, ExpiredCount, Live, ApplyStep, Enabled, BeginRead;
      ghost var q1 := Began(View());
      TakeExpired();
      callingExpiredTimers, batchNo := true, batchNo + 1;
      assert View() == q1;
    }

    method RunTimer()
      requires Valid() && Enabled(View(), RunCallback)
      modifies `ran, `fired
      ensures Live(old(View())) && View() == ApplyStep(old(View()), RunCallback) && Valid()
    {
      hide Inv;
      InvLive(View());
      StepKeepsInv(View(), RunCallback);
      fired := fired + [Fired(batchNo, heap[expired[ran].addr].sequence)];
      ran := ran + 1;
    }

    method ResetOne()
      requires Valid() && Enabled(View(), Step.Reset)
      modifies this
      ensures Live(old(View())) && View() == ApplyStep(old(View()), Step.Reset) && Valid()
    {
      hide Inv, Indexed, AddTime;
      InvLive(View());
      StepKeepsInv(View(), Step.Reset);
      FirstInsertable(View());
      var a := expired[0].addr;
      var t := heap[a];
      expired := expired[1..];
      if Repeats(t) && Id(a, t.sequence) !in cancelingTimers {
        heap := heap[a := t.(expiration := AddTime(now, t.interval))];
        var _ := InsertBoth(a);
      } else {
        freed := freed + [t.sequence];
        heap := heap - {a};
      }
    }

    /** The loop of `reset`. */
    method ResetExpired()
      requires Valid() && !callingExpiredTimers && resetting
      modifies this
      ensures Valid() && !callingExpiredTimers && resetting && expired == []
      ensures Runs(old(View()), Resets(old(|expired|))) && Runs(View(), Resets(0))
      ensures Exec(View(), Resets(0)) == Exec(old(View()), Resets(old(|expired|)))
      ensures AllSettled(View(), old(View()))
    {
      hide Inv, ApplyStep, AllSettled;
      ghost var q := View();
      ResetsRun(q);
      while expired != []
        invariant Valid() && !callingExpiredTimers && resetting
        invariant Runs(View(), Resets(|expired|)) && Exec(View(), Resets(|expired|)) == Exec(q, Resets(|q.batch|))
        decreases |expired|
      {
        ghost var v := View();
        assert Resets(|expired|)[1..] == Resets(|expired| - 1);
        ResetOne();
        ResetShrinks(v);
      }
      ResetsSettleAll(q);
      BeforeEnd(View(), q);
    }

    /** The end of `handleRead`, once every callback has returned. */
    method FinishHandleRead()
      requires Valid() && Enabled(View(), CallsDone)
      modifies this
      ensures var q := old(View()).(phase := Resetting);
              Runs(q, Resets(|q.batch|)) && View() == Exec(q, Resets(|q.batch|))
      ensures Valid() && !callingExpiredTimers && !resetting && AllSettled(View(), old(View()))
    {
      hide Inv, ApplyStep, Enabled, Live, Runs, Exec, AllSettled;
      DoneCalling(View());
      ghost var q0 := View();
      callingExpiredTimers, resetting := false, true;
      ResetExpired();
      ghost var q1 := Ended(View());
      resetting := false;
      if timers != [] && timers[0].when > 0 {
        SetTimerfd(timers[0].when);
      }
      assert View() == q1;
      SettledAll(q0, q1);
    }
  }

  lemma SettledAll(q0: Queue, q1: Queue)
    requires var q := q0.(phase := Resetting); Inv(q) && Runs(q, Resets(|q.batch|)) && q1 == Exec(q, Resets(|q.batch|))
    ensures AllSettled(q1, q0)
  {
    hide Inv, Runs, Exec, Settled;
    ResetsSettleAll(q0.(phase := Resetting));
  }

  lemma ValidSameSize(q: Queue)
    requires Inv(q)
    ensures |q.timers| == |q.active|
  {
    hide Partitioned, Numbered, Marked, NoneAfterCancel, InTime, RunsOnce;
    SameSize(q);
  }

  lemma Cancelled(q: Queue, id: Id) returns (q1: Queue)
    requires Inv(q) && Enabled(q, Cancel(id))
    ensures Live(q) && q1 == ApplyStep(q, Cancel(id)) && Inv(q1) && |q1.timers| == |q1.active|
    ensures id in q.active ==>
              id.addr in q.heap
              && q1 == q.(timers := Erase(q.timers, Entry(q.heap[id.addr].expiration, id.addr)),
                          active := q.active - {id}, heap := q.heap - {id.addr},
                          freed := q.freed + [q.heap[id.addr].sequence],
                          cancelledIn := q1.cancelledIn)
    ensures id !in q.active ==>
              q1 == q.(canceling := if q.phase == Calling then q.canceling + {id} else q.canceling,
                       cancelledIn := q1.cancelledIn)
  {
    hide Inv, Erase, WasAdded;
    InvLive(q);
    StepKeepsInv(q, Cancel(id));
    q1 := ApplyStep(q, Cancel(id));
    ValidSameSize(q1);
  }

  lemma Began(q: Queue) returns (q1: Queue)
    requires Inv(q) && Enabled(q, Begin)
    ensures Live(q) && q1 == ApplyStep(q, Begin) && Inv(q1)
    ensures q.phase == Idle && forall e | e in q.timers :: e.addr in q.heap
    ensures var k := ExpiredCount(q.timers, q.clock);
            var act := q.active - IdsOf(q.heap, q.timers[..k]);
            var fd := if q.fd.Armed? && q.fd.deadline <= q.clock then Disarmed else q.fd;
            q1 == q.(timers := q.timers[k..], active := act, canceling := {}, phase := Calling, batch := q.timers[..k],
                     ran := 0, now := q.clock, fd := fd, batchNo := q.batchNo + 1)
  {
    hide Inv, ExpiredCount, IdsOf;
    InvLive(q);
    StepKeepsInv(q, Begin);
    q1 := BeginRead(q);
  }

  lemma PendingAddable(q: Queue, a: Addr)
    requires Inv(q) && a in q.pending
    ensures Indexed(q.heap, q.timers, q.active) && a in q.heap && !Waiting(q.heap, q.active, a)
  {
    hide Indexed, Numbered, Marked, NoneAfterCancel, InTime, RunsOnce;
  }

  lemma FirstInsertable(q: Queue)
    requires Inv(q) && q.batch != []
    ensures var a := q.batch[0].addr;
            && a in q.heap && !Waiting(q.heap, q.active, a)
            && forall when: int :: Indexed(q.heap[a := q.heap[a].(expiration := when)], q.timers, q.active)
  {
    hide Indexed, Numbered, Marked, NoneAfterCancel, InTime, RunsOnce;
    FirstIsNotWaiting(q);
    var a := q.batch[0].addr;
    forall when: int ensures Indexed(q.heap[a := q.heap[a].(expiration := when)], q.timers, q.active) {
      IndexedElsewhere(q.heap, q.timers, q.active, a, q.heap[a := q.heap[a].(expiration := when)]);
    }
  }

  lemma DoneCalling(q: Queue)
    requires Inv(q) && Enabled(q, CallsDone)
    ensures q.phase == Calling && Inv(q.(phase := Resetting))
  {
    hide Inv;
    InvLive(q);
    StepKeepsInv(q, CallsDone);
  }

  lemma ResetShrinks(q: Queue)
    requires Live(q) && Enabled(q, Reset)
    ensures |ApplyStep(q, Reset).batch| == |q.batch| - 1
  {
  }

  lemma Ended(q: Queue) returns (q1: Queue)
    requires Inv(q) && q.phase == Resetting && q.batch == [] && Runs(q, Resets(0))
    ensures Exec(q, Resets(0)) == q1 == EndRead(q) && Inv(q1)
  {
    hide Inv, EndRead;
    InvLive(q);
    StepKeepsInv(q, End);
    q1 := EndRead(q);
  }
}
