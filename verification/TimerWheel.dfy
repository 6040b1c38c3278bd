/**
  The timer wheel that shuts idle connections down (`web_server/TimeWheel.h`, `TimeWheel.cc`).
  A slot holds shared references to entries; an entry whose last reference goes away shuts its
  connection down. The wheel is compared with a map from entries to deadlines.
 */
module TimerWheels {

  /** Identity of a `TimeWheelEntry` object: a number in order of creation. */
  type Entry = nat

  /** The wheel, the insertions posted to its loop by other threads, and how many entries there were. */
  datatype Wheel = Wheel(maxSecond: nat, nextSecond: nat, slots: seq<seq<Entry>>, posted: seq<Entry>, created: nat)

  ghost predicate ValidWheel(w: Wheel) {
    w.nextSecond < w.maxSecond == |w.slots|
  }

  predicate InWheel(w: Wheel, e: Entry) {
    exists i | 0 <= i < |w.slots| :: e in w.slots[i]
  }

  /** Some shared reference keeps the entry alive, so that `lock()` of a weak one succeeds. */
  predicate Alive(w: Wheel, e: Entry) {
    InWheel(w, e) || e in w.posted
  }

  // ---------------------------------------------------------------- the source's operations

  function Inserted(w: Wheel, slot: nat, e: Entry): Wheel
    requires ValidWheel(w) && slot < w.maxSecond
  {
    w.(slots := w.slots[slot := w.slots[slot] + [e]])
  }

  function InsertEntryInLoop(w: Wheel, e: Entry): Wheel
    requires ValidWheel(w)
  {
    var next := w.nextSecond - 1;
    Inserted(w, if next < 0 then next + 1 else next, e)
  }

  function OnTimer(w: Wheel): Wheel
    requires ValidWheel(w)
  {
    w.(slots := w.slots[w.nextSecond := []], nextSecond := (w.nextSecond + 1) % w.maxSecond)
  }

  /** `insertEntry` on the wheel's own loop, or from another thread. */
  function InsertEntry(w: Wheel, e: Entry, inLoop: bool): Wheel
    requires ValidWheel(w)
  {
    if inLoop then InsertEntryInLoop(w, e) else w.(posted := w.posted + [e])
  }

  datatype Step =
    /** A connection comes up: a new entry is made and inserted, and a weak reference to it kept. */
    | Connect(inLoop: bool)
    /** A request on a connection: the weak reference is locked, and inserted if there is still an entry. */
    | Request(e: Entry, inLoop: bool)
    | RunPosted
    | Tick

  predicate Enabled(w: Wheel, step: Step) {
    match step
    case Connect(_) => true
    case Request(e, _) => e < w.created
    case RunPosted => w.posted != []
    case Tick => true
  }

  function ApplyStep(w: Wheel, step: Step): Wheel
    requires ValidWheel(w) && Enabled(w, step)
  {
    match step
    case Connect(inLoop) => InsertEntry(w.(created := w.created + 1), w.created, inLoop)
    case Request(e, inLoop) => if Alive(w, e) then InsertEntry(w, e, inLoop) else w
    case RunPosted => InsertEntryInLoop(w.(posted := w.posted[1..]), w.posted[0])
    case Tick => OnTimer(w)
  }

  function Start(maxSecond: nat): Wheel { Wheel(maxSecond, 0, seq(maxSecond, _ => []), [], 0) }

  class TimerWheel {
    const maxSecond: nat
    var nextSecond: nat
    var wheel: array<seq<Entry>>
    var run: bool
    /** Functors bound to `insertEntryInLoop` in the loop's queue. */
    var posted: seq<Entry>
    var created: nat

    ghost predicate Valid()
      reads this
    {
      nextSecond < maxSecond == wheel.Length
    }

    function View(): Wheel
      reads this, wheel
    {
      Wheel(maxSecond, nextSecond, wheel[..], posted, created)
    }

    constructor (second: nat)
      requires second > 0
      ensures Valid() && fresh(wheel) && !run
      ensures View() == Start(second)
    {
      maxSecond, nextSecond, run, posted, created := second, 0, false, [], 0;
      wheel := new seq<Entry>[second](_ => []);
    }

    method OnTick()
      requires Valid()
      modifies this`nextSecond, wheel
      ensures Valid() && View() == OnTimer(old(View()))
    {
      wheel[nextSecond] := [];
      nextSecond := nextSecond + 1;
      nextSecond := nextSecond % maxSecond;
    }

    method DoInsert(e: Entry)
      requires Valid()
      modifies wheel
      ensures Valid() && View() == InsertEntryInLoop(old(View()), e)
    {
      var next: int := nextSecond - 1;
      next := if next < 0 then next + 1 else next;
      wheel[next] := wheel[next] + [e];
    }

    method DoInsertEntry(e: Entry, inLoopThread: bool)
      requires Valid()
      modifies this`posted, wheel
      ensures Valid()
      ensures View() == if !run then old(View()) else InsertEntry(old(View()), e, inLoopThread)
    {
      if run {
        if inLoopThread {
          DoInsert(e);
        } else {
          posted := posted + [e];
        }
      }
    }

    /** The entry of a new connection. */
    method OnConnection(inLoopThread: bool) returns (e: Entry)
      requires Valid() && run
      modifies this`posted, this`created, wheel
      ensures Valid() && View() == ApplyStep(old(View()), Connect(inLoopThread)) && e == old(created)
    {
      e := created;
      created := created + 1;
      DoInsertEntry(e, inLoopThread);
    }

    /** A request on a connection that has a weak reference to its entry. */
    method OnRequest(e: Entry, inLoopThread: bool) returns (locked: bool)
      requires Valid() && run && e < created
      modifies this`posted, wheel
      ensures Valid() && View() == ApplyStep(old(View()), Request(e, inLoopThread))
      ensures locked <==> Alive(old(View()), e)
    {
      locked := Alive(View(), e);
      if locked {
        DoInsertEntry(e, inLoopThread);
      }
    }
  }

  // ---------------------------------------------------------------- deadlines

  /**
    Ticks so far and, for every entry ever inserted, the tick at which it dies; the entries whose
    insertion other threads have posted; and how many entries were made.
   */
  datatype Deadlines = Deadlines(now: nat, due: map<Entry, nat>, posted: seq<Entry>, made: nat)

  const NO_DEADLINES := Deadlines(0, map[], [], 0)

  predicate Survives(s: Deadlines, e: Entry) { e in s.posted || (e in s.due && s.due[e] > s.now) }

  /** A full turn, except that an insertion at phase 0 lands in the slot that is cleared next. */
  function DeadlineOf(maxSecond: nat, now: nat): nat
    requires maxSecond > 0
  {
    if now % maxSecond == 0 then now + 1 else now + maxSecond
  }

  function Later(due: map<Entry, nat>, e: Entry, d: nat): map<Entry, nat> {
    due[e := if e in due && due[e] > d then due[e] else d]
  }

  /** From another thread an insertion is posted, and sets the deadline when it runs. */
  function Inserting(s: Deadlines, maxSecond: nat, e: Entry, inLoop: bool): Deadlines
    requires maxSecond > 0
  {
    if inLoop then s.(due := Later(s.due, e, DeadlineOf(maxSecond, s.now))) else s.(posted := s.posted + [e])
  }

  function ApplySpec(s: Deadlines, maxSecond: nat, step: Step): Deadlines
    requires maxSecond > 0
  {
    match step
    case Connect(inLoop) => Inserting(s.(made := s.made + 1), maxSecond, s.made, inLoop)
    case Request(e, inLoop) => if Survives(s, e) then Inserting(s, maxSecond, e, inLoop) else s
    case RunPosted => if s.posted == [] then s else Inserting(s.(posted := s.posted[1..]), maxSecond, s.posted[0], true)
    case Tick => s.(now := s.now + 1)
  }

  /** The tick that clears slot i next. */
  function ClearedAt(w: Wheel, now: nat, i: nat): nat
    requires ValidWheel(w) && i < w.maxSecond
  {
    now + 1 + (if i >= w.nextSecond then i - w.nextSecond else i - w.nextSecond + w.maxSecond)
  }

  ghost predicate SlotOf(w: Wheel, s: Deadlines, e: Entry, i: int)
    requires ValidWheel(w) && e in s.due
  {
    0 <= i < w.maxSecond && e in w.slots[i] && ClearedAt(w, s.now, i) == s.due[e]
  }

  ghost predicate Related(w: Wheel, s: Deadlines) {
    && ValidWheel(w)
    && s.now % w.maxSecond == w.nextSecond
    && w.posted == s.posted && w.created == s.made
    && SlotsAgree(w, s)
  }

  /** Only entries that were made are anywhere. */
  predicate Known(s: Deadlines) {
    (forall e | e in s.due :: e < s.made) && (forall e | e in s.posted :: e < s.made)
  }

  /** No slot holds an entry past its deadline, and every deadline to come has its slot. */
  ghost predicate SlotsAgree(w: Wheel, s: Deadlines)
    requires ValidWheel(w)
  {
    && (forall i, e | 0 <= i < w.maxSecond && e in w.slots[i] :: e in s.due && ClearedAt(w, s.now, i) <= s.due[e])
    && (forall e | e in s.due && s.due[e] > s.now :: exists i :: SlotOf(w, s, e, i))
  }

  ghost predicate Runs(w: Wheel, steps: seq<Step>)
    requires ValidWheel(w)
    decreases |steps|
  {
    steps == [] || (Enabled(w, steps[0]) && Runs(ApplyStep(w, steps[0]), steps[1..]))
  }

  ghost function Exec(w: Wheel, steps: seq<Step>): Wheel
    requires ValidWheel(w) && Runs(w, steps)
    decreases |steps|
  {
    if steps == [] then w else Exec(ApplyStep(w, steps[0]), steps[1..])
  }

  /** What the steps make of the deadlines, told without a wheel. */
  function Told(s: Deadlines, maxSecond: nat, steps: seq<Step>): Deadlines
    requires maxSecond > 0
    decreases |steps|
  {
    if steps == [] then s else Told(ApplySpec(s, maxSecond, steps[0]), maxSecond, steps[1..])
  }

  // ---------------------------------------------------------------- refinement

  lemma Gap(n: nat, q: nat, q': nat)
    requires q' < q
    ensures n * q >= n * q' + n
  {
    assert n * q == n * (q - 1) + n;
    if q' < q - 1 { Gap(n, q - 1, q'); }
  }

  lemma ModUnique(n: nat, q: nat, r: nat)
    requires r < n
    ensures (n * q + r) % n == r
  {
    var x := n * q + r;
    var q', r' := x / n, x % n;
    assert x == n * q' + r';
    if q' < q { Gap(n, q, q'); } else if q < q' { Gap(n, q', q); }
  }

  lemma NextPhase(now: nat, n: nat)
    requires n > 0
    ensures (now + 1) % n == if now % n + 1 == n then 0 else now % n + 1
  {
    var q, r := now / n, now % n;
    assert now == n * q + r;
    if r + 1 == n {
      assert now + 1 == n * (q + 1);
      ModUnique(n, q + 1, 0);
    } else {
      ModUnique(n, q, r + 1);
    }
  }

  lemma WrapAround(r: nat, n: nat)
    requires r < n
    ensures (r + 1) % n == if r + 1 == n then 0 else r + 1
  {
    if r + 1 == n { ModUnique(n, 1, 0); } else { ModUnique(n, 0, r + 1); }
  }

  lemma TickSlots(w: Wheel, s: Deadlines, w': Wheel)
    requires ValidWheel(w) && SlotsAgree(w, s)
    requires w' == w.(slots := w.slots[w.nextSecond := []],
                      nextSecond := if w.nextSecond + 1 == w.maxSecond then 0 else w.nextSecond + 1)
    ensures SlotsAgree(w', s.(now := s.now + 1))
  {
    var s' := s.(now := s.now + 1);
    forall i, e | 0 <= i < w'.maxSecond && e in w'.slots[i]
      ensures e in s'.due && ClearedAt(w', s'.now, i) <= s'.due[e]
    {
      assert i != w.nextSecond && e in w.slots[i];
    }
    forall e | e in s'.due && s'.due[e] > s'.now ensures exists i :: SlotOf(w', s', e, i) {
      var i :| SlotOf(w, s, e, i);
      assert i != w.nextSecond;
      assert SlotOf(w', s', e, i);
    }
  }

  lemma TickRelated(w: Wheel, s: Deadlines)
    requires Related(w, s)
    ensures Related(OnTimer(w), s.(now := s.now + 1))
  {
    hide SlotsAgree;
    NextPhase(s.now, w.maxSecond);
    WrapAround(w.nextSecond, w.maxSecond);
    TickSlots(w, s, OnTimer(w));
  }

  /** The slot an insertion goes to is the one cleared at the deadline. */
  lemma InsertSlot(w: Wheel, s: Deadlines) returns (slot: nat)
    requires Related(w, s)
    ensures slot < w.maxSecond && ClearedAt(w, s.now, slot) == DeadlineOf(w.maxSecond, s.now)
    ensures slot == if w.nextSecond == 0 then 0 else w.nextSecond - 1
  {
    slot := if w.nextSecond == 0 then 0 else w.nextSecond - 1;
  }

  lemma InsertedHas(w: Wheel, slot: nat, e: Entry, i: int, x: Entry)
    requires ValidWheel(w) && slot < w.maxSecond && 0 <= i < w.maxSecond
    ensures x in Inserted(w, slot, e).slots[i] <==> x in w.slots[i] || (x == e && i == slot)
  {
  }

  lemma InsertedSlot(w: Wheel, s: Deadlines, e: Entry, slot: nat, d: nat, x: Entry)
    requires ValidWheel(w) && SlotsAgree(w, s) && slot < w.maxSecond && ClearedAt(w, s.now, slot) == d
    requires x in Later(s.due, e, d) && Later(s.due, e, d)[x] > s.now
    ensures exists i :: SlotOf(Inserted(w, slot, e), s.(due := Later(s.due, e, d)), x, i)
  {
    var w', s' := Inserted(w, slot, e), s.(due := Later(s.due, e, d));
    if x == e && s'.due[x] == d {
      assert SlotOf(w', s', x, slot);
    } else {
      var i :| SlotOf(w, s, x, i);
      InsertedHas(w, slot, e, i, x);
      assert SlotOf(w', s', x, i);
    }
  }

  lemma InsertedDeadline(w: Wheel, s: Deadlines, e: Entry, slot: nat, d: nat, i: nat, x: Entry)
    requires ValidWheel(w) && SlotsAgree(w, s) && slot < w.maxSecond && ClearedAt(w, s.now, slot) == d
    requires i < w.maxSecond && x in Inserted(w, slot, e).slots[i]
    ensures var due := Later(s.due, e, d); x in due && ClearedAt(w, s.now, i) <= due[x]
  {
    InsertedHas(w, slot, e, i, x);
  }

  lemma InsertSlots(w: Wheel, s: Deadlines, e: Entry, slot: nat, d: nat)
    requires ValidWheel(w) && SlotsAgree(w, s) && slot < w.maxSecond && ClearedAt(w, s.now, slot) == d
    ensures SlotsAgree(Inserted(w, slot, e), s.(due := Later(s.due, e, d)))
  {
    var w', s' := Inserted(w, slot, e), s.(due := Later(s.due, e, d));
    forall i, x | 0 <= i < w'.maxSecond && x in w'.slots[i]
      ensures x in s'.due && ClearedAt(w', s'.now, i) <= s'.due[x]
    {
      InsertedDeadline(w, s, e, slot, d, i, x);
    }
    forall x | x in s'.due && s'.due[x] > s'.now ensures exists i :: SlotOf(w', s', x, i) {
      InsertedSlot(w, s, e, slot, d, x);
    }
  }

  lemma InsertRelated(w: Wheel, s: Deadlines, e: Entry)
    requires Related(w, s)
    ensures Related(InsertEntryInLoop(w, e), s.(due := Later(s.due, e, DeadlineOf(w.maxSecond, s.now))))
  {
    hide SlotsAgree, Later;
    var slot := InsertSlot(w, s);
    InsertSlots(w, s, e, slot, DeadlineOf(w.maxSecond, s.now));
  }

  lemma StepRelated(w: Wheel, s: Deadlines, step: Step)
    requires Related(w, s) && Known(s) && Enabled(w, step)
    ensures Related(ApplyStep(w, step), ApplySpec(s, w.maxSecond, step))
    ensures Known(ApplySpec(s, w.maxSecond, step))
  {
    hide SlotsAgree, InWheel;
    StepKnown(w, s, step);
    match step
    case Connect(inLoop) =>
      Aside(w, s, w.posted, w.created + 1);
      InsertingRelated(w.(created := w.created + 1), s.(made := s.made + 1), w.created, inLoop);
    case Request(e, inLoop) =>
      AliveSurvives(w, s, e);
      if Alive(w, e) { InsertingRelated(w, s, e, inLoop); }
    case RunPosted =>
      Aside(w, s, w.posted[1..], w.created);
      InsertRelated(w.(posted := w.posted[1..]), s.(posted := s.posted[1..]), w.posted[0]);
    case Tick => TickRelated(w, s);
  }

  lemma StepKnown(w: Wheel, s: Deadlines, step: Step)
    requires Related(w, s) && Known(s) && Enabled(w, step)
    ensures Known(ApplySpec(s, w.maxSecond, step))
  {
    hide SlotsAgree;
    if step.RunPosted? { assert s.posted[0] in s.posted && forall e | e in s.posted[1..] :: e in s.posted; }
  }

  lemma InsertingRelated(w: Wheel, s: Deadlines, e: Entry, inLoop: bool)
    requires Related(w, s)
    ensures Related(InsertEntry(w, e, inLoop), Inserting(s, w.maxSecond, e, inLoop))
  {
    hide SlotsAgree;
    if inLoop { InsertRelated(w, s, e); } else { Aside(w, s, w.posted + [e], w.created); }
  }

  /** What is posted and how many entries there were is nothing to the slots. */
  lemma Aside(w: Wheel, s: Deadlines, posted: seq<Entry>, made: nat)
    requires Related(w, s)
    ensures Related(w.(posted := posted, created := made), s.(posted := posted, made := made))
  {
    var w', s' := w.(posted := posted, created := made), s.(posted := posted, made := made);
    forall e | e in s'.due && s'.due[e] > s'.now ensures exists i :: SlotOf(w', s', e, i) {
      var i :| SlotOf(w, s, e, i);
      assert SlotOf(w', s', e, i);
    }
  }

  lemma AliveSurvives(w: Wheel, s: Deadlines, e: Entry)
    requires Related(w, s)
    ensures Alive(w, e) <==> Survives(s, e)
  {
    hide SlotsAgree, InWheel;
    WheelIsDeadlineMap(w, s, e);
  }

  /** In related states an entry is in the wheel exactly until its deadline, at most one turn away. */
  lemma WheelIsDeadlineMap(w: Wheel, s: Deadlines, e: Entry)
    requires Related(w, s)
    ensures InWheel(w, e) <==> e in s.due && s.due[e] > s.now
    ensures e in s.due ==> s.due[e] <= s.now + w.maxSecond
  {
    if InWheel(w, e) {
      var i :| 0 <= i < |w.slots| && e in w.slots[i];
      assert ClearedAt(w, s.now, i) <= s.due[e];
    }
    if e in s.due && s.due[e] > s.now {
      var i :| SlotOf(w, s, e, i);
      assert e in w.slots[i];
    }
  }

  lemma {:induction false} RunRelated(w: Wheel, s: Deadlines, steps: seq<Step>)
    requires Related(w, s) && Known(s) && Runs(w, steps)
    ensures var w', s' := Exec(w, steps), Told(s, w.maxSecond, steps);
            Related(w', s') && Known(s') && w'.maxSecond == w.maxSecond
    decreases |steps|
  {
    hide SlotsAgree, InWheel, Known;
    if steps != [] {
      StepRelated(w, s, steps[0]);
      RunRelated(ApplyStep(w, steps[0]), ApplySpec(s, w.maxSecond, steps[0]), steps[1..]);
    }
  }

  /**
    Over every run of connections, requests and ticks, the wheel does what a map of deadlines does: an
    entry survives exactly until its latest deadline, and for as long as an insertion of it is still
    posted, so a request meets the same entries alive; no deadline is more than one turn away.
   */
  lemma SurvivesUntilDeadline(maxSecond: nat, steps: seq<Step>, e: Entry)
    requires maxSecond > 0 && Runs(Start(maxSecond), steps)
    ensures var w, s := Exec(Start(maxSecond), steps), Told(NO_DEADLINES, maxSecond, steps);
            && (Alive(w, e) <==> e in s.posted || (e in s.due && s.due[e] > s.now))
            && (e in s.due ==> s.due[e] <= s.now + maxSecond)
            && w.posted == s.posted && w.created == s.made
  {
    hide Runs, Exec, Told;
    assert Related(Start(maxSecond), NO_DEADLINES);
    RunRelated(Start(maxSecond), NO_DEADLINES, steps);
    var w, s := Exec(Start(maxSecond), steps), Told(NO_DEADLINES, maxSecond, steps);
    WheelIsDeadlineMap(w, s, e);
  }

  /** An entry inserted from another thread is alive from the call on, and is in the wheel once the post has run. */
  lemma PostedSurvives(w: Wheel, s: Deadlines)
    requires Related(w, s) && Known(s)
    ensures var w0 := ApplyStep(w, Connect(false)); Alive(w0, w.created) && w0.posted == w.posted + [w.created]
    ensures w.posted != [] ==>
              var w1, s1 := ApplyStep(w, RunPosted), ApplySpec(s, w.maxSecond, RunPosted);
              && w1.posted == w.posted[1..] && InWheel(w1, w.posted[0])
              && w.posted[0] in s1.due && s1.due[w.posted[0]] >= DeadlineOf(w.maxSecond, s.now)
  {
    hide SlotsAgree, InWheel;
    StepRelated(w, s, Connect(false));
    AliveSurvives(ApplyStep(w, Connect(false)), ApplySpec(s, w.maxSecond, Connect(false)), w.created);
    if w.posted != [] {
      StepRelated(w, s, RunPosted);
      WheelIsDeadlineMap(ApplyStep(w, RunPosted), ApplySpec(s, w.maxSecond, RunPosted), w.posted[0]);
    }
  }

  /** The step that destroys an entry, and so shuts its connection down, is the tick of its deadline. */
  lemma DestroyedAtDeadline(w: Wheel, s: Deadlines, step: Step, e: Entry)
    requires Related(w, s) && Known(s) && Enabled(w, step)
    ensures Alive(w, e) && !Alive(ApplyStep(w, step), e)
            <==> step == Tick && e in s.due && s.due[e] == s.now + 1 && e !in s.posted
  {
    hide SlotsAgree, InWheel;
    StepRelated(w, s, step);
    WheelIsDeadlineMap(w, s, e);
    WheelIsDeadlineMap(ApplyStep(w, step), ApplySpec(s, w.maxSecond, step), e);
    if step.RunPosted? {
      assert w.posted == [w.posted[0]] + w.posted[1..];
    }
  }

  /** An insertion never shortens a life, and prolongs it to at most one turn from now. */
  lemma InsertProlongs(w: Wheel, s: Deadlines, e: Entry, other: Entry)
    requires Related(w, s)
    ensures var due := Inserting(s, w.maxSecond, e, true).due;
            && due[e] >= DeadlineOf(w.maxSecond, s.now)
            && s.now < due[e] <= s.now + w.maxSecond
            && (e in s.due ==> due[e] >= s.due[e])
            && (other != e ==> (other in due <==> other in s.due) && (other in due ==> due[other] == s.due[other]))
  {
    InsertRelated(w, s, e);
    WheelIsDeadlineMap(InsertEntryInLoop(w, e), s.(due := Later(s.due, e, DeadlineOf(w.maxSecond, s.now))), e);
  }

  /** A dead entry comes back by no step: a request on its connection finds nothing to lock. */
  lemma DeadStep(w: Wheel, s: Deadlines, step: Step, e: Entry)
    requires Related(w, s) && Known(s) && Enabled(w, step) && e < w.created && !Alive(w, e)
    ensures !Alive(ApplyStep(w, step), e) && e < ApplyStep(w, step).created
  {
    hide SlotsAgree, InWheel;
    StepRelated(w, s, step);
    WheelIsDeadlineMap(w, s, e);
    WheelIsDeadlineMap(ApplyStep(w, step), ApplySpec(s, w.maxSecond, step), e);
  }

  /** The wheel shuts a connection down at most once, whatever requests arrive on it afterwards. */
  lemma {:induction false} DeadStaysDead(w: Wheel, s: Deadlines, steps: seq<Step>, e: Entry)
    requires Related(w, s) && Known(s) && Runs(w, steps) && e < w.created && !Alive(w, e)
    ensures !Alive(Exec(w, steps), e)
    decreases |steps|
  {
    hide SlotsAgree, Alive, Known, ApplyStep, ApplySpec;
    if steps != [] {
      StepRelated(w, s, steps[0]);
      DeadStep(w, s, steps[0], e);
      DeadStaysDead(ApplyStep(w, steps[0]), ApplySpec(s, w.maxSecond, steps[0]), steps[1..], e);
    }
  }
}
