/**
  The two pollers (`muduo/net/poller/PollPoller.cc`, `EPollPoller.cc`) and the channels they keep
  (`muduo/net/Channel.h`). `PollPoller` keeps an array for poll(2) and stores each channel's slot
  in the channel; `EPollPoller` keeps a kernel set and stores in the channel whether it is in it.
  Both are compared with a map from descriptors to event masks.
 */
module Pollers {

  /** `events_`: the two groups of bits that are ever set, `kReadEvent` and `kWriteEvent`. */
  datatype Mask = Mask(read: bool, write: bool)
  type Fd = nat

  const NONE_EVENT := Mask(false, false)

  // ---------------------------------------------------------------- what callers see

  /** A registered channel: its mask, and whether it was last set aside with an empty one. */
  datatype Registration = Registration(mask: Mask, aside: bool)

  type Interest = map<Fd, Registration>

  /** `updateChannel` registers a new descriptor or replaces the mask of a known one. */
  function Updated(m: Interest, fd: Fd, mask: Mask): Interest {
    m[fd := Registration(mask, fd in m && mask == NONE_EVENT)]
  }

  /** `removeChannel` wants a channel whose last update was an empty mask, and not its first one. */
  predicate Removable(m: Interest, fd: Fd) {
    fd in m && m[fd].aside
  }

  function Removed(m: Interest, fd: Fd): Interest { m - {fd} }

  /** The descriptors with something to wait for. */
  function Wanted(m: Interest): map<Fd, Mask> {
    map fd | fd in m && m[fd].mask != NONE_EVENT :: m[fd].mask
  }

  // ---------------------------------------------------------------- PollPoller

  datatype PollFd = PollFd(fd: int, events: Mask, revents: nat)

  /** The array for poll(2), and the slot stored in each registered channel. */
  datatype PollTable = PollTable(pollfds: seq<PollFd>, index: map<Fd, int>)

  /** A negative descriptor stands for a channel that poll(2) is to ignore. */
  function Encoded(fd: Fd): int { -(fd as int) - 1 }

  function SlotFd(p: PollFd): Fd { if p.fd >= 0 then p.fd else -p.fd - 1 }

  /** Channels and slots are in one-to-one correspondence through the stored indices. */
  ghost predicate PollValid(s: PollTable) {
    && (forall fd | fd in s.index :: 0 <= s.index[fd] < |s.pollfds| && SlotFd(s.pollfds[s.index[fd]]) == fd)
    && (forall i | 0 <= i < |s.pollfds| :: SlotFd(s.pollfds[i]) in s.index && s.index[SlotFd(s.pollfds[i])] == i)
    && (forall i | 0 <= i < |s.pollfds| :: s.pollfds[i].fd < 0 ==> s.pollfds[i].events == NONE_EVENT)
  }

  function PollUpdate(s: PollTable, fd: Fd, mask: Mask): PollTable
    requires PollValid(s)
  {
    if fd !in s.index then
      PollTable(s.pollfds + [PollFd(fd, mask, 0)], s.index[fd := |s.pollfds|])
    else
      s.(pollfds := s.pollfds[s.index[fd] := PollFd(if mask == NONE_EVENT then Encoded(fd) else fd, mask, 0)])
  }

  function PollRemove(s: PollTable, fd: Fd): PollTable
    requires PollValid(s) && fd in s.index
  {
    var idx, last := s.index[fd], |s.pollfds| - 1;
    if idx == last then PollTable(s.pollfds[..last], s.index - {fd})
    else
      var atEnd := SlotFd(s.pollfds[last]);
      PollTable(s.pollfds[idx := s.pollfds[last]][..last], (s.index - {fd})[atEnd := idx])
  }

  function PollInterest(s: PollTable): Interest
    requires PollValid(s)
  {
    map fd | fd in s.index :: Registration(s.pollfds[s.index[fd]].events, s.pollfds[s.index[fd]].fd < 0)
  }

  /** What poll(2) waits for. */
  function PollMonitored(s: PollTable): map<Fd, Mask>
    requires PollValid(s)
  {
    map fd | fd in s.index && s.pollfds[s.index[fd]].fd >= 0 && s.pollfds[s.index[fd]].events != NONE_EVENT ::
      s.pollfds[s.index[fd]].events
  }

  lemma PollRegisterValid(s: PollTable, fd: Fd, mask: Mask)
    requires PollValid(s) && fd !in s.index
    ensures PollValid(PollUpdate(s, fd, mask))
  {
  }

  lemma PollReplaceValid(s: PollTable, fd: Fd, mask: Mask)
    requires PollValid(s) && fd in s.index
    ensures PollValid(PollUpdate(s, fd, mask))
  {
    var t := PollUpdate(s, fd, mask);
    forall i | 0 <= i < |t.pollfds| ensures SlotFd(t.pollfds[i]) == SlotFd(s.pollfds[i]) {
      assert i == s.index[fd] ==> SlotFd(t.pollfds[i]) == fd;
    }
  }

  /** A channel's slot is nobody else's. */
  lemma SlotsDiffer(s: PollTable, fd: Fd, g: Fd)
    requires PollValid(s) && fd in s.index && g in s.index && fd != g
    ensures s.index[fd] != s.index[g]
  {
  }

  lemma PollUpdateRefines(s: PollTable, fd: Fd, mask: Mask)
    requires PollValid(s)
    ensures PollValid(PollUpdate(s, fd, mask))
    ensures PollInterest(PollUpdate(s, fd, mask)) == Updated(PollInterest(s), fd, mask)
  {
    if fd in s.index { PollReplaceValid(s, fd, mask); } else { PollRegisterValid(s, fd, mask); }
    var t := PollUpdate(s, fd, mask);
    forall g | g in t.index ensures PollInterest(t)[g] == Updated(PollInterest(s), fd, mask)[g] {
      if g != fd && fd in s.index { SlotsDiffer(s, fd, g); }
    }
  }

  lemma PopValid(s: PollTable, fd: Fd)
    requires PollValid(s) && fd in s.index && s.index[fd] == |s.pollfds| - 1
    ensures PollValid(PollRemove(s, fd))
  {
    var t := PollRemove(s, fd);
    forall i | 0 <= i < |t.pollfds| ensures SlotFd(t.pollfds[i]) in t.index && t.index[SlotFd(t.pollfds[i])] == i {
      assert t.pollfds[i] == s.pollfds[i];
    }
  }

  lemma SwapValid(s: PollTable, fd: Fd)
    requires PollValid(s) && fd in s.index && s.index[fd] != |s.pollfds| - 1
    ensures PollValid(PollRemove(s, fd))
  {
    var idx, last, t := s.index[fd], |s.pollfds| - 1, PollRemove(s, fd);
    var atEnd := SlotFd(s.pollfds[last]);
    assert s.index[atEnd] == last;
    forall i | 0 <= i < |t.pollfds|
      ensures SlotFd(t.pollfds[i]) in t.index && t.index[SlotFd(t.pollfds[i])] == i
      ensures t.pollfds[i].fd < 0 ==> t.pollfds[i].events == NONE_EVENT
    {
      var j := if i == idx then last else i;
      assert t.pollfds[i] == s.pollfds[j];
      assert s.index[SlotFd(s.pollfds[j])] == j;
    }
    forall g | g in t.index ensures 0 <= t.index[g] < |t.pollfds| && SlotFd(t.pollfds[t.index[g]]) == g {
      if g != atEnd { assert s.index[g] != last; }
    }
  }

  /** Moving the last slot into the gap keeps every other channel and its mask. */
  lemma PollRemoveValid(s: PollTable, fd: Fd)
    requires PollValid(s) && fd in s.index
    ensures PollValid(PollRemove(s, fd))
    ensures PollRemove(s, fd).index.Keys == s.index.Keys - {fd}
    ensures forall g | g in s.index && g != fd ::
              PollRemove(s, fd).pollfds[PollRemove(s, fd).index[g]] == s.pollfds[s.index[g]]
  {
    var last := |s.pollfds| - 1;
    if s.index[fd] == last { PopValid(s, fd); } else { SwapValid(s, fd); }
    forall g | g in s.index && g != fd
      ensures PollRemove(s, fd).pollfds[PollRemove(s, fd).index[g]] == s.pollfds[s.index[g]]
    {
      SlotsDiffer(s, fd, g);
    }
  }

  lemma PollRemoveShape(s: PollTable, fd: Fd)
    requires PollValid(s) && fd in s.index
    ensures var idx, last := s.index[fd], |s.pollfds| - 1;
            && 0 <= idx <= last && PollValid(PollRemove(s, fd))
            && PollRemove(s, fd) ==
               PollTable(s.pollfds[idx := s.pollfds[last]][..last],
                         if idx == last then s.index - {fd} else (s.index - {fd})[SlotFd(s.pollfds[last]) := idx])
  {
    PollRemoveValid(s, fd);
  }

  lemma PollRemoveRefines(s: PollTable, fd: Fd)
    requires PollValid(s) && fd in s.index
    ensures PollValid(PollRemove(s, fd))
    ensures PollInterest(PollRemove(s, fd)) == Removed(PollInterest(s), fd)
  {
    hide PollRemove;
    PollRemoveValid(s, fd);
  }

  lemma PollMonitorsWanted(s: PollTable)
    requires PollValid(s)
    ensures PollMonitored(s) == Wanted(PollInterest(s))
  {
  }

  // ---------------------------------------------------------------- EPollPoller

  const NEW: int := -1
  const ADDED: int := 1
  const DELETED: int := 2

  /** The state stored in each channel, and the kernel's interest list. */
  datatype EpollTable = EpollTable(index: map<Fd, int>, kernel: map<Fd, Mask>)

  /** epoll_ctl(2) fails with EEXIST or ENOENT outside these preconditions. */
  function CtlAdd(k: map<Fd, Mask>, fd: Fd, mask: Mask): map<Fd, Mask>
    requires fd !in k
  {
    k[fd := mask]
  }

  function CtlMod(k: map<Fd, Mask>, fd: Fd, mask: Mask): map<Fd, Mask>
    requires fd in k
  {
    k[fd := mask]
  }

  function CtlDel(k: map<Fd, Mask>, fd: Fd): map<Fd, Mask>
    requires fd in k
  {
    k - {fd}
  }

  /** The channels marked as added are exactly the kernel's. */
  ghost predicate EpollValid(s: EpollTable) {
    && (forall fd | fd in s.index :: s.index[fd] == ADDED || s.index[fd] == DELETED)
    && (forall fd :: fd in s.kernel <==> fd in s.index && s.index[fd] == ADDED)
  }

  function EpollUpdate(s: EpollTable, fd: Fd, mask: Mask): EpollTable
    requires EpollValid(s)
  {
    if fd !in s.index || s.index[fd] == DELETED then EpollTable(s.index[fd := ADDED], CtlAdd(s.kernel, fd, mask))
    else if mask == NONE_EVENT then EpollTable(s.index[fd := DELETED], CtlDel(s.kernel, fd))
    else s.(kernel := CtlMod(s.kernel, fd, mask))
  }

  function EpollRemove(s: EpollTable, fd: Fd): EpollTable
    requires EpollValid(s) && fd in s.index
  {
    EpollTable(s.index - {fd}, if s.index[fd] == ADDED then CtlDel(s.kernel, fd) else s.kernel)
  }

  function EpollMonitored(s: EpollTable): map<Fd, Mask> {
    map fd | fd in s.kernel && s.kernel[fd] != NONE_EVENT :: s.kernel[fd]
  }

  ghost predicate EpollAgrees(s: EpollTable, m: Interest) {
    && s.index.Keys == m.Keys
    && (forall fd | fd in s.kernel :: fd in m && s.kernel[fd] == m[fd].mask)
    && (forall fd | fd in m && m[fd].mask != NONE_EVENT :: fd in s.kernel)
  }

  lemma EpollUpdateValid(s: EpollTable, fd: Fd, mask: Mask)
    requires EpollValid(s)
    ensures EpollValid(EpollUpdate(s, fd, mask))
    ensures fd in s.kernel <==> fd in s.index && s.index[fd] == ADDED
    ensures fd in s.index ==> s.index[fd] == ADDED || s.index[fd] == DELETED
  {
  }

  lemma EpollUpdateRefines(s: EpollTable, m: Interest, fd: Fd, mask: Mask)
    requires EpollValid(s) && EpollAgrees(s, m)
    ensures EpollValid(EpollUpdate(s, fd, mask))
    ensures EpollAgrees(EpollUpdate(s, fd, mask), Updated(m, fd, mask))
  {
  }

  lemma EpollRemoveRefines(s: EpollTable, m: Interest, fd: Fd)
    requires EpollValid(s) && EpollAgrees(s, m) && fd in s.index
    ensures EpollValid(EpollRemove(s, fd))
    ensures EpollAgrees(EpollRemove(s, fd), Removed(m, fd))
  {
  }

  lemma EpollMonitorsWanted(s: EpollTable, m: Interest)
    requires EpollValid(s) && EpollAgrees(s, m)
    ensures EpollMonitored(s) == Wanted(m)
  {
  }

  /**
    Empty masks are another matter: on a registered channel each update with an empty mask takes
    the descriptor out of the kernel set or, the next time, puts it back with that mask.
   */
  lemma EmptyMaskToggles(s: EpollTable, fd: Fd)
    requires EpollValid(s) && fd in s.index
    ensures fd in EpollUpdate(s, fd, NONE_EVENT).kernel <==> fd !in s.kernel
    ensures EpollUpdate(EpollUpdate(s, fd, NONE_EVENT), fd, NONE_EVENT).kernel.Keys == s.kernel.Keys
  {
  }

  // ---------------------------------------------------------------- the same calls on both

  datatype Call = Update(fd: Fd, mask: Mask) | Remove(fd: Fd)

  predicate Legal(m: Interest, c: Call) { c.Remove? ==> Removable(m, c.fd) }

  function ApplyCall(m: Interest, c: Call): Interest {
    match c
    case Update(fd, mask) => Updated(m, fd, mask)
    case Remove(fd) => Removed(m, fd)
  }

  ghost predicate LegalRun(m: Interest, calls: seq<Call>)
    decreases |calls|
  {
    calls == [] || (Legal(m, calls[0]) && LegalRun(ApplyCall(m, calls[0]), calls[1..]))
  }

  function Exec(m: Interest, calls: seq<Call>): Interest
    decreases |calls|
  {
    if calls == [] then m else Exec(ApplyCall(m, calls[0]), calls[1..])
  }

  function PollApply(s: PollTable, c: Call): PollTable
    requires PollValid(s) && (c.Remove? ==> c.fd in s.index)
  {
    match c
    case Update(fd, mask) => PollUpdate(s, fd, mask)
    case Remove(fd) => PollRemove(s, fd)
  }

  function EpollApply(s: EpollTable, c: Call): EpollTable
    requires EpollValid(s) && (c.Remove? ==> c.fd in s.index)
  {
    match c
    case Update(fd, mask) => EpollUpdate(s, fd, mask)
    case Remove(fd) => EpollRemove(s, fd)
  }

  lemma PollStep(s: PollTable, c: Call)
    requires PollValid(s) && Legal(PollInterest(s), c)
    ensures PollValid(PollApply(s, c)) && PollInterest(PollApply(s, c)) == ApplyCall(PollInterest(s), c)
  {
    assert c.Remove? ==> c.fd in s.index;
    hide PollUpdate, PollRemove, PollInterest, Updated, Removed;
    match c
    case Update(fd, mask) => PollUpdateRefines(s, fd, mask);
    case Remove(fd) => PollRemoveRefines(s, fd);
  }

  lemma EpollStep(s: EpollTable, m: Interest, c: Call)
    requires EpollValid(s) && EpollAgrees(s, m) && Legal(m, c)
    ensures EpollValid(EpollApply(s, c)) && EpollAgrees(EpollApply(s, c), ApplyCall(m, c))
  {
    hide EpollUpdate, EpollRemove;
    match c
    case Update(fd, mask) => EpollUpdateRefines(s, m, fd, mask);
    case Remove(fd) => EpollRemoveRefines(s, m, fd);
  }

  /** Where the calls have led either poller. */
  ghost predicate PollReaches(s: PollTable, calls: seq<Call>, t: PollTable)
    decreases |calls|
  {
    if calls == [] then s == t
    else PollValid(s) && (calls[0].Remove? ==> calls[0].fd in s.index)
         && PollReaches(PollApply(s, calls[0]), calls[1..], t)
  }

  ghost predicate EpollReaches(s: EpollTable, calls: seq<Call>, t: EpollTable)
    decreases |calls|
  {
    if calls == [] then s == t
    else EpollValid(s) && (calls[0].Remove? ==> calls[0].fd in s.index)
         && EpollReaches(EpollApply(s, calls[0]), calls[1..], t)
  }

  lemma {:induction false} PollRun(s: PollTable, calls: seq<Call>) returns (t: PollTable)
    requires PollValid(s) && LegalRun(PollInterest(s), calls)
    ensures PollReaches(s, calls, t) && PollValid(t) && PollInterest(t) == Exec(PollInterest(s), calls)
    decreases |calls|
  {
    if calls == [] {
      t := s;
    } else {
      PollStep(s, calls[0]);
      t := PollRun(PollApply(s, calls[0]), calls[1..]);
    }
  }

  lemma {:induction false} EpollRun(s: EpollTable, m: Interest, calls: seq<Call>) returns (t: EpollTable)
    requires EpollValid(s) && EpollAgrees(s, m) && LegalRun(m, calls)
    ensures EpollReaches(s, calls, t) && EpollValid(t) && EpollAgrees(t, Exec(m, calls))
    decreases |calls|
  {
    if calls == [] {
      t := s;
    } else {
      EpollStep(s, m, calls[0]);
      t := EpollRun(EpollApply(s, calls[0]), ApplyCall(m, calls[0]), calls[1..]);
    }
  }

  lemma {:induction false} PollReachesOne(s: PollTable, calls: seq<Call>, t: PollTable, t': PollTable)
    requires PollReaches(s, calls, t) && PollReaches(s, calls, t')
    ensures t == t'
    decreases |calls|
  {
    hide PollApply;
    if calls != [] { PollReachesOne(PollApply(s, calls[0]), calls[1..], t, t'); }
  }

  lemma {:induction false} EpollReachesOne(s: EpollTable, calls: seq<Call>, t: EpollTable, t': EpollTable)
    requires EpollReaches(s, calls, t) && EpollReaches(s, calls, t')
    ensures t == t'
    decreases |calls|
  {
    hide EpollApply;
    if calls != [] { EpollReachesOne(EpollApply(s, calls[0]), calls[1..], t, t'); }
  }

  /**
    After the same legal calls, poll(2) and epoll(7) wait for the same events on the same
    descriptors, and those are what the callers asked for.
   */
  lemma PollersAgree(calls: seq<Call>, p: PollTable, e: EpollTable)
    requires LegalRun(map[], calls)
    requires PollReaches(PollTable([], map[]), calls, p) && EpollReaches(EpollTable(map[], map[]), calls, e)
    ensures PollValid(p) && EpollValid(e)
    ensures PollMonitored(p) == EpollMonitored(e) == Wanted(Exec(map[], calls))
  {
    hide PollReaches, EpollReaches, PollMonitored, EpollMonitored, Wanted, LegalRun, Exec;
    var p0, e0 := PollTable([], map[]), EpollTable(map[], map[]);
    assert PollInterest(p0) == map[];
    var t := PollRun(p0, calls);
    PollReachesOne(p0, calls, p, t);
    var u := EpollRun(e0, map[], calls);
    EpollReachesOne(e0, calls, e, u);
    PollMonitorsWanted(p);
    EpollMonitorsWanted(e, Exec(map[], calls));
  }

  // ---------------------------------------------------------------- the source's classes

  class Channel {
    const fd: Fd
    var events: Mask
    var revents: nat
    var index: int

    constructor (fd: Fd)
      ensures this.fd == fd && events == NONE_EVENT && index == NEW
    {
      this.fd := fd;
      events, revents, index := NONE_EVENT, 0, NEW;
    }

    predicate IsWriting()
      reads this
    {
      events.write
    }

    predicate IsReading()
      reads this
    {
      events.read
    }

    /** The mask operations; each caller goes on to `update()`. */
    method EnableReading()
      modifies this`events
      ensures IsReading() && IsWriting() == old(IsWriting()) && events != NONE_EVENT
    {
      events := events.(read := true);
    }

    method DisableReading()
      modifies this`events
      ensures !IsReading() && IsWriting() == old(IsWriting())
    {
      events := events.(read := false);
    }

    method EnableWriting()
      modifies this`events
      ensures IsWriting() && IsReading() == old(IsReading()) && events != NONE_EVENT
    {
      events := events.(write := true);
    }

    method DisableWriting()
      modifies this`events
      ensures !IsWriting() && IsReading() == old(IsReading())
    {
      events := events.(write := false);
    }

    method DisableAll()
      modifies this`events
      ensures !IsReading() && !IsWriting() && events == NONE_EVENT
    {
      events := NONE_EVENT;
    }
  }

  class PollPoller {
    var pollfds: seq<PollFd>
    var channels: map<Fd, Channel>
    /** The indices stored in the registered channels. */
    ghost var indices: map<Fd, int>

    ghost function View(): PollTable
      reads this
    {
      PollTable(pollfds, indices)
    }

    /** Each registered channel knows its descriptor and its slot. */
    ghost predicate Linked()
      reads this`channels, this`indices, channels.Values
    {
      && (forall fd :: fd in channels <==> fd in indices)
      && (forall fd | fd in channels :: channels[fd].fd == fd && channels[fd].index == indices[fd])
    }

    ghost predicate Valid()
      reads this, channels.Values
    {
      Linked() && PollValid(View())
    }

    constructor ()
      ensures Valid() && channels == map[] && PollInterest(View()) == map[]
    {
      pollfds, channels, indices := [], map[], map[];
    }

    method Register(channel: Channel)
      requires Valid() && channel.fd !in channels && channel.index < 0
      modifies this, channel`index
      ensures View() == PollUpdate(old(View()), channel.fd, channel.events)
      ensures channels == old(channels)[channel.fd := channel] && Valid()
    {
      PollRegisterValid(View(), channel.fd, channel.events);
      hide PollValid;
      pollfds := pollfds + [PollFd(channel.fd, channel.events, 0)];
      channel.index := |pollfds| - 1;
      channels := channels[channel.fd := channel];
      indices := indices[channel.fd := channel.index];
    }

    method Replace(channel: Channel)
      requires Valid() && channel.fd in channels && channels[channel.fd] == channel
      modifies this`pollfds
      ensures Valid()
      ensures View() == PollUpdate(old(View()), channel.fd, channel.events)
    {
      var idx := channel.index;
      IndexInRange(View(), channel.fd);
      PollReplaceValid(View(), channel.fd, channel.events);
      hide PollValid;
      assert pollfds[idx].fd == channel.fd || pollfds[idx].fd == Encoded(channel.fd);
      var pfd := PollFd(channel.fd, channel.events, 0);
      if channel.events == NONE_EVENT {
        pfd := pfd.(fd := Encoded(channel.fd));
      }
      pollfds := pollfds[idx := pfd];
    }

    /** A new channel gets the slot at the end; a known one keeps its slot. */
    method UpdateChannel(channel: Channel)
      requires Valid()
      requires if channel.index < 0 then channel.fd !in channels
               else channel.fd in channels && channels[channel.fd] == channel
      modifies this, channel`index
      ensures View() == PollUpdate(old(View()), channel.fd, channel.events)
      ensures channels == old(channels)[channel.fd := channel] && Valid()
    {
      if channel.index < 0 {
        Register(channel);
      } else {
        Replace(channel);
      }
    }

    lemma LinkedChannel(fd: Fd)
      requires Linked() && fd in indices
      ensures fd in channels && channels[fd].fd == fd && channels[fd].index == indices[fd]
    {
    }

    method Unregister(fd: Fd)
      requires Linked() && fd in channels
      modifies this`channels, this`indices
      ensures Linked() && channels == old(channels) - {fd} && indices == old(indices) - {fd}
    {
      channels, indices := channels - {fd}, indices - {fd};
    }

    method SetIndex(channel: Channel, idx: int)
      requires Linked() && channel.fd in channels && channels[channel.fd] == channel
      modifies this`indices, channel`index
      ensures Linked() && indices == old(indices)[channel.fd := idx]
    {
      channel.index := idx;
      indices := indices[channel.fd := idx];
    }

    /** `iter_swap` with the last slot, and `pop_back`. */
    method MoveLastInto(idx: nat)
      requires idx < |pollfds|
      modifies this`pollfds
      ensures pollfds == old(pollfds[idx := pollfds[|pollfds| - 1]][..|pollfds| - 1])
    {
      var last := |pollfds| - 1;
      pollfds := pollfds[idx := pollfds[last]][last := pollfds[idx]];
      pollfds := pollfds[..last];
    }

    /** The last slot moves into the gap, and the channel it belongs to is told. */
    method RemoveChannel(channel: Channel)
      requires Valid() && channel.fd in channels && channels[channel.fd] == channel
      requires channel.events == NONE_EVENT && Removable(PollInterest(View()), channel.fd)
      modifies this, channels.Values`index
      ensures View() == PollRemove(old(View()), channel.fd)
      ensures channels == old(channels) - {channel.fd} && Valid()
    {
      var fd, idx, last := channel.fd, channel.index, |pollfds| - 1;
      SetAside(View(), fd);
      PollRemoveShape(View(), fd);
      SlotHasChannel(View(), last);
      assert pollfds[idx].fd == Encoded(fd) && pollfds[idx].events == channel.events;
      var channelAtEnd := SlotFd(pollfds[last]);
      LinkedChannel(fd);
      LinkedChannel(channelAtEnd);
      hide PollValid, PollInterest, PollRemove, Linked, SlotFd;
      Unregister(fd);
      MoveLastInto(idx);
      if idx != last {
        SetIndex(channels[channelAtEnd], idx);
      }
    }

    ghost predicate Registered(cs: seq<Channel>)
      reads this`channels
    {
      forall c | c in cs :: c.fd in channels && channels[c.fd] == c
    }

    /** The channels of the first n slots have been told what was reported. */
    ghost predicate Marked(n: int)
      reads this, channels.Values
    {
      forall j | 0 <= j < n && j < |pollfds| && pollfds[j].revents != 0 ::
        SlotFd(pollfds[j]) in channels && channels[SlotFd(pollfds[j])].revents == pollfds[j].revents
    }

    /** One turn of the loop below: a reported slot's channel gets `set_revents`. */
    method Visit(i: nat, before: seq<Channel>) returns (after: seq<Channel>)
      requires Valid() && i < |pollfds| && (pollfds[i].revents != 0 ==> pollfds[i].fd >= 0)
      requires Registered(before) && Marked(i)
      modifies channels.Values`revents
      ensures Valid() && Registered(after) && Marked(i + 1)
      ensures Fds(after) == Fds(before) + if pollfds[i].revents != 0 then [SlotFd(pollfds[i])] else []
    {
      after := before;
      if pollfds[i].revents != 0 {
        SlotFdsDiffer(View());
        SlotHasChannel(View(), i);
        hide PollValid;
        var channel := channels[pollfds[i].fd];
        assert channel.fd == pollfds[i].fd;
        channel.revents := pollfds[i].revents;
        after := before + [channel];
      }
    }

    /** `poll` reported `numEvents` slots: their channels, in slot order, with what was reported. */
    method FillActiveChannels(numEvents: nat) returns (activeChannels: seq<Channel>)
      requires Valid() && numEvents == |Reported(pollfds)|
      requires forall i | 0 <= i < |pollfds| && pollfds[i].revents != 0 :: pollfds[i].fd >= 0
      modifies channels.Values`revents
      ensures Valid() && Registered(activeChannels) && Marked(|pollfds|)
      ensures Fds(activeChannels) == Reported(pollfds)
    {
      hide *;
      activeChannels := [];
      var i := 0;
      NothingMarked();
      while i < |pollfds| && |activeChannels| < numEvents
        invariant 0 <= i <= |pollfds| && Valid() && Registered(activeChannels) && Marked(i)
        invariant Fds(activeChannels) == Reported(pollfds[..i])
      {
        ReportedNext(pollfds, i);
        activeChannels := Visit(i, activeChannels);
        i := i + 1;
      }
      FdsLength(activeChannels);
      AllMarked(i);
    }

    lemma NothingMarked()
      ensures Registered([]) && Marked(0) && Fds([]) == Reported(pollfds[..0])
    {
      ReportedNone();
    }

    lemma AllMarked(i: nat)
      requires i <= |pollfds| && Marked(i)
      requires i < |pollfds| ==> |Reported(pollfds[..i])| >= |Reported(pollfds)|
      ensures Marked(|pollfds|) && Reported(pollfds[..i]) == Reported(pollfds)
    {
      assert pollfds[..|pollfds|] == pollfds;
      ReportedPrefix(pollfds, i);
      hide Reported;
    }
  }

  lemma FdsLength(cs: seq<Channel>)
    ensures |Fds(cs)| == |cs|
  {
  }

  function Fds(cs: seq<Channel>): seq<Fd> {
    seq(|cs|, k requires 0 <= k < |cs| => cs[k].fd)
  }

  lemma SlotFdsDiffer(s: PollTable)
    requires PollValid(s)
    ensures forall i, j | 0 <= i < j < |s.pollfds| :: SlotFd(s.pollfds[i]) != SlotFd(s.pollfds[j])
  {
  }

  /** Descriptors of the slots with something to report, in slot order. */
  function Reported(p: seq<PollFd>): seq<Fd> {
    if p == [] then []
    else
      var n := |p| - 1;
      Reported(p[..n]) + if p[n].revents != 0 then [SlotFd(p[n])] else []
  }

  lemma ReportedNone()
    ensures Reported([]) == []
  {
  }

  lemma ReportedNext(p: seq<PollFd>, i: nat)
    requires i < |p|
    ensures Reported(p[..i + 1]) == Reported(p[..i]) + if p[i].revents != 0 then [SlotFd(p[i])] else []
  {
    assert p[..i + 1][..i] == p[..i];
  }

  /** Once as many slots have been found as were announced, the rest has nothing to report. */
  lemma {:induction false} ReportedPrefix(p: seq<PollFd>, i: nat)
    requires i <= |p|
    ensures Reported(p[..i]) <= Reported(p)
    ensures |Reported(p[..i])| == |Reported(p)| ==> forall j | i <= j < |p| :: p[j].revents == 0
  {
    if i == |p| {
      assert p[..i] == p;
    } else {
      var n := |p| - 1;
      assert p[..n][..i] == p[..i];
      ReportedPrefix(p[..n], i);
    }
  }

  lemma IndexInRange(s: PollTable, fd: Fd)
    requires PollValid(s) && fd in s.index
    ensures 0 <= s.index[fd] < |s.pollfds| && SlotFd(s.pollfds[s.index[fd]]) == fd
  {
  }

  lemma SetAside(s: PollTable, fd: Fd)
    requires PollValid(s) && Removable(PollInterest(s), fd)
    ensures fd in s.index && 0 <= s.index[fd] < |s.pollfds|
    ensures s.pollfds[s.index[fd]].fd == Encoded(fd) && s.pollfds[s.index[fd]].events == NONE_EVENT
  {
  }

  lemma SlotHasChannel(s: PollTable, i: int)
    requires PollValid(s) && 0 <= i < |s.pollfds|
    ensures SlotFd(s.pollfds[i]) in s.index && s.index[SlotFd(s.pollfds[i])] == i
  {
  }

  class EPollPoller {
    var channels: map<Fd, Channel>
    /** The kernel's interest list. */
    var kernel: map<Fd, Mask>

    /** The states stored in the registered channels. */
    ghost var indices: map<Fd, int>

    ghost function View(): EpollTable
      reads this
    {
      EpollTable(indices, kernel)
    }

    ghost predicate Valid()
      reads this, channels.Values
    {
      && (forall fd :: fd in channels <==> fd in indices)
      && (forall fd | fd in channels :: channels[fd].fd == fd && channels[fd].index == indices[fd])
      && EpollValid(View())
    }

    constructor ()
      ensures Valid() && channels == map[] && kernel == map[]
    {
      channels, kernel, indices := map[], map[], map[];
    }

    /** EPOLL_CTL_ADD for a channel that is new or was taken out. */
    method AddChannel(channel: Channel)
      requires Valid()
      requires if channel.index == NEW then channel.fd !in channels
               else channel.index == DELETED && channel.fd in channels && channels[channel.fd] == channel
      modifies this, channel`index
      ensures View() == EpollUpdate(old(View()), channel.fd, channel.events)
      ensures channels == old(channels)[channel.fd := channel] && Valid()
    {
      var fd := channel.fd;
      EpollUpdateValid(View(), fd, channel.events);
      hide EpollValid;
      channels := channels[fd := channel];
      channel.index := ADDED;
      indices := indices[fd := ADDED];
      kernel := CtlAdd(kernel, fd, channel.events);
    }

    /** EPOLL_CTL_MOD, or EPOLL_CTL_DEL for an empty mask, for a channel in the kernel set. */
    method ChangeChannel(channel: Channel)
      requires Valid() && channel.fd in channels && channels[channel.fd] == channel && channel.index == ADDED
      modifies this, channel`index
      ensures Valid() && channels == old(channels)
      ensures View() == EpollUpdate(old(View()), channel.fd, channel.events)
    {
      hide EpollValid;
      var fd := channel.fd;
      EpollUpdateValid(View(), fd, channel.events);
      if channel.events == NONE_EVENT {
        kernel := CtlDel(kernel, fd);
        channel.index := DELETED;
        indices := indices[fd := DELETED];
      } else {
        kernel := CtlMod(kernel, fd, channel.events);
      }
    }

    method UpdateChannel(channel: Channel)
      requires Valid()
      requires if channel.index == NEW then channel.fd !in channels
               else channel.fd in channels && channels[channel.fd] == channel
      modifies this, channel`index
      ensures View() == EpollUpdate(old(View()), channel.fd, channel.events)
      ensures channels == old(channels)[channel.fd := channel] && Valid()
    {
      if channel.index == NEW || channel.index == DELETED {
        AddChannel(channel);
      } else {
        assert channel.index == ADDED;
        ChangeChannel(channel);
      }
    }

    method RemoveChannel(channel: Channel)
      requires Valid() && channel.fd in channels && channels[channel.fd] == channel
      requires channel.events == NONE_EVENT
      modifies this, channel`index
      ensures Valid() && channels == old(channels) - {channel.fd} && channel.index == NEW
      ensures View() == EpollRemove(old(View()), channel.fd)
    {
      var index, fd := channel.index, channel.fd;
      channels, indices := channels - {fd}, indices - {fd};
      if index == ADDED {
        kernel := CtlDel(kernel, fd);
      }
      channel.index := NEW;
    }
  }
}
