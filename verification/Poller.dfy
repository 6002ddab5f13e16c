/**
 Poller.h/.cpp and Channel.h/.cpp: the dense array handed to poll(2), the map from
 descriptors to channels, and the array index each channel carries.

 Event masks are sets of poll flags.  The array alone determines the abstract registry
 (which descriptor is watched, for what, and whether it is muted by the encoding -fd-1);
 the class is proved against functions on the array, and those against plain map updates.
 */
module Polling {

  datatype Flag = POLLIN | POLLPRI | POLLOUT | POLLERR | POLLHUP | POLLNVAL | POLLRDHUP

  type Mask = set<Flag>

  const NONE_EVENT: Mask := {}
  const READ_EVENT: Mask := {POLLIN, POLLPRI}
  const WRITE_EVENT: Mask := {POLLOUT}
  /** Flags poll(2) reports whether or not they were asked for. */
  const UNASKED: Mask := {POLLERR, POLLHUP, POLLNVAL}

  datatype PollFd = PollFd(fd: int, events: Mask, revents: Mask)

  type Slots = seq<PollFd>

  /** The descriptor a slot stands for, muted or not. */
  function Decode(raw: int): (fd: nat) {
    if raw < 0 then -raw - 1 else raw
  }

  /** The encoding that makes poll(2) skip a slot without forgetting whose it is. */
  function Mute(fd: nat): (raw: int)
    ensures raw < 0 && Decode(raw) == fd
  {
    -(fd as int) - 1
  }

  ghost predicate Distinct(s: Slots) {
    forall i, j :: 0 <= i < |s| && 0 <= j < |s| && Decode(s[i].fd) == Decode(s[j].fd) ==> i == j
  }

  /** The slot of a descriptor, or -1. */
  function Find(s: Slots, fd: nat): (i: int)
    ensures -1 <= i < |s|
    ensures i >= 0 ==> Decode(s[i].fd) == fd
    ensures i == -1 ==> forall k :: 0 <= k < |s| ==> Decode(s[k].fd) != fd
  {
    if s == [] then -1
    else if Decode(s[|s| - 1].fd) == fd then |s| - 1
    else Find(s[..|s| - 1], fd)
  }

  predicate Registered(s: Slots, fd: nat) {
    Find(s, fd) >= 0
  }

  /** updateChannel: `known` says whether the channel already has an index. */
  function Updated(s: Slots, known: bool, fd: nat, events: Mask): Slots
    requires known ==> Registered(s, fd)
  {
    if !known then s + [PollFd(fd, events, {})]
    else
      var i := Find(s, fd);
      s[i := PollFd(if events == NONE_EVENT then Mute(fd) else s[i].fd, events, {})]
  }

  /** removeChannel: the last slot moves into the hole. */
  function Removed(s: Slots, i: nat): Slots
    requires i < |s|
  {
    s[i := s[|s| - 1]][..|s| - 1]
  }

  // ---------------------------------------------------------------- the abstract registry

  datatype Watch = Watch(events: Mask, muted: bool)

  function WatchOf(p: PollFd): Watch {
    Watch(p.events, p.fd < 0)
  }

  /** How a registered descriptor is watched. */
  function WatchFor(s: Slots, fd: nat): Watch
    requires Registered(s, fd)
  {
    WatchOf(s[Find(s, fd)])
  }

  function Fds(s: Slots): set<nat> {
    set p | p in s :: Decode(p.fd)
  }

  function Registry(s: Slots): map<nat, Watch> {
    map fd | fd in Fds(s) && Registered(s, fd) :: WatchFor(s, fd)
  }

  lemma FindIsUnique(s: Slots, i: nat)
    requires Distinct(s) && i < |s|
    ensures Find(s, Decode(s[i].fd)) == i
  {
  }

  lemma RegistryHas(s: Slots, fd: nat)
    ensures fd in Registry(s) <==> Registered(s, fd)
    ensures Registered(s, fd) ==> Registry(s)[fd] == WatchFor(s, fd)
  {
    if Registered(s, fd) {
      assert s[Find(s, fd)] in s;
    }
  }

  lemma RegistryIs(s: Slots, m: map<nat, Watch>)
    requires forall d: nat :: d in m <==> Registered(s, d)
    requires forall d: nat :: d in m ==> Registered(s, d) && m[d] == WatchFor(s, d)
    ensures Registry(s) == m
  {
    forall d: nat
      ensures d in Registry(s) <==> d in m
      ensures d in m ==> Registry(s)[d] == m[d]
    {
      RegistryHas(s, d);
    }
  }

  /** An update keeps every slot where it is, so every channel index stays right. */
  lemma UpdatedFind(s: Slots, known: bool, fd: nat, events: Mask, d: nat)
    requires Distinct(s) && known == Registered(s, fd)
    ensures Distinct(Updated(s, known, fd, events))
    ensures Find(Updated(s, known, fd, events), d) == if d == fd && !known then |s| else Find(s, d)
  {
    var t := Updated(s, known, fd, events);
    assert forall k :: 0 <= k < |s| ==> Decode(t[k].fd) == Decode(s[k].fd);
    assert Distinct(t);
    if d == fd && !known {
      FindIsUnique(t, |s|);
    } else if Registered(s, d) {
      FindIsUnique(t, Find(s, d));
    }
  }

  /** The watch an update leaves behind: muting is only ever switched on. */
  function Rewatch(m: map<nat, Watch>, fd: nat, events: Mask): Watch {
    Watch(events, fd in m && (events == NONE_EVENT || m[fd].muted))
  }

  /** Registering and updating are a map update. */
  lemma UpdatedRefinesMap(s: Slots, known: bool, fd: nat, events: Mask)
    requires Distinct(s) && known == Registered(s, fd)
    ensures Distinct(Updated(s, known, fd, events))
    ensures Registry(Updated(s, known, fd, events)) == Registry(s)[fd := Rewatch(Registry(s), fd, events)]
  {
    var t := Updated(s, known, fd, events);
    var m := Registry(s)[fd := Rewatch(Registry(s), fd, events)];
    forall d: nat
      ensures d in m <==> Registered(t, d)
      ensures d in m ==> Registered(t, d) && m[d] == WatchFor(t, d)
    {
      UpdatedFind(s, known, fd, events, d);
      RegistryHas(s, d);
    }
    RegistryIs(t, m);
    UpdatedFind(s, known, fd, events, fd);
  }

  lemma RemovedFind(s: Slots, fd: nat, d: nat)
    requires Distinct(s) && Registered(s, fd)
    ensures Distinct(Removed(s, Find(s, fd)))
    ensures Find(Removed(s, Find(s, fd)), d)
         == if d == fd then -1 else if Find(s, d) == |s| - 1 then Find(s, fd) else Find(s, d)
  {
    var i, last := Find(s, fd), |s| - 1;
    var t := Removed(s, i);
    assert forall k :: 0 <= k < |t| ==> t[k] == if k == i then s[last] else s[k];
    assert Distinct(t);
    if Registered(t, d) {
      var k := Find(t, d);
      FindIsUnique(s, if k == i then last else k);
    }
    if Registered(s, d) && d != fd {
      var j := Find(s, d);
      FindIsUnique(t, if j == last then i else j);
    }
  }

  /** Swap-with-last removal is plain map removal: no other watch is touched, none appears. */
  lemma RemovedRefinesMap(s: Slots, fd: nat)
    requires Distinct(s) && Registered(s, fd)
    ensures Distinct(Removed(s, Find(s, fd)))
    ensures Registry(Removed(s, Find(s, fd))) == Registry(s) - {fd}
  {
    var t := Removed(s, Find(s, fd));
    var m := Registry(s) - {fd};
    forall d: nat
      ensures d in m <==> Registered(t, d)
      ensures d in m ==> Registered(t, d) && m[d] == WatchFor(t, d)
    {
      RemovedFind(s, fd, d);
      RegistryHas(s, d);
    }
    RegistryIs(t, m);
    RemovedFind(s, fd, fd);
  }

  // ---------------------------------------------------------------- runs of the registry

  datatype Op = Register(fd: nat, events: Mask) | Update(fd: nat, events: Mask) | Remove(fd: nat)

  /** The asserts of updateChannel and removeChannel, and "a new channel has a new descriptor". */
  predicate Legal(s: Slots, op: Op) {
    match op
    case Register(fd, _) => !Registered(s, fd)
    case Update(fd, _) => Registered(s, fd)
    case Remove(fd) => Registered(s, fd) && s[Find(s, fd)].fd == Mute(fd) && s[Find(s, fd)].events == NONE_EVENT
  }

  function Step(s: Slots, op: Op): Slots
    requires Legal(s, op)
  {
    match op
    case Register(fd, events) => Updated(s, false, fd, events)
    case Update(fd, events) => Updated(s, true, fd, events)
    case Remove(fd) => Removed(s, Find(s, fd))
  }

  function MapStep(m: map<nat, Watch>, op: Op): map<nat, Watch> {
    match op
    case Register(fd, events) => m[fd := Watch(events, false)]
    case Update(fd, events) => m[fd := Rewatch(m, fd, events)]
    case Remove(fd) => m - {fd}
  }

  predicate LegalRun(s: Slots, ops: seq<Op>)
    decreases |ops|
  {
    ops == [] || (Legal(s, ops[0]) && LegalRun(Step(s, ops[0]), ops[1..]))
  }

  function Run(s: Slots, ops: seq<Op>): Slots
    requires LegalRun(s, ops)
    decreases |ops|
  {
    if ops == [] then s else Run(Step(s, ops[0]), ops[1..])
  }

  function MapRun(m: map<nat, Watch>, ops: seq<Op>): map<nat, Watch>
    decreases |ops|
  {
    if ops == [] then m else MapRun(MapStep(m, ops[0]), ops[1..])
  }

  lemma StepRefines(s: Slots, op: Op)
    requires Distinct(s) && Legal(s, op)
    ensures Distinct(Step(s, op)) && Registry(Step(s, op)) == MapStep(Registry(s), op)
  {
    RegistryHas(s, op.fd);
    match op
    case Register(fd, events) => UpdatedRefinesMap(s, false, fd, events);
    case Update(fd, events) => UpdatedRefinesMap(s, true, fd, events);
    case Remove(fd) => RemovedRefinesMap(s, fd);
  }

  /** Over any legal run the array holds exactly the map a naive registry would hold. */
  lemma {:induction false} RunRefinesMap(s: Slots, ops: seq<Op>)
    requires Distinct(s) && LegalRun(s, ops)
    ensures Distinct(Run(s, ops)) && Registry(Run(s, ops)) == MapRun(Registry(s), ops)
    decreases |ops|
  {
    if ops == [] {
    } else {
      StepRefines(s, ops[0]);
      RunRefinesMap(Step(s, ops[0]), ops[1..]);
    }
  }

  predicate Muted(s: Slots, fd: nat) {
    fd in Registry(s) && Registry(s)[fd].muted
  }

  /** Some update has emptied the mask of `fd`, and `fd` has not been removed since. */
  predicate MutedBy(ops: seq<Op>, fd: nat) {
    exists i :: 0 <= i < |ops| && ops[i] == Update(fd, NONE_EVENT) && Remove(fd) !in ops[i + 1..]
  }

  lemma MutedByRest(ops: seq<Op>, fd: nat)
    requires ops != []
    ensures MutedBy(ops, fd) <==> MutedBy(ops[1..], fd) || (ops[0] == Update(fd, NONE_EVENT) && Remove(fd) !in ops[1..])
  {
    var rest := ops[1..];
    if MutedBy(ops, fd) {
      var i :| 0 <= i < |ops| && ops[i] == Update(fd, NONE_EVENT) && Remove(fd) !in ops[i + 1..];
      if i > 0 {
        assert rest[i - 1] == ops[i] && rest[i..] == ops[i + 1..];
      }
    }
    if MutedBy(rest, fd) {
      var i :| 0 <= i < |rest| && rest[i] == Update(fd, NONE_EVENT) && Remove(fd) !in rest[i + 1..];
      assert ops[i + 1] == rest[i] && ops[i + 2..] == rest[i + 1..];
    }
  }

  /** How the operations leave a descriptor that was `muted` when they began. */
  predicate LeftMuted(muted: bool, ops: seq<Op>, fd: nat) {
    MutedBy(ops, fd) || (muted && Remove(fd) !in ops)
  }

  lemma LeftMutedRest(muted: bool, ops: seq<Op>, fd: nat)
    requires ops != []
    ensures LeftMuted(muted, ops, fd)
            <==> LeftMuted(ops[0] == Update(fd, NONE_EVENT) || (muted && ops[0] != Remove(fd)), ops[1..], fd)
  {
    MutedByRest(ops, fd);
    assert ops == [ops[0]] + ops[1..];
  }

  lemma StepMutes(s: Slots, op: Op, fd: nat)
    requires Distinct(s) && Legal(s, op)
    ensures Distinct(Step(s, op))
    ensures Muted(Step(s, op), fd) <==> op == Update(fd, NONE_EVENT) || (Muted(s, fd) && op != Remove(fd))
  {
    RegistryHas(s, op.fd);
    StepRefines(s, op);
  }

  lemma {:induction false} MutedFrom(s: Slots, ops: seq<Op>, fd: nat)
    requires Distinct(s) && LegalRun(s, ops)
    ensures Muted(Run(s, ops), fd) <==> LeftMuted(Muted(s, fd), ops, fd)
    decreases |ops|
  {
    if ops == [] {
    } else {
      StepMutes(s, ops[0], fd);
      MutedFrom(Step(s, ops[0]), ops[1..], fd);
      LeftMutedRest(Muted(s, fd), ops, fd);
    }
  }

  /**
   In every run from an empty array a descriptor is muted exactly if an update has emptied its
   mask and it has not been removed since.  No other mask unmutes it, and registering it with
   an empty mask does not mute it.
   */
  lemma MutedExactly(ops: seq<Op>, fd: nat)
    requires LegalRun([], ops)
    ensures Muted(Run([], ops), fd) <==> MutedBy(ops, fd)
  {
    MutedFrom([], ops, fd);
  }

  /** Re-enabling never unmutes: only removal ends a mute. */
  lemma MuteIsSticky(s: Slots, ops: seq<Op>, fd: nat)
    requires Distinct(s) && LegalRun(s, ops)
    requires fd in Registry(s) && Registry(s)[fd].muted
    requires Remove(fd) !in ops
    ensures fd in Registry(Run(s, ops)) && Registry(Run(s, ops))[fd].muted
  {
    MutedFrom(s, ops, fd);
    assert Muted(s, fd);
  }

  // ---------------------------------------------------------------- what poll(2) reports

  /** IEEE Std 1003.1-2017, poll(): ignored slots report nothing, the others what was asked or an error. */
  predicate PollContract(s: Slots, revents: seq<Mask>) {
    && |revents| == |s|
    && forall i :: 0 <= i < |s| ==>
         && revents[i] <= s[i].events + UNASKED
         && (s[i].fd < 0 ==> revents[i] == {})
  }

  function WithRevents(s: Slots, revents: seq<Mask>): (t: Slots)
    requires |revents| == |s|
    ensures |t| == |s|
  {
    seq(|s|, i requires 0 <= i < |s| => s[i].(revents := revents[i]))
  }

  /** The slots before number `i` that have something to report, in slot order. */
  function ReadyBefore(s: Slots, i: nat): (ready: seq<int>)
    requires i <= |s|
    ensures forall k :: 0 <= k < |ready| ==> 0 <= ready[k] < i && s[ready[k]].revents != {}
  {
    if i == 0 then []
    else if s[i - 1].revents != {} then ReadyBefore(s, i - 1) + [i - 1]
    else ReadyBefore(s, i - 1)
  }

  function Ready(s: Slots): (ready: seq<int>)
    ensures forall k :: 0 <= k < |ready| ==> 0 <= ready[k] < |s| && s[ready[k]].revents != {}
  {
    ReadyBefore(s, |s|)
  }

  /** Each reporting slot once, in slot order, and no other slot. */
  lemma {:induction false} ReadyIsExact(s: Slots, i: nat)
    requires i <= |s|
    ensures forall a, b :: 0 <= a < b < |ReadyBefore(s, i)| ==> ReadyBefore(s, i)[a] < ReadyBefore(s, i)[b]
    ensures forall k :: 0 <= k < i ==> (k in ReadyBefore(s, i) <==> s[k].revents != {})
  {
    if i == 0 {
    } else {
      ReadyIsExact(s, i - 1);
      var before := ReadyBefore(s, i - 1);
      assert s[i - 1].revents != {} ==> forall k :: k in before + [i - 1] <==> k in before || k == i - 1;
    }
  }

  lemma {:induction false} ReadyGrows(s: Slots, i: nat)
    requires i <= |s|
    ensures ReadyBefore(s, i) <= Ready(s)
    decreases |s| - i
  {
    if i == |s| {
    } else {
      ReadyGrows(s, i + 1);
    }
  }

  /** Under the contract of poll no muted slot is ever active. */
  lemma MutedIsNeverReady(s: Slots, revents: seq<Mask>, k: nat)
    requires PollContract(s, revents) && k < |s| && s[k].fd < 0
    ensures k !in Ready(WithRevents(s, revents))
  {
    ReadyIsExact(WithRevents(s, revents), |s|);
  }

  /** What `::poll` did: an error, or one mask a slot. */
  datatype PollOutcome = Failed | Returned(revents: seq<Mask>)

  // ---------------------------------------------------------------- Channel

  class Channel {
    const loop: Poller
    const fd: nat
    var events: Mask
    var revents: Mask
    var index: int

    constructor (loop: Poller, fd: nat)
      ensures this.loop == loop && this.fd == fd
      ensures events == NONE_EVENT && revents == {} && index == -1
    {
      this.loop := loop;
      this.fd := fd;
      events, revents, index := NONE_EVENT, {}, -1;
    }

    /** New to its poller, or the channel the poller knows under this descriptor. */
    ghost predicate Updatable()
      reads this, loop
    {
      if index < 0 then fd !in loop.channels
      else fd in loop.channels && loop.channels[fd] == this
    }

    /** What the asserts of updateChannel ask for: a channel with an index is the one in the map. */
    ghost predicate InPlace()
      reads this, loop
    {
      index >= 0 ==> fd in loop.channels && loop.channels[fd] == this
    }

    predicate IsNoneEvent()
      reads this
    {
      events == NONE_EVENT
    }

    predicate IsWriting()
      reads this
    {
      POLLOUT in events
    }

    method EnableReading()
      requires loop.Valid() && InPlace()
      modifies this`events, this`index, loop
      ensures Updatable() && index >= 0 && (loop.Valid() <==> old(Updatable()))
      ensures events == READ_EVENT
      ensures old(index) >= 0 ==> Registered(old(loop.pollfds), fd)
      ensures loop.pollfds == Updated(old(loop.pollfds), old(index) >= 0, fd, READ_EVENT)
      ensures loop.channels == old(loop.channels)[fd := this]
    {
      events := READ_EVENT;
      loop.UpdateChannel(this);
    }

    method EnableWriting()
      requires loop.Valid() && InPlace()
      modifies this`events, this`index, loop
      ensures Updatable() && index >= 0 && (loop.Valid() <==> old(Updatable()))
      ensures events == WRITE_EVENT
      ensures old(index) >= 0 ==> Registered(old(loop.pollfds), fd)
      ensures loop.pollfds == Updated(old(loop.pollfds), old(index) >= 0, fd, WRITE_EVENT)
      ensures loop.channels == old(loop.channels)[fd := this]
    {
      events := WRITE_EVENT;
      loop.UpdateChannel(this);
    }

    method DisableWriting()
      requires loop.Valid() && InPlace()
      modifies this`events, this`index, loop
      ensures Updatable() && index >= 0 && (loop.Valid() <==> old(Updatable()))
      ensures events == old(events) - WRITE_EVENT
      ensures old(index) >= 0 ==> Registered(old(loop.pollfds), fd)
      ensures loop.pollfds == Updated(old(loop.pollfds), old(index) >= 0, fd, old(events) - WRITE_EVENT)
      ensures loop.channels == old(loop.channels)[fd := this]
    {
      events := events - WRITE_EVENT;
      loop.UpdateChannel(this);
    }

    method DisableAll()
      requires loop.Valid() && InPlace()
      modifies this`events, this`index, loop
      ensures Updatable() && index >= 0 && (loop.Valid() <==> old(Updatable()))
      ensures events == NONE_EVENT
      ensures old(index) >= 0 ==> Registered(old(loop.pollfds), fd)
      ensures loop.pollfds == Updated(old(loop.pollfds), old(index) >= 0, fd, NONE_EVENT)
      ensures old(index) >= 0 ==> loop.pollfds[index].fd == Mute(fd)
      ensures loop.channels == old(loop.channels)[fd := this]
    {
      events := NONE_EVENT;
      loop.UpdateChannel(this);
    }
  }

  // ---------------------------------------------------------------- Poller

  class Poller {
    var pollfds: Slots
    var channels: map<nat, Channel>

    constructor ()
      ensures Valid() && pollfds == [] && channels == map[]
    {
      pollfds, channels := [], map[];
    }

    /** Array, map and channel indices agree, except perhaps on the mask of `changing`. */
    ghost predicate ValidBut(changing: set<Channel>)
      reads this, channels.Values`index, channels.Values`events
    {
      && (forall i :: 0 <= i < |pollfds| ==>
            && Decode(pollfds[i].fd) in channels
            && channels[Decode(pollfds[i].fd)].index == i)
      && (forall fd :: fd in channels ==>
            && channels[fd].fd == fd
            && channels[fd].loop == this
            && 0 <= channels[fd].index < |pollfds|
            && Decode(pollfds[channels[fd].index].fd) == fd
            && (channels[fd] in changing || pollfds[channels[fd].index].events == channels[fd].events))
    }

    ghost predicate Valid()
      reads this, channels.Values`index, channels.Values`events
    {
      ValidBut({})
    }

    /** In a valid poller an index is a position: the array alone tells who is registered. */
    lemma IndexIsPosition(changing: set<Channel>)
      requires ValidBut(changing)
      ensures Distinct(pollfds)
      ensures forall fd: nat :: fd in channels <==> Registered(pollfds, fd)
      ensures forall fd :: fd in channels ==> Find(pollfds, fd) == channels[fd].index
    {
      forall i, j | 0 <= i < |pollfds| && 0 <= j < |pollfds| && Decode(pollfds[i].fd) == Decode(pollfds[j].fd)
        ensures i == j
      {
        assert channels[Decode(pollfds[i].fd)].index == i;
      }
      forall fd | fd in channels
        ensures Find(pollfds, fd) == channels[fd].index
      {
        FindIsUnique(pollfds, channels[fd].index);
      }
    }

    /**
     The requires clauses are the asserts of the source, which has none for a new channel: if
     another one is registered under its descriptor, the agreement is lost, and only then.
     */
    method UpdateChannel(channel: Channel)
      requires ValidBut({channel}) && channel.loop == this
      requires channel.InPlace()
      modifies this, channel`index
      ensures channel.Updatable() && channel.index >= 0
      ensures Valid() <==> old(channel.Updatable())
      ensures old(channel.index) >= 0 ==> Registered(old(pollfds), channel.fd) && channel.index == old(channel.index)
      ensures old(channel.index) >= 0 && channel.IsNoneEvent() ==> pollfds[channel.index].fd == Mute(channel.fd)
      ensures pollfds == Updated(old(pollfds), old(channel.index) >= 0, channel.fd, channel.events)
      ensures channels == old(channels)[channel.fd := channel]
    {
      if channel.index < 0 {
        AddSlot(channel);
      } else {
        ChangeSlot(channel);
      }
    }

    /** updateChannel for a new channel. */
    method AddSlot(channel: Channel)
      requires ValidBut({channel}) && channel.loop == this && channel.index < 0
      modifies this, channel`index
      ensures channel.Updatable() && channel.index >= 0
      ensures Valid() <==> channel.fd !in old(channels)
      ensures pollfds == Updated(old(pollfds), false, channel.fd, channel.events)
      ensures channels == old(channels)[channel.fd := channel]
    {
      pollfds := pollfds + [PollFd(channel.fd, channel.events, {})];
      channel.index := |pollfds| - 1;
      channels := channels[channel.fd := channel];
      if channel.fd in old(channels) {
        // two slots stand for the descriptor now
        ghost var slot := old(channels[channel.fd].index);
        assert Decode(pollfds[slot].fd) == channel.fd && slot != channel.index;
      }
    }

    /** updateChannel for a channel that has a slot. */
    method ChangeSlot(channel: Channel)
      requires ValidBut({channel}) && channel.loop == this && channel.index >= 0 && channel.Updatable()
      modifies this
      ensures Valid() && channels == old(channels) && channel.index == old(channel.index)
      ensures Registered(old(pollfds), channel.fd)
      ensures channel.IsNoneEvent() ==> pollfds[channel.index].fd == Mute(channel.fd)
      ensures pollfds == Updated(old(pollfds), true, channel.fd, channel.events)
    {
      assert Find(pollfds, channel.fd) == channel.index by { IndexIsPosition({channel}); }
      var idx := channel.index;
      var pfd := pollfds[idx];
      assert pfd.fd == channel.fd || pfd.fd == Mute(channel.fd);
      pfd := pfd.(events := channel.events, revents := {});
      if channel.IsNoneEvent() {
        pfd := pfd.(fd := Mute(channel.fd));
      }
      pollfds := pollfds[idx := pfd];
    }

    /** The requires clauses are the asserts of the source; the channel keeps its stale index. */
    method RemoveChannel(channel: Channel)
      requires Valid()
      requires channel.fd in channels && channels[channel.fd] == channel
      requires channel.events == NONE_EVENT
      requires pollfds[channel.index].fd == Mute(channel.fd)
      modifies this, channels.Values`index
      ensures Valid()
      ensures pollfds == Removed(old(pollfds), old(channel.index))
      ensures channels == old(channels) - {channel.fd}
      ensures channel.index == old(channel.index)
    {
      var idx := channel.index;
      channels := channels - {channel.fd};
      FillHole(idx);
    }

    /** All agree but slot `hole`, which no channel in the map claims any more. */
    ghost predicate ValidAround(hole: nat)
      reads this, channels.Values`index, channels.Values`events
    {
      && hole < |pollfds|
      && (forall i :: 0 <= i < |pollfds| && i != hole ==>
            && Decode(pollfds[i].fd) in channels
            && channels[Decode(pollfds[i].fd)].index == i)
      && (forall fd :: fd in channels ==>
            && channels[fd].fd == fd
            && channels[fd].loop == this
            && 0 <= channels[fd].index < |pollfds| && channels[fd].index != hole
            && Decode(pollfds[channels[fd].index].fd) == fd
            && pollfds[channels[fd].index].events == channels[fd].events)
    }

    /** The last slot is dropped, or moves into the hole and takes its channel's index along. */
    method FillHole(idx: nat)
      requires ValidAround(idx)
      modifies this`pollfds, channels.Values`index
      ensures Valid() && pollfds == Removed(old(pollfds), idx)
    {
      var end := |pollfds| - 1;
      if idx == end {
        pollfds := pollfds[..end];
      } else {
        var channelAtEnd := pollfds[end].fd;
        pollfds := pollfds[idx := pollfds[end]][end := pollfds[idx]];
        if channelAtEnd < 0 {
          channelAtEnd := -channelAtEnd - 1;
        }
        channels[channelAtEnd].index := idx;
        pollfds := pollfds[..end];
        assert forall k :: 0 <= k < |pollfds| ==> pollfds[k] == old(pollfds)[if k == idx then end else k];
      }
    }

    /** The channel whose slot is number `i`. */
    ghost function At(i: int): (ch: Channel)
      requires Valid() && 0 <= i < |pollfds|
      reads this, channels.Values`index, channels.Values`events
      ensures ch.index == i && ch in channels.Values
    {
      channels[Decode(pollfds[i].fd)]
    }

    /** `Poller::poll`: the kernel writes revents, then the array is scanned. */
    method Poll(kernel: PollOutcome) returns (active: seq<Channel>)
      requires Valid()
      requires kernel.Returned? ==> PollContract(pollfds, kernel.revents)
      modifies this`pollfds, channels.Values`revents
      ensures Valid()
      ensures kernel.Failed? ==> active == [] && pollfds == old(pollfds)
      ensures kernel.Returned? ==>
                pollfds == WithRevents(old(pollfds), kernel.revents) && AreActive(active)
    {
      if kernel.Failed? {
        return [];
      }
      pollfds := WithRevents(pollfds, kernel.revents);
      var numEvents := |Ready(pollfds)|;
      if numEvents > 0 {
        active := GetActiveChannels(numEvents);
      } else {
        active := [];
      }
    }

    /** `active` holds the channels of the reporting slots before `i`, each with its revents. */
    ghost predicate Collected(active: seq<Channel>, i: nat)
      requires Valid() && i <= |pollfds|
      reads this, channels.Values
    {
      && |active| == |ReadyBefore(pollfds, i)|
      && (forall k :: 0 <= k < |active| ==> active[k] == At(ReadyBefore(pollfds, i)[k]))
      && (forall j :: 0 <= j < i && pollfds[j].revents != {} ==> At(j).revents == pollfds[j].revents)
    }

    /** The lookup in the map succeeds: a slot with something to report is not muted. */
    method Activate(active: seq<Channel>, i: nat) returns (more: seq<Channel>)
      requires Valid() && i < |pollfds| && pollfds[i].fd >= 0 && pollfds[i].revents != {}
      requires Collected(active, i)
      modifies channels.Values`revents
      ensures Valid() && Collected(more, i + 1)
    {
      var pfd := pollfds[i];
      var ch := channels[pfd.fd];
      ch.revents := pfd.revents;
      more := active + [ch];
    }

    lemma Passed(active: seq<Channel>, i: nat)
      requires Valid() && i < |pollfds| && pollfds[i].revents == {} && Collected(active, i)
      ensures Collected(active, i + 1)
    {
    }

    /** The channels of all reporting slots, in slot order, each with its revents. */
    ghost predicate AreActive(active: seq<Channel>)
      requires Valid()
      reads this, channels.Values
    {
      && |active| == |Ready(pollfds)|
      && forall k :: 0 <= k < |active| ==>
           active[k] == At(Ready(pollfds)[k]) && active[k].revents == pollfds[active[k].index].revents
    }

    /** Once as many slots as announced are collected, no later slot has anything to report. */
    lemma CollectedAll(active: seq<Channel>, i: nat)
      requires Valid() && i <= |pollfds| && Collected(active, i)
      requires i == |pollfds| || |active| >= |Ready(pollfds)|
      ensures AreActive(active)
    {
      ReadyGrows(pollfds, i);
      assert ReadyBefore(pollfds, i) == Ready(pollfds);
    }

    /** The scan stops as soon as it has seen as many reporting slots as poll announced. */
    method GetActiveChannels(announced: nat) returns (active: seq<Channel>)
      requires Valid() && announced == |Ready(pollfds)|
      requires forall i :: 0 <= i < |pollfds| && pollfds[i].fd < 0 ==> pollfds[i].revents == {}
      modifies channels.Values`revents
      ensures Valid() && AreActive(active)
    {
      active := [];
      var numEvents: int := announced;
      var i := 0;
      while i < |pollfds| && numEvents > 0
        invariant 0 <= i <= |pollfds| && Valid()
        invariant Collected(active, i) && numEvents == announced - |active|
        decreases |pollfds| - i
      {
        if pollfds[i].revents != {} {
          numEvents := numEvents - 1;
          active := Activate(active, i);
        } else {
          Passed(active, i);
        }
        i := i + 1;
      }
      CollectedAll(active, i);
    }
  }
}
