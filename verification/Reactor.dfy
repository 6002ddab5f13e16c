/**
 The whole reactor in its loop thread: Poller, connections, TcpServer's map and the functor
 queue, composed as EventLoop::loop composes them: poll, dispatch, run the queued functors.

 Whatever the environment decides (poll results, accepted descriptors, read and write
 results, what user callbacks do, functors from other threads) is an argument of the step.
 A failed assert of the source is the outcome AssertFailed, which no run is shown to meet.
 */
module Reactor {

  import opened ByteBuffer
  import opened Connections
  import opened Outcomes
  import opened Polling

  /** Connections are numbered from 1 (nextConnId_); OWN marks the loop's own channels. */
  type ConnId = nat

  const OWN: ConnId := 0

  datatype Functor = Destroy(id: ConnId) | User(tag: nat)

  /** A channel in activeChannels_, with its slot and revents at poll time. */
  datatype Event = Event(channel: ConnId, fd: nat, slot: nat, revents: Mask)

  datatype Phase =
    | AtPoll
    | Dispatch(active: seq<Event>)
    | Batch(done: seq<Functor>, rest: seq<Functor>)   // `functors` lives until the batch ends

  datatype System = System(
    own: set<nat>,                    // eventfd, timerfd, listening socket
    listenFd: nat,
    slots: Slots,                     // Poller::pollfds_
    channels: map<nat, ConnId>,       // Poller::channels_
    conns: map<ConnId, Conn>,         // every connection object so far
    connections: set<ConnId>,         // TcpServer::connections_
    nextConnId: nat,
    pending: seq<Functor>,
    phase: Phase)

  function LinkOf(s: System, id: ConnId): Link<ConnId>
    requires id in s.conns
  {
    Link(id, s.conns[id], s.slots, s.channels)
  }

  function Put(s: System, l: Link<ConnId>): System {
    s.(conns := s.conns[l.channel := l.conn], slots := l.slots, channels := l.channels)
  }

  /** Functors not yet run. */
  function Waiting(s: System): seq<Functor> {
    (if s.phase.Batch? then s.phase.rest else []) + s.pending
  }

  /** A shared_ptr to the connection exists: in the server's map or inside a functor. */
  predicate Owned(s: System, id: ConnId) {
    || id in s.connections
    || Destroy(id) in Waiting(s)
    || (s.phase.Batch? && Destroy(id) in s.phase.done)
  }

  // ---------------------------------------------------------------- user code

  /** What user code in the loop thread does to connections it holds, or queues. */
  datatype Action = SendTo(id: ConnId, message: seq<Byte>, written: int) | ShutdownOf(id: ConnId) | Queue(tag: nat)

  function Act(s: System, a: Action): Outcome<System> {
    match a
    case SendTo(id, message, written) =>
      :- Given(id in s.conns);
      var l :- Send(LinkOf(s, id), message, written);
      Ok(Put(s, l))
    case ShutdownOf(id) =>
      :- Given(id in s.conns);
      Ok(Put(s, Shutdown(LinkOf(s, id))))
    case Queue(tag) => Ok(s.(pending := s.pending + [User(tag)]))
  }

  function ActAll(s: System, actions: seq<Action>): Outcome<System> {
    if actions == [] then Ok(s)
    else
      var s1 :- ActAll(s, actions[..|actions| - 1]);
      Act(s1, actions[|actions| - 1])
  }

  // ---------------------------------------------------------------- TcpServer

  /** accept returns a descriptor that is not open: not the loop's, and of no living connection. */
  predicate Free(s: System, fd: nat) {
    fd !in s.own && forall id <- s.conns :: Owned(s, id) ==> s.conns[id].fd != fd
  }

  function NewConnection(s: System, fd: nat, actions: seq<Action>): Outcome<System> {
    var id := s.nextConnId;
    :- Given(Free(s, fd));
    var s1 := s.(nextConnId := id + 1, conns := s.conns[id := NewConn(fd)], connections := s.connections + {id});
    var r := ConnectEstablished(LinkOf(s1, id));
    if r.Ok? then ActAll(Put(s1, r.value), actions) else AssertFailed
  }

  /** The server forgets the connection at once, but only queues its teardown. */
  function RemoveConnection(s: System, id: ConnId): Outcome<System> {
    var s' := s.(connections := s.connections - {id}, pending := s.pending + [Destroy(id)]);
    :- Assert(id in s.connections);
    Ok(s')
  }

  // ---------------------------------------------------------------- handlers

  /** Results the environment hands to one handleEvent. */
  datatype Env = Env(
    accepted: int,
    read: ReadResult,         // of readFd
    taken: nat,               // how much the message callback takes out of the input buffer
    written: int,
    writeCallbackSet: bool,
    actions: seq<Action>)

  predicate WantsRead(revents: Mask) {
    POLLIN in revents || POLLPRI in revents || POLLRDHUP in revents
  }

  function HandleClose(s: System, id: ConnId): Outcome<System>
    requires id in s.conns
  {
    var l :- BeginClose(LinkOf(s, id));
    RemoveConnection(Put(s, l), id)
  }

  function HandleRead(s: System, id: ConnId, env: Env): Outcome<System>
    requires id in s.conns
  {
    match env.read
    case Failed(_) => Ok(s)
    case Delivered(bytes) =>
      if bytes == [] then HandleClose(s, id)
      else
        var c := s.conns[id];
        :- Given(env.taken <= |c.input| + |bytes|);
        ActAll(Put(s, LinkOf(s, id).(conn := ReadIn(c, bytes, env.taken))), env.actions)
  }

  /** Channel::handleEvent with the callbacks the repository registers; the write callback may be set. */
  function HandleEvent(s: System, ev: Event, env: Env): Outcome<System> {
    if ev.channel == OWN then
      if ev.fd == s.listenFd && WantsRead(ev.revents) && env.accepted >= 0
      then NewConnection(s, env.accepted, env.actions)
      else ActAll(s, env.actions)
    else
      :- Given(ev.channel in s.conns);
      var s1 :- if WantsRead(ev.revents) then HandleRead(s, ev.channel, env) else Ok(s);
      :- Given(ev.channel in s1.conns);
      if POLLOUT in ev.revents && env.writeCallbackSet then
        var l :- HandleWrite(LinkOf(s1, ev.channel), env.written);
        Ok(Put(s1, l))
      else Ok(s1)
  }

  /** connectDestroyed; `actions` is what the user's connection callback does. */
  function ConnectDestroyed(s: System, id: ConnId, actions: seq<Action>): Outcome<System>
    requires id in s.conns
  {
    var l :- BeginDestroy(LinkOf(s, id));
    var s1 :- ActAll(Put(s, l), actions);
    :- Given(id in s1.conns);
    var l1 :- RemoveChannel(LinkOf(s1, id));
    Ok(Put(s1, l1))
  }

  // ---------------------------------------------------------------- the loop

  datatype Step =
    | PollReturns(kernel: PollOutcome)
    | HandleNext(env: Env)
    | EndDispatch
    | RunNext(actions: seq<Action>)
    | EndBatch
    | QueueFromAnyThread(tag: nat)

  /** getActiveChannels: the reporting slots, in order. */
  function ActiveEvents(s: System, t: Slots, ready: seq<int>): seq<Event>
    requires forall k :: 0 <= k < |ready| ==> 0 <= ready[k] < |t|
  {
    seq(|ready|, k requires 0 <= k < |ready| =>
      var fd := Decode(t[ready[k]].fd);
      Event(if fd in s.channels then s.channels[fd] else OWN, fd, ready[k], t[ready[k]].revents))
  }

  function Poll(s: System, kernel: PollOutcome): Outcome<System> {
    match kernel
    case Failed =>
      :- Given(s.phase.AtPoll?);
      Ok(s.(phase := Dispatch([])))
    case Returned(revents) =>
      :- Given(s.phase.AtPoll?);
      :- Given(PollContract(s.slots, revents));
      var t := WithRevents(s.slots, revents);
      var ready := Ready(t);
      :- Assert(forall k :: 0 <= k < |ready| ==> t[ready[k]].fd >= 0 && (t[ready[k]].fd as nat) in s.channels);
      Ok(s.(slots := t, phase := Dispatch(ActiveEvents(s, t, ready))))
  }

  function Perform(s: System, step: Step): Outcome<System> {
    match step
    case PollReturns(kernel) => Poll(s, kernel)
    case HandleNext(env) =>
      :- Given(s.phase.Dispatch? && s.phase.active != []);
      HandleEvent(s.(phase := Dispatch(s.phase.active[1..])), s.phase.active[0], env)
    case EndDispatch =>
      :- Given(s.phase.Dispatch? && s.phase.active == []);
      Ok(s.(phase := Batch([], s.pending), pending := []))
    case RunNext(actions) =>
      :- Given(s.phase.Batch? && s.phase.rest != []);
      var f := s.phase.rest[0];
      var s1 := s.(phase := Batch(s.phase.done + [f], s.phase.rest[1..]));
      (match f
       case User(_) => ActAll(s1, actions)
       case Destroy(id) =>
         :- Given(id in s1.conns);
         ConnectDestroyed(s1, id, actions))
    case EndBatch =>
      :- Given(s.phase.Batch? && s.phase.rest == []);
      Ok(s.(phase := AtPoll))
    case QueueFromAnyThread(tag) => Ok(s.(pending := s.pending + [User(tag)]))
  }

  // ---------------------------------------------------------------- the invariant

  ghost predicate PollerAgrees(s: System) {
    Distinct(s.slots) && forall fd: nat :: fd in s.channels <==> Registered(s.slots, fd)
  }

  /** Registered are the loop's own channels and those of connections not yet torn down. */
  ghost predicate ChannelsKnown(s: System, tearing: ConnId) {
    && s.listenFd in s.own
    && (forall fd :: fd in s.own ==> fd in s.channels && s.channels[fd] == OWN)
    && (forall fd :: fd in s.channels ==>
          if s.channels[fd] == OWN then fd in s.own
          else
            && s.channels[fd] in s.conns
            && s.conns[s.channels[fd]].fd == fd
            && (s.conns[s.channels[fd]].Alive() || s.channels[fd] == tearing))
  }

  /** The registered descriptor `fd` is watched for `events`, muted if `muted`. */
  ghost predicate WatchedFor(slots: Slots, fd: nat, events: Mask, muted: bool) {
    Registered(slots, fd) && WatchFor(slots, fd).events == events && (muted ==> WatchFor(slots, fd).muted)
  }

  /** One connection: where it stands in its life fixes where it is registered. */
  ghost predicate ConnOk(s: System, id: ConnId, tearing: ConnId)
    requires id in s.conns
  {
    var c := s.conns[id];
    && StreamInv(c) && c.indexed && OWN < id < s.nextConnId
    && (c.Alive() || c.state.Disconnected?)
    && (c.Alive() || id == tearing ==> c.fd in s.channels && s.channels[c.fd] == id)
    && (c.Alive() ==>
          && c.destroys == 0 && c.closes <= 1 && c.callbacks == [true]
          && WatchedFor(s.slots, c.fd, c.events, c.closes == 1))
    && (c.state.Disconnected? ==>
          c.destroys == 1 && c.closes == 1 && c.callbacks == [true, false] && c.events == NONE_EVENT)
    && (id == tearing ==> c.state.Disconnected? && WatchedFor(s.slots, c.fd, NONE_EVENT, true))
    && (id in s.connections <==> c.Alive() && c.closes == 0)
    && (Destroy(id) in Waiting(s) <==> c.Alive() && c.closes == 1)
  }

  ghost predicate ConnsOk(s: System, tearing: ConnId) {
    forall id :: id in s.conns ==> ConnOk(s, id, tearing)
  }

  /** Each teardown is queued once. */
  ghost predicate TornOnce(fs: seq<Functor>) {
    forall i, j :: 0 <= i < j < |fs| && fs[i].Destroy? && fs[j].Destroy? ==> fs[i].id != fs[j].id
  }

  ghost predicate QueueOk(s: System) {
    && TornOnce(Waiting(s))
    && (forall f :: f in Waiting(s) && f.Destroy? ==> f.id in s.conns)
    && s.connections <= s.conns.Keys
    && (!s.phase.Dispatch? ==> forall f :: f in s.pending ==> f.User?)
  }

  /** A channel still to be handled: registered in its slot, its connection not closed. */
  ghost predicate EventOk(s: System, ev: Event) {
    && ev.slot < |s.slots|
    && Decode(s.slots[ev.slot].fd) == ev.fd
    && ev.fd in s.channels && s.channels[ev.fd] == ev.channel
    && (ev.channel != OWN ==> ev.channel in s.conns && s.conns[ev.channel].closes == 0)
  }

  ghost predicate EventsOk(s: System, active: seq<Event>) {
    && (forall k :: 0 <= k < |active| ==> EventOk(s, active[k]))
    && (forall i, j :: 0 <= i < j < |active| ==> active[i].slot != active[j].slot)
  }

  ghost predicate ActiveOk(s: System) {
    s.phase.Dispatch? ==> EventsOk(s, s.phase.active)
  }

  /** `tearing` is the connection inside connectDestroyed, or OWN. */
  ghost predicate InvBut(s: System, tearing: ConnId) {
    && PollerAgrees(s) && s.nextConnId > 0
    && ChannelsKnown(s, tearing)
    && ConnsOk(s, tearing)
    && QueueOk(s)
    && ActiveOk(s)
  }

  ghost predicate Inv(s: System) {
    InvBut(s, OWN)
  }

  /**
   Connections are never forgotten, each only moves forward through its states, and during
   dispatch none is torn down.
   */
  ghost predicate Advances(s: System, s': System) {
    forall id :: id in s.conns ==>
      && id in s'.conns
      && s'.conns[id].fd == s.conns[id].fd
      && s'.conns[id].state.Rank() >= s.conns[id].state.Rank()
      && s'.conns[id].closes >= s.conns[id].closes
      && (s.phase.Dispatch? && s.conns[id].Alive() ==> s'.conns[id].Alive())
  }

  // ---------------------------------------------------------------- one connection changes

  /** `l'` is `l` after its connection sent, wrote or shut down: at most its own watch changed. */
  ghost predicate Tame(l: Link<ConnId>, l': Link<ConnId>) {
    var c, c' := l.conn, l'.conn;
    && l'.channel == l.channel && l'.channels == l.channels
    && StreamInv(c') && c'.indexed == c.indexed && c'.fd == c.fd
    && c'.state.Rank() >= c.state.Rank()
    && c'.Alive() == c.Alive() && c'.state.Disconnected? == c.state.Disconnected?
    && c'.closes == c.closes && c'.destroys == c.destroys && c'.callbacks == c.callbacks
    && if c.Alive() then
         || (l'.slots == l.slots && c'.events == c.events)
         || (Registered(l.slots, c.fd) && l'.slots == Updated(l.slots, true, c.fd, c'.events))
       else l' == l
  }

  lemma PositionsKept(s: Slots, fd: nat, events: Mask)
    requires Registered(s, fd)
    ensures var t := Updated(s, true, fd, events);
            |t| == |s| && forall k :: 0 <= k < |s| ==> Decode(t[k].fd) == Decode(s[k].fd)
  {
  }

  /** `slots'` watches `fd` for `events` and everything else as `slots` does, slot by slot. */
  ghost predicate OnlyRewatched(slots: Slots, slots': Slots, fd: nat, events: Mask) {
    && Distinct(slots')
    && (forall d: nat :: Registered(slots', d) <==> Registered(slots, d))
    && (forall d: nat :: Registered(slots, d) && d != fd ==> WatchFor(slots', d) == WatchFor(slots, d))
    && (Registered(slots, fd) ==> WatchedFor(slots', fd, events, WatchFor(slots, fd).muted))
    && |slots'| == |slots| && (forall k :: 0 <= k < |slots| ==> Decode(slots'[k].fd) == Decode(slots[k].fd))
  }

  lemma UpdateOnlyRewatches(slots: Slots, fd: nat, events: Mask)
    requires Distinct(slots) && Registered(slots, fd)
    ensures OnlyRewatched(slots, Updated(slots, true, fd, events), fd, events)
    ensures events == NONE_EVENT ==> WatchFor(Updated(slots, true, fd, events), fd).muted
  {
    forall d: nat
      ensures Registered(Updated(slots, true, fd, events), d) <==> Registered(slots, d)
      ensures Registered(slots, d) && d != fd ==>
                WatchFor(Updated(slots, true, fd, events), d) == WatchFor(slots, d)
    {
      UpdatedFind(slots, true, fd, events, d);
    }
    UpdatedFind(slots, true, fd, events, fd);
    PositionsKept(slots, fd, events);
  }

  /** A connection none of whose surroundings changed is as it was. */
  lemma ConnFrame(s: System, s': System, x: ConnId, tearing: ConnId)
    requires ConnsOk(s, tearing) && x in s.conns
    requires x in s'.conns && s'.conns[x] == s.conns[x] && s'.nextConnId >= s.nextConnId
    requires var c := s.conns[x];
             c.Alive() || x == tearing ==>
               && c.fd in s'.channels && s'.channels[c.fd] == x
               && (Registered(s.slots, c.fd) ==>
                     Registered(s'.slots, c.fd) && WatchFor(s'.slots, c.fd) == WatchFor(s.slots, c.fd))
    requires x in s.connections <==> x in s'.connections
    requires Destroy(x) in Waiting(s) <==> Destroy(x) in Waiting(s')
    ensures ConnOk(s', x, tearing)
  {
    assert ConnOk(s, x, tearing);
  }

  lemma TameKeepsConn(s: System, id: ConnId, l: Link<ConnId>, tearing: ConnId, x: ConnId)
    requires id in s.conns && ConnsOk(s, tearing) && s.conns[id].Alive() && Tame(LinkOf(s, id), l)
    requires OnlyRewatched(s.slots, l.slots, l.conn.fd, l.conn.events)
    requires x in s.conns
    ensures ConnOk(Put(s, l), x, tearing)
  {
    assert ConnOk(s, id, tearing) && ConnOk(s, x, tearing);
    assert Waiting(Put(s, l)) == Waiting(s);
    if x != id {
      ConnFrame(s, Put(s, l), x, tearing);
    }
  }

  /** Events stay good while slots keep their descriptors and the connections stay open. */
  lemma EventsFrame(s: System, s': System, active: seq<Event>)
    requires EventsOk(s, active) && |s'.slots| >= |s.slots|
    requires forall k :: 0 <= k < |s.slots| ==> Decode(s'.slots[k].fd) == Decode(s.slots[k].fd)
    requires forall fd :: fd in s.channels ==> fd in s'.channels && s'.channels[fd] == s.channels[fd]
    requires forall id :: id in s.conns ==>
               && id in s'.conns
               && (s'.conns[id].closes != s.conns[id].closes ==>
                     forall k :: 0 <= k < |active| ==> active[k].channel != id)
    ensures EventsOk(s', active)
  {
    forall k | 0 <= k < |active|
      ensures EventOk(s', active[k])
    {
      assert EventOk(s, active[k]);
    }
  }

  lemma TameKeepsChannels(s: System, id: ConnId, l: Link<ConnId>, tearing: ConnId)
    requires id in s.conns && Tame(LinkOf(s, id), l)
    requires OnlyRewatched(s.slots, l.slots, l.conn.fd, l.conn.events)
    requires PollerAgrees(s) && ChannelsKnown(s, tearing)
    ensures PollerAgrees(Put(s, l)) && ChannelsKnown(Put(s, l), tearing)
  {
  }

  lemma TameKeepsQueues(s: System, id: ConnId, l: Link<ConnId>)
    requires id in s.conns && Tame(LinkOf(s, id), l)
    requires OnlyRewatched(s.slots, l.slots, l.conn.fd, l.conn.events)
    requires QueueOk(s) && ActiveOk(s)
    ensures QueueOk(Put(s, l)) && ActiveOk(Put(s, l))
  {
    assert Waiting(Put(s, l)) == Waiting(s);
    if s.phase.Dispatch? {
      EventsFrame(s, Put(s, l), s.phase.active);
    }
  }

  lemma TameOnlyRewatches(s: System, id: ConnId, l: Link<ConnId>, tearing: ConnId)
    requires PollerAgrees(s) && id in s.conns && ConnsOk(s, tearing) && Tame(LinkOf(s, id), l)
    requires s.conns[id].Alive()
    ensures OnlyRewatched(s.slots, l.slots, l.conn.fd, l.conn.events)
  {
    assert ConnOk(s, id, tearing);
    if l.slots != s.slots {
      UpdateOnlyRewatches(s.slots, s.conns[id].fd, l.conn.events);
    }
  }

  lemma TameKeepsConns(s: System, id: ConnId, l: Link<ConnId>, tearing: ConnId)
    requires id in s.conns && ConnsOk(s, tearing) && s.conns[id].Alive() && Tame(LinkOf(s, id), l)
    requires OnlyRewatched(s.slots, l.slots, l.conn.fd, l.conn.events)
    ensures ConnsOk(Put(s, l), tearing)
  {
    forall x | x in s.conns {
      TameKeepsConn(s, id, l, tearing, x);
    }
  }

  lemma TameKeepsInv(s: System, id: ConnId, l: Link<ConnId>, tearing: ConnId)
    requires InvBut(s, tearing) && id in s.conns && Tame(LinkOf(s, id), l)
    ensures InvBut(Put(s, l), tearing) && Put(s, l).phase == s.phase
  {
    if s.conns[id].Alive() {
      TameOnlyRewatches(s, id, l, tearing);
      TameKeepsChannels(s, id, l, tearing);
      TameKeepsQueues(s, id, l);
      TameKeepsConns(s, id, l, tearing);
    } else {
      assert Put(s, l).conns == s.conns;
    }
  }

  lemma TameAdvances(s: System, id: ConnId, l: Link<ConnId>)
    requires id in s.conns && Tame(LinkOf(s, id), l)
    ensures Advances(s, Put(s, l))
  {
  }

  /** The channel of a live connection passes the asserts of updateChannel. */
  ghost predicate LinkOk(l: Link<ConnId>) {
    && StreamInv(l.conn) && l.conn.indexed
    && (l.conn.Alive() || (l.conn.state.Disconnected? && l.conn.events == NONE_EVENT))
    && (l.conn.Alive() ==>
          l.conn.fd in l.channels && l.channels[l.conn.fd] == l.channel && Registered(l.slots, l.conn.fd))
  }

  ghost predicate TameResult(l: Link<ConnId>, r: Outcome<Link<ConnId>>) {
    r != AssertFailed && (r.Ok? ==> Tame(l, r.value))
  }

  lemma SendIsTame(l: Link<ConnId>, message: seq<Byte>, written: int)
    requires LinkOk(l)
    ensures TameResult(l, Send(l, message, written))
  {
    SendKeepsStream(l, message, written);
    assert l.conn.Alive() ==> l.channels[l.conn.fd := l.channel] == l.channels;
  }

  lemma ShutdownIsTame(l: Link<ConnId>)
    requires LinkOk(l)
    ensures Tame(l, Shutdown(l))
  {
    StepKeepsStream(l, ShutdownCalled);
  }

  lemma HandleWriteIsTame(l: Link<ConnId>, written: int)
    requires LinkOk(l)
    ensures TameResult(l, HandleWrite(l, written))
  {
    HandleWriteKeepsStream(l, written);
    assert l.conn.Alive() ==> l.channels[l.conn.fd := l.channel] == l.channels;
  }

  lemma InvGivesLinkOk(s: System, id: ConnId, tearing: ConnId)
    requires InvBut(s, tearing) && id in s.conns
    ensures LinkOk(LinkOf(s, id))
  {
    assert ConnOk(s, id, tearing);
  }

  // ---------------------------------------------------------------- user code keeps the invariant

  lemma QueueKeepsInv(s: System, tag: nat, tearing: ConnId)
    requires InvBut(s, tearing)
    ensures InvBut(s.(pending := s.pending + [User(tag)]), tearing)
  {
    var s' := s.(pending := s.pending + [User(tag)]);
    assert Waiting(s') == Waiting(s) + [User(tag)];
    forall id | id in s.conns {
      ConnFrame(s, s', id, tearing);
    }
    if s.phase.Dispatch? {
      EventsFrame(s, s', s.phase.active);
    }
  }

  lemma ActKeepsInv(s: System, a: Action, tearing: ConnId)
    requires InvBut(s, tearing)
    ensures Act(s, a) != AssertFailed
    ensures Act(s, a).Ok? ==> var s' := Act(s, a).value; InvBut(s', tearing) && Advances(s, s') && s'.phase == s.phase
  {
    match a
    case SendTo(id, message, written) =>
      if id in s.conns {
        InvGivesLinkOk(s, id, tearing);
        SendIsTame(LinkOf(s, id), message, written);
        var r := Send(LinkOf(s, id), message, written);
        if r.Ok? {
          TameKeepsInv(s, id, r.value, tearing);
          TameAdvances(s, id, r.value);
        }
      }
    case ShutdownOf(id) =>
      if id in s.conns {
        InvGivesLinkOk(s, id, tearing);
        ShutdownIsTame(LinkOf(s, id));
        TameKeepsInv(s, id, Shutdown(LinkOf(s, id)), tearing);
        TameAdvances(s, id, Shutdown(LinkOf(s, id)));
      }
    case Queue(tag) => QueueKeepsInv(s, tag, tearing);
  }

  lemma {:induction false} ActAllKeepsInv(s: System, actions: seq<Action>, tearing: ConnId)
    requires InvBut(s, tearing)
    ensures ActAll(s, actions) != AssertFailed
    ensures ActAll(s, actions).Ok? ==>
              var s' := ActAll(s, actions).value; InvBut(s', tearing) && Advances(s, s') && s'.phase == s.phase
  {
    if actions == [] {
    } else {
      var front := actions[..|actions| - 1];
      ActAllKeepsInv(s, front, tearing);
      if ActAll(s, front).Ok? {
        ActKeepsInv(ActAll(s, front).value, actions[|actions| - 1], tearing);
      }
    }
  }

  // ---------------------------------------------------------------- a connection begins

  /** What newConnection makes of the system before the user's callback runs. */
  function Established(s: System, fd: nat): System {
    var id := s.nextConnId;
    var c := NewConn(fd).(state := Connected, indexed := true, events := READ_EVENT, callbacks := [true]);
    s.(nextConnId := id + 1, conns := s.conns[id := c], connections := s.connections + {id},
       slots := Updated(s.slots, false, fd, READ_EVENT), channels := s.channels[fd := id])
  }

  lemma NewConnectionValue(s: System, fd: nat, actions: seq<Action>)
    requires Free(s, fd)
    ensures NewConnection(s, fd, actions) == ActAll(Established(s, fd), actions)
  {
    var id := s.nextConnId;
    var s1 := s.(nextConnId := id + 1, conns := s.conns[id := NewConn(fd)], connections := s.connections + {id});
    var l := ConnectEstablished(LinkOf(s1, id)).value;
    assert l.conn.callbacks == [true];
    assert Put(s1, l) == Established(s, fd);
  }

  /** Whoever is registered is owned: by the server's map or by the queued teardown. */
  lemma RegisteredIsOwned(s: System, fd: nat)
    requires Inv(s) && fd in s.channels && s.channels[fd] != OWN
    ensures var id := s.channels[fd]; id in s.conns && s.conns[id].fd == fd && Owned(s, id)
  {
    assert ConnOk(s, s.channels[fd], OWN);
  }

  /** Hence accept cannot return a registered descriptor. */
  lemma FreeIsUnregistered(s: System, fd: nat)
    requires Inv(s) && Free(s, fd)
    ensures fd !in s.channels && !Registered(s.slots, fd)
  {
    forall d | d in s.channels && s.channels[d] != OWN {
      RegisteredIsOwned(s, d);
    }
  }

  lemma AppendWatches(slots: Slots, fd: nat, events: Mask)
    requires Distinct(slots) && !Registered(slots, fd)
    ensures var t := Updated(slots, false, fd, events);
            && Distinct(t) && Registered(t, fd) && WatchFor(t, fd) == Watch(events, false)
            && (forall d: nat :: Registered(t, d) <==> d == fd || Registered(slots, d))
            && (forall d: nat :: Registered(slots, d) ==> WatchFor(t, d) == WatchFor(slots, d))
            && (forall k :: 0 <= k < |slots| ==> Decode(t[k].fd) == Decode(slots[k].fd))
  {
    forall d: nat
      ensures Registered(Updated(slots, false, fd, events), d) <==> d == fd || Registered(slots, d)
      ensures Registered(slots, d) ==> WatchFor(Updated(slots, false, fd, events), d) == WatchFor(slots, d)
    {
      UpdatedFind(slots, false, fd, events, d);
    }
    UpdatedFind(slots, false, fd, events, fd);
  }

  lemma NewcomerIsOk(s: System, fd: nat)
    requires QueueOk(s) && fd !in s.channels && s.nextConnId !in s.conns && s.nextConnId > 0
    requires Distinct(s.slots) && !Registered(s.slots, fd)
    ensures ConnOk(Established(s, fd), s.nextConnId, OWN)
  {
    AppendWatches(s.slots, fd, READ_EVENT);
    assert Waiting(Established(s, fd)) == Waiting(s);
  }

  lemma EstablishedKeepsOther(s: System, fd: nat, x: ConnId)
    requires ConnsOk(s, OWN) && fd !in s.channels && x in s.conns
    requires Distinct(s.slots) && !Registered(s.slots, fd)
    ensures x != s.nextConnId && ConnOk(Established(s, fd), x, OWN)
  {
    AppendWatches(s.slots, fd, READ_EVENT);
    assert Waiting(Established(s, fd)) == Waiting(s);
    assert ConnOk(s, x, OWN);
    ConnFrame(s, Established(s, fd), x, OWN);
  }

  lemma EstablishedKeepsConns(s: System, fd: nat)
    requires ConnsOk(s, OWN) && QueueOk(s) && fd !in s.channels
    requires Distinct(s.slots) && !Registered(s.slots, fd) && s.nextConnId > 0
    ensures ConnsOk(Established(s, fd), OWN) && s.nextConnId !in s.conns
  {
    forall x | x in s.conns {
      EstablishedKeepsOther(s, fd, x);
    }
    NewcomerIsOk(s, fd);
  }

  lemma EstablishedKeepsQueues(s: System, fd: nat)
    requires QueueOk(s) && ActiveOk(s) && fd !in s.channels && s.nextConnId !in s.conns
    requires Distinct(s.slots) && !Registered(s.slots, fd)
    ensures QueueOk(Established(s, fd)) && ActiveOk(Established(s, fd))
  {
    AppendWatches(s.slots, fd, READ_EVENT);
    assert Waiting(Established(s, fd)) == Waiting(s);
    if s.phase.Dispatch? {
      EventsFrame(s, Established(s, fd), s.phase.active);
    }
  }

  lemma EstablishedKeepsChannels(s: System, fd: nat)
    requires PollerAgrees(s) && ChannelsKnown(s, OWN)
    requires fd !in s.channels && s.nextConnId !in s.conns && s.nextConnId > 0
    ensures PollerAgrees(Established(s, fd)) && ChannelsKnown(Established(s, fd), OWN)
  {
    AppendWatches(s.slots, fd, READ_EVENT);
  }

  lemma EstablishedKeepsInv(s: System, fd: nat)
    requires Inv(s) && Free(s, fd)
    ensures Inv(Established(s, fd)) && Advances(s, Established(s, fd))
  {
    FreeIsUnregistered(s, fd);
    EstablishedKeepsConns(s, fd);
    EstablishedKeepsQueues(s, fd);
    EstablishedKeepsChannels(s, fd);
  }

  // ---------------------------------------------------------------- a connection closes

  /** What handleClose and removeConnection make of the system. */
  function Closed(s: System, id: ConnId): System
    requires id in s.conns && Registered(s.slots, s.conns[id].fd)
  {
    var c := s.conns[id];
    s.(conns := s.conns[id := c.(closes := c.closes + 1, events := NONE_EVENT, indexed := true)],
       slots := Updated(s.slots, true, c.fd, NONE_EVENT),
       connections := s.connections - {id},
       pending := s.pending + [Destroy(id)])
  }

  /** A connection that the poll of this iteration found ready, and that is handled now. */
  ghost predicate Handled(s: System, id: ConnId) {
    && s.phase.Dispatch? && id in s.conns && s.conns[id].Alive() && s.conns[id].closes == 0
    && forall k :: 0 <= k < |s.phase.active| ==> s.phase.active[k].channel != id
  }

  lemma HandleCloseValue(s: System, id: ConnId)
    requires id in s.conns && id in s.connections && s.conns[id].Alive() && LinkOk(LinkOf(s, id))
    ensures HandleClose(s, id) == Ok(Closed(s, id))
  {
    assert s.channels[s.conns[id].fd := id] == s.channels;
  }

  lemma HandledIsOpen(s: System, id: ConnId)
    requires Inv(s) && Handled(s, id)
    ensures id in s.connections && Destroy(id) !in s.pending && Registered(s.slots, s.conns[id].fd)
  {
    assert ConnOk(s, id, OWN);
  }

  lemma ClosedKeepsConn(s: System, id: ConnId, x: ConnId)
    requires ConnsOk(s, OWN) && Handled(s, id) && Registered(s.slots, s.conns[id].fd)
    requires OnlyRewatched(s.slots, Closed(s, id).slots, s.conns[id].fd, NONE_EVENT)
    requires WatchFor(Closed(s, id).slots, s.conns[id].fd).muted
    requires x in s.conns
    ensures ConnOk(Closed(s, id), x, OWN)
  {
    var s' := Closed(s, id);
    assert ConnOk(s, id, OWN) && ConnOk(s, x, OWN);
    assert Waiting(s') == Waiting(s) + [Destroy(id)];
    if x != id {
      ConnFrame(s, s', x, OWN);
    }
  }

  lemma ClosedKeepsQueues(s: System, id: ConnId)
    requires ConnsOk(s, OWN) && QueueOk(s) && ActiveOk(s) && Handled(s, id) && Registered(s.slots, s.conns[id].fd)
    requires OnlyRewatched(s.slots, Closed(s, id).slots, s.conns[id].fd, NONE_EVENT)
    ensures QueueOk(Closed(s, id)) && ActiveOk(Closed(s, id))
  {
    assert ConnOk(s, id, OWN);
    assert Waiting(Closed(s, id)) == Waiting(s) + [Destroy(id)];
    EventsFrame(s, Closed(s, id), s.phase.active);
  }

  lemma ClosedKeepsChannels(s: System, id: ConnId)
    requires PollerAgrees(s) && ChannelsKnown(s, OWN) && Handled(s, id) && Registered(s.slots, s.conns[id].fd)
    requires OnlyRewatched(s.slots, Closed(s, id).slots, s.conns[id].fd, NONE_EVENT)
    ensures PollerAgrees(Closed(s, id)) && ChannelsKnown(Closed(s, id), OWN)
  {
  }

  lemma ClosedAdvances(s: System, id: ConnId)
    requires Handled(s, id) && Registered(s.slots, s.conns[id].fd)
    ensures Advances(s, Closed(s, id))
  {
  }

  lemma ClosedKeepsInv(s: System, id: ConnId)
    requires Inv(s) && Handled(s, id) && Registered(s.slots, s.conns[id].fd)
    ensures Inv(Closed(s, id))
  {
    UpdateOnlyRewatches(s.slots, s.conns[id].fd, NONE_EVENT);
    forall x | x in s.conns {
      ClosedKeepsConn(s, id, x);
    }
    ClosedKeepsQueues(s, id);
    ClosedKeepsChannels(s, id);
  }

  // ---------------------------------------------------------------- one event is handled

  /** `r` did not fail an assert, and if it is a state it is a good one, in the same phase, later. */
  ghost predicate GoodResult(s: System, r: Outcome<System>, tearing: ConnId) {
    && r != AssertFailed
    && (r.Ok? ==> InvBut(r.value, tearing) && Advances(s, r.value) && r.value.phase == s.phase)
  }

  lemma NewConnectionIsGood(s: System, fd: nat, actions: seq<Action>)
    requires Inv(s)
    ensures GoodResult(s, NewConnection(s, fd, actions), OWN)
  {
    if Free(s, fd) {
      NewConnectionValue(s, fd, actions);
      EstablishedKeepsInv(s, fd);
      ActAllKeepsInv(Established(s, fd), actions, OWN);
    }
  }

  lemma HandleCloseIsGood(s: System, id: ConnId)
    requires Inv(s) && Handled(s, id)
    ensures GoodResult(s, HandleClose(s, id), OWN)
  {
    InvGivesLinkOk(s, id, OWN);
    HandledIsOpen(s, id);
    HandleCloseValue(s, id);
    ClosedKeepsInv(s, id);
    ClosedAdvances(s, id);
  }

  lemma HandleWriteIsGood(s: System, id: ConnId, written: int)
    requires Inv(s) && id in s.conns
    ensures var r := HandleWrite(LinkOf(s, id), written);
            r != AssertFailed && (r.Ok? ==> GoodResult(s, Ok(Put(s, r.value)), OWN))
  {
    InvGivesLinkOk(s, id, OWN);
    HandleWriteIsTame(LinkOf(s, id), written);
    var r := HandleWrite(LinkOf(s, id), written);
    if r.Ok? {
      TameKeepsInv(s, id, r.value, OWN);
      TameAdvances(s, id, r.value);
    }
  }

  lemma ReadInIsTame(l: Link<ConnId>, bytes: seq<Byte>, taken: nat)
    requires LinkOk(l) && l.conn.Alive() && taken <= |l.conn.input| + |bytes|
    ensures Tame(l, l.(conn := ReadIn(l.conn, bytes, taken)))
  {
    ReadInConserves(l.conn, bytes, taken);
  }

  lemma MessageIsGood(s: System, id: ConnId, bytes: seq<Byte>, taken: nat, actions: seq<Action>)
    requires Inv(s) && Handled(s, id) && taken <= |s.conns[id].input| + |bytes|
    ensures GoodResult(s, ActAll(Put(s, LinkOf(s, id).(conn := ReadIn(s.conns[id], bytes, taken))), actions), OWN)
  {
    var l := LinkOf(s, id).(conn := ReadIn(s.conns[id], bytes, taken));
    InvGivesLinkOk(s, id, OWN);
    ReadInIsTame(LinkOf(s, id), bytes, taken);
    TameKeepsInv(s, id, l, OWN);
    TameAdvances(s, id, l);
    ActAllKeepsInv(Put(s, l), actions, OWN);
  }

  lemma HandleReadIsGood(s: System, id: ConnId, env: Env)
    requires Inv(s) && Handled(s, id)
    ensures GoodResult(s, HandleRead(s, id, env), OWN)
  {
    match env.read
    case Failed(_) =>
    case Delivered(bytes) =>
      if bytes == [] {
        HandleCloseIsGood(s, id);
      } else if env.taken <= |s.conns[id].input| + |bytes| {
        MessageIsGood(s, id, bytes, env.taken, env.actions);
      }
  }

  lemma OwnEventIsGood(s: System, ev: Event, env: Env)
    requires Inv(s) && ev.channel == OWN
    ensures GoodResult(s, HandleEvent(s, ev, env), OWN)
  {
    if ev.fd == s.listenFd && WantsRead(ev.revents) && env.accepted >= 0 {
      NewConnectionIsGood(s, env.accepted, env.actions);
    } else {
      ActAllKeepsInv(s, env.actions, OWN);
    }
  }

  lemma ConnEventIsGood(s: System, ev: Event, env: Env)
    requires Inv(s) && ev.channel != OWN && Handled(s, ev.channel)
    ensures GoodResult(s, HandleEvent(s, ev, env), OWN)
  {
    if WantsRead(ev.revents) {
      HandleReadIsGood(s, ev.channel, env);
    }
    var r := if WantsRead(ev.revents) then HandleRead(s, ev.channel, env) else Ok(s);
    if r.Ok? {
      HandleWriteIsGood(r.value, ev.channel, env.written);
    }
  }

  /** The first active channel is still registered in its slot, and no later one is the same. */
  lemma FirstIsHandled(s: System)
    requires Inv(s) && s.phase.Dispatch? && s.phase.active != []
    ensures var s1 := s.(phase := Dispatch(s.phase.active[1..]));
            Inv(s1) && (s.phase.active[0].channel == OWN || Handled(s1, s.phase.active[0].channel))
  {
    var s1, ev := s.(phase := Dispatch(s.phase.active[1..])), s.phase.active[0];
    assert EventOk(s, ev);
    assert Waiting(s1) == Waiting(s);
    forall x | x in s.conns {
      ConnFrame(s, s1, x, OWN);
    }
    forall k | 0 <= k < |s1.phase.active|
      ensures EventOk(s1, s1.phase.active[k]) && (ev.channel != OWN ==> s1.phase.active[k].channel != ev.channel)
    {
      assert EventOk(s, s.phase.active[k + 1]);
    }
    if ev.channel != OWN {
      assert ConnOk(s, ev.channel, OWN);
    }
  }

  // ---------------------------------------------------------------- a connection is torn down

  /** What connectDestroyed makes of the system up to the user's callback. */
  function Torn(s: System, id: ConnId): System
    requires id in s.conns && Registered(s.slots, s.conns[id].fd)
  {
    var c := s.conns[id];
    s.(conns := s.conns[id := c.(state := Disconnected, destroys := c.destroys + 1, events := NONE_EVENT,
                                 indexed := true, callbacks := c.callbacks + [false])],
       slots := Updated(s.slots, true, c.fd, NONE_EVENT))
  }

  /** `id` has been closed and its teardown has just been taken off the queue. */
  ghost predicate TeardownTaken(s: System, id: ConnId) {
    && s.phase.Batch? && id in s.conns && s.conns[id].Alive() && s.conns[id].closes == 1
    && StreamInv(s.conns[id]) && s.conns[id].indexed && OWN < id < s.nextConnId
    && s.conns[id].fd in s.channels && s.channels[s.conns[id].fd] == id && Registered(s.slots, s.conns[id].fd)
    && s.conns[id].destroys == 0 && s.conns[id].callbacks == [true]
    && id !in s.connections && Destroy(id) !in Waiting(s)
  }

  /** All is well but for `id`, whose teardown has been taken. */
  ghost predicate InvAround(s: System, id: ConnId) {
    && TeardownTaken(s, id)
    && PollerAgrees(s) && s.nextConnId > 0 && ChannelsKnown(s, OWN) && QueueOk(s)
    && forall x :: x in s.conns && x != id ==> ConnOk(s, x, OWN)
  }

  lemma TornConnIsTearing(s: System, id: ConnId)
    requires TeardownTaken(s, id)
    requires OnlyRewatched(s.slots, Torn(s, id).slots, s.conns[id].fd, NONE_EVENT)
    requires WatchFor(Torn(s, id).slots, s.conns[id].fd).muted
    ensures ConnOk(Torn(s, id), id, id)
  {
    assert Waiting(Torn(s, id)) == Waiting(s);
  }

  lemma TornKeepsOther(s: System, id: ConnId, x: ConnId)
    requires TeardownTaken(s, id) && x in s.conns && x != id && ConnOk(s, x, OWN)
    requires OnlyRewatched(s.slots, Torn(s, id).slots, s.conns[id].fd, NONE_EVENT)
    ensures ConnOk(Torn(s, id), x, id)
  {
    assert Waiting(Torn(s, id)) == Waiting(s);
  }

  lemma TornKeepsChannels(s: System, id: ConnId)
    requires PollerAgrees(s) && ChannelsKnown(s, OWN) && id in s.conns && Registered(s.slots, s.conns[id].fd)
    requires OnlyRewatched(s.slots, Torn(s, id).slots, s.conns[id].fd, NONE_EVENT)
    ensures PollerAgrees(Torn(s, id)) && ChannelsKnown(Torn(s, id), id)
  {
  }

  lemma TornKeepsQueue(s: System, id: ConnId)
    requires QueueOk(s) && TeardownTaken(s, id)
    ensures QueueOk(Torn(s, id)) && ActiveOk(Torn(s, id))
  {
    assert Waiting(Torn(s, id)) == Waiting(s);
  }

  lemma TornAdvances(s: System, id: ConnId)
    requires TeardownTaken(s, id)
    ensures Advances(s, Torn(s, id))
  {
  }

  lemma TornIsTearing(s: System, id: ConnId)
    requires InvAround(s, id)
    ensures InvBut(Torn(s, id), id)
  {
    UpdateOnlyRewatches(s.slots, s.conns[id].fd, NONE_EVENT);
    TornConnIsTearing(s, id);
    forall x | x in s.conns && x != id {
      TornKeepsOther(s, id, x);
    }
    TornKeepsChannels(s, id);
    TornKeepsQueue(s, id);
  }

  lemma TornValue(s: System, id: ConnId)
    requires TeardownTaken(s, id)
    ensures var l := BeginDestroy(LinkOf(s, id)); l.Ok? && Put(s, l.value) == Torn(s, id)
  {
    assert s.channels[s.conns[id].fd := id] == s.channels;
  }

  /** What removeChannel makes of the system: the slot is gone. */
  function Unregistered(s: System, id: ConnId): System
    requires id in s.conns && Registered(s.slots, s.conns[id].fd)
  {
    var fd := s.conns[id].fd;
    s.(slots := Removed(s.slots, Find(s.slots, fd)), channels := s.channels - {fd})
  }

  lemma RemoveUnwatches(slots: Slots, fd: nat)
    requires Distinct(slots) && Registered(slots, fd)
    ensures var t := Removed(slots, Find(slots, fd));
            && Distinct(t)
            && (forall d: nat :: Registered(t, d) <==> d != fd && Registered(slots, d))
            && (forall d: nat :: Registered(slots, d) && d != fd ==> WatchFor(t, d) == WatchFor(slots, d))
  {
    forall d: nat
      ensures var t := Removed(slots, Find(slots, fd));
              && (Registered(t, d) <==> d != fd && Registered(slots, d))
              && (Registered(slots, d) && d != fd ==> WatchFor(t, d) == WatchFor(slots, d))
    {
      RemovedFind(slots, fd, d);
    }
    RemovedFind(slots, fd, fd);
  }

  lemma UnregisteredKeepsConn(s: System, id: ConnId, x: ConnId)
    requires ConnsOk(s, id) && PollerAgrees(s) && id in s.conns && id != OWN && x in s.conns
    requires Registered(s.slots, s.conns[id].fd)
    ensures ConnOk(Unregistered(s, id), x, OWN)
  {
    assert ConnOk(s, id, id) && ConnOk(s, x, id);
    assert Waiting(Unregistered(s, id)) == Waiting(s);
    RemoveUnwatches(s.slots, s.conns[id].fd);
  }

  lemma UnregisteredKeepsRest(s: System, id: ConnId)
    requires InvBut(s, id) && id in s.conns && id != OWN && s.phase.Batch?
    requires Registered(s.slots, s.conns[id].fd)
    ensures var s' := Unregistered(s, id); PollerAgrees(s') && ChannelsKnown(s', OWN) && QueueOk(s')
  {
    assert ConnOk(s, id, id);
    assert Waiting(Unregistered(s, id)) == Waiting(s);
    RemoveUnwatches(s.slots, s.conns[id].fd);
  }

  /** removeChannel's asserts hold for the connection being torn down, and then all is well again. */
  lemma RemoveChannelIsGood(s: System, id: ConnId)
    requires InvBut(s, id) && id in s.conns && id != OWN && s.phase.Batch?
    ensures var r := RemoveChannel(LinkOf(s, id));
            r.Ok? && Inv(Put(s, r.value)) && Advances(s, Put(s, r.value)) && Put(s, r.value).phase == s.phase
  {
    assert ConnOk(s, id, id);
    var r, fd := RemoveChannel(LinkOf(s, id)), s.conns[id].fd;
    assert Decode(s.slots[Find(s.slots, fd)].fd) == fd;
    assert Put(s, r.value) == Unregistered(s, id) by {
      assert s.conns[id := s.conns[id]] == s.conns;
    }
    forall x | x in s.conns {
      UnregisteredKeepsConn(s, id, x);
    }
    UnregisteredKeepsRest(s, id);
  }

  lemma ConnectDestroyedIsGood(s: System, id: ConnId, actions: seq<Action>)
    requires InvAround(s, id)
    ensures GoodResult(s, ConnectDestroyed(s, id, actions), OWN)
  {
    TornValue(s, id);
    TornIsTearing(s, id);
    TornAdvances(s, id);
    ActAllKeepsInv(Torn(s, id), actions, id);
    var r := ActAll(Torn(s, id), actions);
    if r.Ok? {
      RemoveChannelIsGood(r.value, id);
    }
  }

  // ---------------------------------------------------------------- the steps of the loop

  lemma RetouchKeepsWatches(slots: Slots, revents: seq<Mask>)
    requires Distinct(slots) && |revents| == |slots|
    ensures var t := WithRevents(slots, revents);
            && Distinct(t)
            && (forall d: nat :: Registered(t, d) <==> Registered(slots, d))
            && (forall d: nat :: Registered(slots, d) ==> WatchFor(t, d) == WatchFor(slots, d))
  {
    var t := WithRevents(slots, revents);
    assert forall k :: 0 <= k < |slots| ==> t[k].fd == slots[k].fd && t[k].events == slots[k].events;
    forall d: nat
      ensures Registered(t, d) <==> Registered(slots, d)
      ensures Registered(slots, d) ==> Find(t, d) == Find(slots, d)
    {
      if Registered(slots, d) {
        FindIsUnique(t, Find(slots, d));
      }
      assert Registered(t, d) ==> Decode(slots[Find(t, d)].fd) == d;
    }
  }

  /** At a poll point nobody who is registered has been closed. */
  lemma NobodyIsClosedAtPoll(s: System, id: ConnId)
    requires Inv(s) && s.phase.AtPoll? && id in s.conns && s.conns[id].Alive()
    ensures s.conns[id].closes == 0 && id in s.connections
  {
    assert ConnOk(s, id, OWN);
    assert Waiting(s) == s.pending;
  }

  lemma ActiveEventsAreOk(s: System, revents: seq<Mask>)
    requires Inv(s) && s.phase.AtPoll? && PollContract(s.slots, revents)
    ensures var t := WithRevents(s.slots, revents);
            var ready := Ready(t);
            && (forall k :: 0 <= k < |ready| ==> t[ready[k]].fd >= 0 && (t[ready[k]].fd as nat) in s.channels)
            && EventsOk(s.(slots := t), ActiveEvents(s, t, ready))
  {
    var t := WithRevents(s.slots, revents);
    var ready := Ready(t);
    ReadyIsExact(t, |t|);
    var active := ActiveEvents(s, t, ready);
    forall k | 0 <= k < |ready|
      ensures t[ready[k]].fd >= 0 && (t[ready[k]].fd as nat) in s.channels && EventOk(s.(slots := t), active[k])
    {
      var i := ready[k];
      FindIsUnique(s.slots, i);
      var fd := Decode(s.slots[i].fd);
      assert Registered(s.slots, fd);
      if s.channels[fd] != OWN {
        NobodyIsClosedAtPoll(s, s.channels[fd]);
      }
    }
  }

  /** The slots and the phase change, but no connection does: what was good stays good. */
  lemma RephaseKeepsConns(s: System, s': System)
    requires ConnsOk(s, OWN) && s' == s.(slots := s'.slots, phase := s'.phase, pending := s'.pending)
    requires forall d: nat :: Registered(s'.slots, d) <==> Registered(s.slots, d)
    requires forall d: nat :: Registered(s.slots, d) ==> WatchFor(s'.slots, d) == WatchFor(s.slots, d)
    requires Waiting(s') == Waiting(s)
    ensures ConnsOk(s', OWN) && Advances(s, s')
  {
    forall x | x in s.conns {
      ConnFrame(s, s', x, OWN);
    }
  }

  lemma PollIsGood(s: System, kernel: PollOutcome)
    requires Inv(s)
    ensures Poll(s, kernel) != AssertFailed
    ensures Poll(s, kernel).Ok? ==> Inv(Poll(s, kernel).value) && Advances(s, Poll(s, kernel).value)
  {
    if s.phase.AtPoll? {
      if kernel.Failed? {
        RephaseKeepsConns(s, Poll(s, kernel).value);
      } else if PollContract(s.slots, kernel.revents) {
        RetouchKeepsWatches(s.slots, kernel.revents);
        ActiveEventsAreOk(s, kernel.revents);
        var s' := Poll(s, kernel).value;
        RephaseKeepsConns(s, s');
        EventsFrame(s.(slots := s'.slots), s', s'.phase.active);
      }
    }
  }

  lemma SwapIsGood(s: System)
    requires Inv(s) && s.phase.Dispatch? && s.phase.active == []
    ensures var s' := s.(phase := Batch([], s.pending), pending := []); Inv(s') && Advances(s, s')
  {
    var s' := s.(phase := Batch([], s.pending), pending := []);
    assert Waiting(s') == Waiting(s);
    RephaseKeepsConns(s, s');
  }

  lemma EndBatchIsGood(s: System)
    requires Inv(s) && s.phase.Batch? && s.phase.rest == []
    ensures Inv(s.(phase := AtPoll)) && Advances(s, s.(phase := AtPoll))
  {
    var s' := s.(phase := AtPoll);
    assert Waiting(s') == Waiting(s);
    RephaseKeepsConns(s, s');
  }

  function Taken(s: System): System
    requires s.phase.Batch? && s.phase.rest != []
  {
    s.(phase := Batch(s.phase.done + [s.phase.rest[0]], s.phase.rest[1..]))
  }

  lemma TakenKeepsQueue(s: System)
    requires QueueOk(s) && s.phase.Batch? && s.phase.rest != []
    ensures QueueOk(Taken(s)) && Waiting(s) == [s.phase.rest[0]] + Waiting(Taken(s))
    ensures s.phase.rest[0].Destroy? ==> s.phase.rest[0] !in Waiting(Taken(s))
  {
    var w, w' := Waiting(s), Waiting(Taken(s));
    assert w == [s.phase.rest[0]] + w';
    assert w[0] == s.phase.rest[0] && forall i :: 0 <= i < |w'| ==> w'[i] == w[i + 1];
    if w[0].Destroy? {
      forall i | 0 <= i < |w'|
        ensures w'[i] != w[0]
      {
        assert w[i + 1] == w'[i];
      }
    }
  }

  lemma TakenConn(s: System, x: ConnId)
    requires ConnsOk(s, OWN) && QueueOk(s) && s.phase.Batch? && s.phase.rest != [] && x in s.conns
    requires s.phase.rest[0] != Destroy(x)
    ensures ConnOk(Taken(s), x, OWN)
  {
    TakenKeepsQueue(s);
    ConnFrame(s, Taken(s), x, OWN);
  }

  lemma TakenUserIsGood(s: System)
    requires Inv(s) && s.phase.Batch? && s.phase.rest != [] && s.phase.rest[0].User?
    ensures Inv(Taken(s)) && Advances(s, Taken(s))
  {
    TakenKeepsQueue(s);
    forall x | x in s.conns {
      TakenConn(s, x);
    }
  }

  lemma TakenDestroyIsGood(s: System)
    requires Inv(s) && s.phase.Batch? && s.phase.rest != [] && s.phase.rest[0].Destroy?
    ensures InvAround(Taken(s), s.phase.rest[0].id) && Advances(s, Taken(s))
  {
    var id := s.phase.rest[0].id;
    TakenKeepsQueue(s);
    assert s.phase.rest[0] in Waiting(s);
    assert ConnOk(s, id, OWN);
    forall x | x in s.conns && x != id {
      TakenConn(s, x);
    }
  }

  /** No step meets a failing assert, and each keeps the invariant. */
  lemma StepIsGood(s: System, step: Step)
    requires Inv(s)
    ensures Perform(s, step) != AssertFailed
    ensures Perform(s, step).Ok? ==> Inv(Perform(s, step).value) && Advances(s, Perform(s, step).value)
  {
    match step
    case PollReturns(kernel) => PollIsGood(s, kernel);
    case HandleNext(env) =>
      if s.phase.Dispatch? && s.phase.active != [] {
        FirstIsHandled(s);
        var s1, ev := s.(phase := Dispatch(s.phase.active[1..])), s.phase.active[0];
        if ev.channel == OWN {
          OwnEventIsGood(s1, ev, env);
        } else {
          ConnEventIsGood(s1, ev, env);
        }
      }
    case EndDispatch =>
      if s.phase.Dispatch? && s.phase.active == [] {
        SwapIsGood(s);
      }
    case RunNext(actions) =>
      if s.phase.Batch? && s.phase.rest != [] {
        match s.phase.rest[0]
        case User(_) =>
          TakenUserIsGood(s);
          ActAllKeepsInv(Taken(s), actions, OWN);
        case Destroy(id) =>
          TakenDestroyIsGood(s);
          ConnectDestroyedIsGood(Taken(s), id, actions);
      }
    case EndBatch =>
      if s.phase.Batch? && s.phase.rest == [] {
        EndBatchIsGood(s);
      }
    case QueueFromAnyThread(tag) => QueueKeepsInv(s, tag, OWN);
  }

  // ---------------------------------------------------------------- whole runs

  /** Before the first poll: only the loop's own channels, and perhaps functors of other threads. */
  ghost predicate IsInit(s: System) {
    && s.phase.AtPoll? && s.conns == map[] && s.connections == {} && s.nextConnId == 1
    && s.listenFd in s.own && Distinct(s.slots)
    && s.channels == (map fd | fd in s.own :: OWN)
    && (forall fd: nat :: fd in s.own <==> Registered(s.slots, fd))
    && (forall f :: f in s.pending ==> f.User?)
  }

  ghost predicate StepsTo(ss: seq<System>, steps: seq<Step>, i: nat)
    requires i < |steps| < |ss|
  {
    Perform(ss[i], steps[i]) == Ok(ss[i + 1])
  }

  ghost predicate IsRun(ss: seq<System>, steps: seq<Step>) {
    && |ss| == |steps| + 1
    && IsInit(ss[0])
    && forall i :: 0 <= i < |steps| ==> StepsTo(ss, steps, i)
  }

  lemma PrefixIsRun(ss: seq<System>, steps: seq<Step>, n: nat)
    requires IsRun(ss, steps) && n <= |steps|
    ensures IsRun(ss[..n + 1], steps[..n])
  {
    var states, front := ss[..n + 1], steps[..n];
    forall i | 0 <= i < n
      ensures StepsTo(states, front, i)
    {
      assert StepsTo(ss, steps, i);
    }
  }

  lemma InitIsGood(s: System)
    requires IsInit(s)
    ensures Inv(s)
  {
    assert Waiting(s) == s.pending;
    assert forall i :: 0 <= i < |s.pending| ==> s.pending[i].User?;
  }

  lemma {:induction false} RunKeepsInv(ss: seq<System>, steps: seq<Step>)
    requires IsRun(ss, steps)
    ensures Inv(ss[|steps|])
  {
    if steps == [] {
      InitIsGood(ss[0]);
    } else {
      var n := |steps| - 1;
      PrefixIsRun(ss, steps, n);
      RunKeepsInv(ss[..n + 1], steps[..n]);
      assert StepsTo(ss, steps, n);
      StepIsGood(ss[n], steps[n]);
    }
  }

  /**
   In no run, whatever the environment does, does an assert of the source fail: not those on
   connection states, not `erase == 1`, not the preconditions of updateChannel or removeChannel.
   */
  lemma NoAssertFails(ss: seq<System>, steps: seq<Step>, next: Step)
    requires IsRun(ss, steps)
    ensures Perform(ss[|steps|], next) != AssertFailed
  {
    RunKeepsInv(ss, steps);
    StepIsGood(ss[|steps|], next);
  }

  /**
   Whenever the loop is about to poll, the server's map and the Poller watch the same
   connections, one descriptor each, and whatever was closed since the last poll is gone.
   */
  lemma RegistryAgreesAtPoll(ss: seq<System>, steps: seq<Step>)
    requires IsRun(ss, steps) && ss[|steps|].phase.AtPoll?
    ensures var s := ss[|steps|];
            && (forall fd: nat :: Registered(s.slots, fd) && fd !in s.own <==>
                  exists id :: id in s.connections && id in s.conns && s.conns[id].fd == fd)
            && (s.connections <= s.conns.Keys)
            && (forall a, b :: a in s.connections && b in s.connections && s.conns[a].fd == s.conns[b].fd ==> a == b)
            && (forall id :: id in s.conns && id !in s.connections ==>
                  s.conns[id].state.Disconnected? && s.conns[id].closes == 1 && s.conns[id].destroys == 1)
  {
    var s := ss[|steps|];
    RunKeepsInv(ss, steps);
    forall fd: nat | Registered(s.slots, fd) && fd !in s.own
      ensures exists id :: id in s.connections && id in s.conns && s.conns[id].fd == fd
    {
      NobodyIsClosedAtPoll(s, s.channels[fd]);
    }
    forall id | id in s.conns
      ensures id in s.connections ==> s.channels[s.conns[id].fd] == id && Registered(s.slots, s.conns[id].fd)
      ensures id !in s.connections ==> s.conns[id].state.Disconnected?
    {
      assert ConnOk(s, id, OWN);
      if s.conns[id].Alive() {
        NobodyIsClosedAtPoll(s, id);
      }
    }
  }

  lemma {:induction false} RunAdvances(ss: seq<System>, steps: seq<Step>, i: nat, id: ConnId)
    requires IsRun(ss, steps) && i <= |steps| && id in ss[i].conns
    ensures id in ss[|steps|].conns
    ensures ss[|steps|].conns[id].fd == ss[i].conns[id].fd
    ensures ss[|steps|].conns[id].state.Rank() >= ss[i].conns[id].state.Rank()
    ensures ss[|steps|].conns[id].closes >= ss[i].conns[id].closes
  {
    var n := |steps|;
    if i == n {
    } else {
      PrefixIsRun(ss, steps, n - 1);
      RunAdvances(ss[..n], steps[..n - 1], i, id);
      RunKeepsInv(ss[..n], steps[..n - 1]);
      assert StepsTo(ss, steps, n - 1);
      StepIsGood(ss[n - 1], steps[n - 1]);
    }
  }

  /**
   Over whole runs a connection only moves forward through its states; it is closed at most
   once and destroyed at most once; its user sees connected() true once, then false once.
   */
  lemma LifecycleIsLinear(ss: seq<System>, steps: seq<Step>, i: nat, id: ConnId)
    requires IsRun(ss, steps) && i <= |steps| && id in ss[i].conns
    ensures id in ss[|steps|].conns
    ensures var c := ss[|steps|].conns[id];
            && c.state.Rank() >= ss[i].conns[id].state.Rank()
            && c.closes <= 1 && c.destroys <= c.closes
            && c.callbacks == (if c.destroys == 0 then [true] else [true, false])
            && (c.destroys == 1 <==> c.state.Disconnected?)
  {
    RunAdvances(ss, steps, i, id);
    RunKeepsInv(ss, steps);
    assert ConnOk(ss[|steps|], id, OWN);
  }

  /** Both streams of every connection, in every reachable state of the whole reactor. */
  lemma StreamsAreConserved(ss: seq<System>, steps: seq<Step>, id: ConnId)
    requires IsRun(ss, steps) && id in ss[|steps|].conns
    ensures var c := ss[|steps|].conns[id];
            && c.wire + c.output == c.accepted
            && c.consumed + c.input == c.delivered
            && c.halfCloses <= 1
            && (c.halfCloses == 1 ==> |c.wire| == c.wireAtHalfClose)
            && (c.closes == 0 ==> (c.IsWriting() <==> c.output != []) && !c.undrainedHalfClose)
  {
    RunKeepsInv(ss, steps);
    assert ConnOk(ss[|steps|], id, OWN);
  }

  /**
   While active channels are being handled, each one still to come sits in the slot poll
   found it in, and its connection is alive, unclosed and owned.
   */
  lemma DispatchIsSafe(ss: seq<System>, steps: seq<Step>, k: nat)
    requires IsRun(ss, steps)
    requires var s := ss[|steps|]; s.phase.Dispatch? && k < |s.phase.active|
    ensures var s := ss[|steps|];
            var ev := s.phase.active[k];
            && ev.slot < |s.slots| && Decode(s.slots[ev.slot].fd) == ev.fd
            && ev.fd in s.channels && s.channels[ev.fd] == ev.channel
            && (ev.channel != OWN ==>
                  && ev.channel in s.conns && s.conns[ev.channel].Alive() && s.conns[ev.channel].closes == 0
                  && Owned(s, ev.channel))
  {
    var s := ss[|steps|];
    RunKeepsInv(ss, steps);
    assert EventOk(s, s.phase.active[k]);
    if s.phase.active[k].channel != OWN {
      assert ConnOk(s, s.phase.active[k].channel, OWN);
    }
  }

  /** Muted by the close, the channel does not write in the rest of its handleEvent. */
  lemma EventAfterClose(s: System, ev: Event, env: Env)
    requires ev.channel != OWN && WantsRead(ev.revents) && env.read == Delivered([])
    requires ev.channel in s.conns && Registered(s.slots, s.conns[ev.channel].fd)
    requires HandleClose(s, ev.channel) == Ok(Closed(s, ev.channel))
    ensures HandleEvent(s, ev, env) == Ok(Closed(s, ev.channel))
  {
    var s1 := Closed(s, ev.channel);
    assert s1.conns[ev.channel := s1.conns[ev.channel]] == s1.conns;
  }

  /** A handler that reads the end of the stream closes its connection and queues the teardown. */
  lemma EndOfStreamCloses(ss: seq<System>, steps: seq<Step>, env: Env)
    requires IsRun(ss, steps) && env.read == Delivered([])
    requires var s := ss[|steps|];
             && s.phase.Dispatch? && s.phase.active != []
             && s.phase.active[0].channel != OWN && WantsRead(s.phase.active[0].revents)
    ensures var r, id := Perform(ss[|steps|], HandleNext(env)), ss[|steps|].phase.active[0].channel;
            && r.Ok? && id in r.value.conns && r.value.conns[id].closes == 1
            && id !in r.value.connections && Destroy(id) in r.value.pending
  {
    var s := ss[|steps|];
    var s1, ev := s.(phase := Dispatch(s.phase.active[1..])), s.phase.active[0];
    RunKeepsInv(ss, steps);
    FirstIsHandled(s);
    HandledIsOpen(s1, ev.channel);
    InvGivesLinkOk(s1, ev.channel, OWN);
    HandleCloseValue(s1, ev.channel);
    EventAfterClose(s1, ev, env);
  }

  /** A connection closed at any time is torn down, and its channel gone, by the next poll. */
  lemma ClosedIsGoneByNextPoll(ss: seq<System>, steps: seq<Step>, i: nat, id: ConnId)
    requires IsRun(ss, steps) && i <= |steps| && id in ss[i].conns && ss[i].conns[id].closes > 0
    requires ss[|steps|].phase.AtPoll?
    ensures var s := ss[|steps|];
            && id in s.conns && s.conns[id].state.Disconnected? && s.conns[id].destroys == 1
            && id !in s.connections && forall fd :: fd in s.channels ==> s.channels[fd] != id
  {
    RunAdvances(ss, steps, i, id);
    RunKeepsInv(ss, steps);
    assert ConnOk(ss[|steps|], id, OWN);
    if ss[|steps|].conns[id].Alive() {
      NobodyIsClosedAtPoll(ss[|steps|], id);
    }
  }

  // ---------------------------------------------------------------- a close can strand a message

  // A run that half-closes over a whole message.  Descriptor 3 listens, 4 is the timerfd.  A
  // client is accepted on 5; then one poll finds both the timer and the client's end of stream.
  // The timer callback comes first: it sends to the client and queues a functor, and that
  // functor, which runs before the teardown, shuts the connection down.

  function Boot(slots: Slots, phase: Phase): System {
    System({3, 4}, 3, slots, map[3 := OWN, 4 := OWN], map[], {}, 1, [], phase)
  }

  /** The system once the client is known as connection 1, in state `c`. */
  function Serving(c: Conn, slots: Slots, connections: set<ConnId>, pending: seq<Functor>, phase: Phase): System {
    System({3, 4}, 3, slots, map[3 := OWN, 4 := OWN, 5 := 1], map[1 := c], connections, 2, pending, phase)
  }

  function OwnSlots(first: Mask, second: Mask): Slots {
    [PollFd(3, READ_EVENT, first), PollFd(4, READ_EVENT, second)]
  }

  function Client(): Conn {
    NewConn(5).(state := Connected, indexed := true, events := READ_EVENT, callbacks := [true])
  }

  /** The direct write took nothing: the message waits in the buffer for POLLOUT. */
  function SentTo(message: seq<Byte>): Conn {
    Client().(accepted := message, output := message, events := WRITE_EVENT)
  }

  function ClosedOver(message: seq<Byte>): Conn {
    SentTo(message).(closes := 1, events := NONE_EVENT)
  }

  function ShutOver(message: seq<Byte>): Conn {
    ClosedOver(message).(state := Disconnecting, halfCloses := 1, wireAtHalfClose := 0, undrainedHalfClose := true)
  }

  function Callback(actions: seq<Action>): Env {
    Env(-1, ReadResult.Failed(0), 0, -1, false, actions)
  }

  lemma Extend(ss: seq<System>, steps: seq<Step>, step: Step, s: System) returns (ss': seq<System>, steps': seq<Step>)
    requires IsRun(ss, steps) && Perform(ss[|steps|], step) == Ok(s)
    ensures IsRun(ss', steps') && ss'[|steps'|] == s
  {
    ss', steps' := ss + [s], steps + [step];
    forall i | 0 <= i < |steps'|
      ensures StepsTo(ss', steps', i)
    {
      assert i < |steps| ==> StepsTo(ss, steps, i);
    }
  }

  lemma PollReports(s: System, revents: seq<Mask>, t: Slots, ready: seq<int>)
    requires s.phase.AtPoll? && PollContract(s.slots, revents)
    requires WithRevents(s.slots, revents) == t && Ready(t) == ready
    requires forall k :: 0 <= k < |ready| ==> t[ready[k]].fd >= 0 && (t[ready[k]].fd as nat) in s.channels
    ensures Perform(s, PollReturns(Returned(revents)))
         == Ok(s.(slots := t, phase := Dispatch(ActiveEvents(s, t, ready))))
  {
  }

  lemma FirstReady(t: Slots)
    requires |t| == 2 && t[0].revents != {} && t[1].revents == {}
    ensures Ready(t) == [0]
  {
    assert ReadyBefore(t, 0) == [] && ReadyBefore(t, 1) == [0];
  }

  lemma ListenerReady()
    ensures Perform(Boot(OwnSlots({}, {}), AtPoll), PollReturns(Returned([{POLLIN}, {}])))
         == Ok(Boot(OwnSlots({POLLIN}, {}), Dispatch([Event(OWN, 3, 0, {POLLIN})])))
  {
    var s, t := Boot(OwnSlots({}, {}), AtPoll), OwnSlots({POLLIN}, {});
    assert WithRevents(s.slots, [{POLLIN}, {}]) == t;
    FirstReady(t);
    PollReports(s, [{POLLIN}, {}], t, [0]);
    assert ActiveEvents(s, t, [0]) == [Event(OWN, 3, 0, {POLLIN})];
  }

  lemma ClientAccepted(env: Env)
    requires env.accepted == 5 && env.actions == []
    ensures Perform(Boot(OwnSlots({POLLIN}, {}), Dispatch([Event(OWN, 3, 0, {POLLIN})])), HandleNext(env))
         == Ok(Serving(Client(), OwnSlots({POLLIN}, {}) + [PollFd(5, READ_EVENT, {})], {1}, [], Dispatch([])))
  {
    var s := Boot(OwnSlots({POLLIN}, {}), Dispatch([]));
    assert [Event(OWN, 3, 0, {POLLIN})][1..] == [];
    NewConnectionValue(s, 5, []);
    assert s.channels[5 := 1] == map[3 := OWN, 4 := OWN, 5 := 1] && s.conns[1 := Client()] == map[1 := Client()];
    var slots := OwnSlots({POLLIN}, {}) + [PollFd(5, READ_EVENT, {})];
    assert Established(s, 5) == Serving(Client(), slots, {1}, [], Dispatch([]));
  }

  lemma LastTwoReady(t: Slots)
    requires |t| == 3 && t[0].revents == {} && t[1].revents != {} && t[2].revents != {}
    ensures Ready(t) == [1, 2]
  {
    assert ReadyBefore(t, 1) == [] && ReadyBefore(t, 2) == [1];
  }

  lemma TimerAndClientReady()
    ensures Perform(Serving(Client(), OwnSlots({POLLIN}, {}) + [PollFd(5, READ_EVENT, {})], {1}, [], AtPoll),
                    PollReturns(Returned([{}, {POLLIN}, {POLLIN}])))
         == Ok(Serving(Client(), OwnSlots({}, {POLLIN}) + [PollFd(5, READ_EVENT, {POLLIN})], {1}, [],
                       Dispatch([Event(OWN, 4, 1, {POLLIN}), Event(1, 5, 2, {POLLIN})])))
  {
    var s := Serving(Client(), OwnSlots({POLLIN}, {}) + [PollFd(5, READ_EVENT, {})], {1}, [], AtPoll);
    var t := OwnSlots({}, {POLLIN}) + [PollFd(5, READ_EVENT, {POLLIN})];
    var revents: seq<Mask> := [{}, {POLLIN}, {POLLIN}];
    assert WithRevents(s.slots, revents) == t;
    LastTwoReady(t);
    PollReports(s, revents, t, [1, 2]);
    assert ActiveEvents(s, t, [1, 2]) == [Event(OWN, 4, 1, {POLLIN}), Event(1, 5, 2, {POLLIN})];
  }

  lemma SendTakesNothing(l: Link<ConnId>, message: seq<Byte>)
    requires message != [] && l.conn == Client()
    requires 5 in l.channels && l.channels[5] == l.channel && Registered(l.slots, 5)
    ensures Send(l, message, 0)
         == Ok(l.(conn := SentTo(message), slots := Updated(l.slots, true, 5, WRITE_EVENT),
                  channels := l.channels[5 := l.channel]))
  {
    assert Take(Client(), message, 0) == Client().(accepted := message, output := message);
  }

  lemma TimerSends(message: seq<Byte>)
    requires message != []
    ensures Perform(Serving(Client(), OwnSlots({}, {POLLIN}) + [PollFd(5, READ_EVENT, {POLLIN})], {1}, [],
                            Dispatch([Event(OWN, 4, 1, {POLLIN}), Event(1, 5, 2, {POLLIN})])),
                    HandleNext(Callback([SendTo(1, message, 0), Queue(7)])))
         == Ok(Serving(SentTo(message), OwnSlots({}, {POLLIN}) + [PollFd(5, WRITE_EVENT, {})], {1}, [User(7)],
                       Dispatch([Event(1, 5, 2, {POLLIN})])))
  {
    var slots := OwnSlots({}, {POLLIN}) + [PollFd(5, READ_EVENT, {POLLIN})];
    var slots' := OwnSlots({}, {POLLIN}) + [PollFd(5, WRITE_EVENT, {})];
    var phase := Dispatch([Event(1, 5, 2, {POLLIN})]);
    var s, s' := Serving(Client(), slots, {1}, [], phase), Serving(SentTo(message), slots', {1}, [], phase);
    var actions := [SendTo(1, message, 0), Queue(7)];
    assert Find(slots, 5) == 2;
    assert Updated(slots, true, 5, WRITE_EVENT) == slots';
    SendTakesNothing(LinkOf(s, 1), message);
    assert s.channels[5 := 1] == s.channels && s.conns[1 := SentTo(message)] == s'.conns;
    assert Act(s, actions[0]) == Ok(s');
    assert actions[..1] == [actions[0]] && actions[..1][..0] == [] && actions[..2] == actions;
    assert ActAll(s, []) == Ok(s);
    assert ActAll(s, actions[..1]) == Ok(s');
    assert s'.pending + [User(7)] == [User(7)];
    assert ActAll(s, actions) == Ok(s'.(pending := [User(7)]));
    assert [Event(OWN, 4, 1, {POLLIN}), Event(1, 5, 2, {POLLIN})][1..] == s.phase.active;
  }

  lemma ClientReadsEnd(message: seq<Byte>, env: Env)
    requires message != [] && env.read == Delivered([])
    ensures Perform(Serving(SentTo(message), OwnSlots({}, {POLLIN}) + [PollFd(5, WRITE_EVENT, {})], {1}, [User(7)],
                            Dispatch([Event(1, 5, 2, {POLLIN})])),
                    HandleNext(env))
         == Ok(Serving(ClosedOver(message), OwnSlots({}, {POLLIN}) + [PollFd(Mute(5), NONE_EVENT, {})], {},
                       [User(7), Destroy(1)], Dispatch([])))
  {
    var slots := OwnSlots({}, {POLLIN}) + [PollFd(5, WRITE_EVENT, {})];
    var s := Serving(SentTo(message), slots, {1}, [User(7)], Dispatch([]));
    assert Find(slots, 5) == 2;
    assert [Event(1, 5, 2, {POLLIN})][1..] == [];
    HandleCloseValue(s, 1);
    assert s.conns[1 := ClosedOver(message)] == map[1 := ClosedOver(message)];
    EventAfterClose(s, Event(1, 5, 2, {POLLIN}), env);
    assert Updated(slots, true, 5, NONE_EVENT) == OwnSlots({}, {POLLIN}) + [PollFd(Mute(5), NONE_EVENT, {})];
    assert [User(7)] + [Destroy(1)] == [User(7), Destroy(1)] && s.connections - {1} == {};
  }

  lemma FunctorShutsDown(message: seq<Byte>, slots: Slots)
    requires message != []
    ensures Perform(Serving(ClosedOver(message), slots, {}, [], Batch([], [User(7), Destroy(1)])),
                    RunNext([ShutdownOf(1)]))
         == Ok(Serving(ShutOver(message), slots, {}, [], Batch([User(7)], [Destroy(1)])))
  {
    var s := Serving(ClosedOver(message), slots, {}, [], Batch([User(7)], [Destroy(1)]));
    var s' := Serving(ShutOver(message), slots, {}, [], Batch([User(7)], [Destroy(1)]));
    assert [User(7), Destroy(1)][1..] == [Destroy(1)] && [] + [User(7)] == [User(7)];
    assert s.conns[1 := ShutOver(message)] == s'.conns;
    assert Act(s, ShutdownOf(1)) == Ok(s');
    assert [ShutdownOf(1)][..0] == [] && ActAll(s, []) == Ok(s);
    assert ActAll(s, [ShutdownOf(1)]) == Ok(s');
  }

  lemma KnockAndServe(accept: Env) returns (ss: seq<System>, steps: seq<Step>)
    requires accept.accepted == 5 && accept.actions == []
    ensures IsRun(ss, steps)
    ensures ss[|steps|]
         == Serving(Client(), OwnSlots({POLLIN}, {}) + [PollFd(5, READ_EVENT, {})], {1}, [], Dispatch([]))
  {
    BootIsInit();
    ss, steps := [Boot(OwnSlots({}, {}), AtPoll)], [];
    ListenerReady();
    ss, steps := Extend(ss, steps, PollReturns(Returned([{POLLIN}, {}])),
                        Boot(OwnSlots({POLLIN}, {}), Dispatch([Event(OWN, 3, 0, {POLLIN})])));
    ClientAccepted(accept);
    ss, steps := Extend(ss, steps, HandleNext(accept),
                        Serving(Client(), OwnSlots({POLLIN}, {}) + [PollFd(5, READ_EVENT, {})], {1}, [], Dispatch([])));
  }

  lemma ServeClient() returns (ss: seq<System>, steps: seq<Step>)
    ensures IsRun(ss, steps)
    ensures ss[|steps|] == Serving(Client(), OwnSlots({POLLIN}, {}) + [PollFd(5, READ_EVENT, {})], {1}, [], AtPoll)
  {
    var serving := OwnSlots({POLLIN}, {}) + [PollFd(5, READ_EVENT, {})];
    ss, steps := KnockAndServe(Callback([]).(accepted := 5));
    ss, steps := Extend(ss, steps, EndDispatch, Serving(Client(), serving, {1}, [], Batch([], [])));
    ss, steps := Extend(ss, steps, EndBatch, Serving(Client(), serving, {1}, [], AtPoll));
  }

  lemma BootIsInit()
    ensures IsInit(Boot(OwnSlots({}, {}), AtPoll))
  {
    var slots := OwnSlots({}, {});
    assert Find(slots, 3) == 0 && Find(slots, 4) == 1;
  }

  lemma StrandFrom(ss: seq<System>, steps: seq<Step>, message: seq<Byte>, eof: Env)
    returns (ss': seq<System>, steps': seq<Step>)
    requires IsRun(ss, steps) && message != [] && eof.read == Delivered([])
    requires ss[|steps|] == Serving(Client(), OwnSlots({POLLIN}, {}) + [PollFd(5, READ_EVENT, {})], {1}, [], AtPoll)
    ensures IsRun(ss', steps')
    ensures ss'[|steps'|].conns == map[1 := ShutOver(message)]
  {
    var closed := OwnSlots({}, {POLLIN}) + [PollFd(Mute(5), NONE_EVENT, {})];
    TimerAndClientReady();
    ss', steps' := Extend(ss, steps, PollReturns(Returned([{}, {POLLIN}, {POLLIN}])),
                          Serving(Client(), OwnSlots({}, {POLLIN}) + [PollFd(5, READ_EVENT, {POLLIN})], {1}, [],
                                  Dispatch([Event(OWN, 4, 1, {POLLIN}), Event(1, 5, 2, {POLLIN})])));
    TimerSends(message);
    ss', steps' := Extend(ss', steps', HandleNext(Callback([SendTo(1, message, 0), Queue(7)])),
                          Serving(SentTo(message), OwnSlots({}, {POLLIN}) + [PollFd(5, WRITE_EVENT, {})],
                                  {1}, [User(7)], Dispatch([Event(1, 5, 2, {POLLIN})])));
    ClientReadsEnd(message, eof);
    ss', steps' := Extend(ss', steps', HandleNext(eof),
                          Serving(ClosedOver(message), closed, {}, [User(7), Destroy(1)], Dispatch([])));
    ss', steps' := Extend(ss', steps', EndDispatch,
                          Serving(ClosedOver(message), closed, {}, [], Batch([], [User(7), Destroy(1)])));
    FunctorShutsDown(message, closed);
    ss', steps' := Extend(ss', steps', RunNext([ShutdownOf(1)]),
                          Serving(ShutOver(message), closed, {}, [], Batch([User(7)], [Destroy(1)])));
  }

  /**
   Until handleClose no half-close overtakes buffered bytes; after it one can.  This run of the
   whole reactor strands a complete message that send had accepted.
   */
  lemma CloseStrandsMessage(message: seq<Byte>)
    requires message != []
    ensures exists ss: seq<System>, steps: seq<Step> ::
              && IsRun(ss, steps) && 1 in ss[|steps|].conns
              && var c := ss[|steps|].conns[1];
                 c.undrainedHalfClose && c.wire == [] && c.output == c.accepted == message
  {
    var ss, steps := ServeClient();
    ss, steps := StrandFrom(ss, steps, message, Callback([]).(read := Delivered([])));
  }

  // ---------------------------------------------------------------- connections nobody reads any more

  /** A live, unclosed connection whose channel does not ask for input. */
  predicate Quiet(c: Conn) {
    c.Alive() && c.closes == 0 && (c.events == NONE_EVENT || c.events == WRITE_EVENT)
  }

  predicate StillQuiet(c: Conn, c': Conn) {
    Quiet(c') && c'.delivered == c.delivered
  }

  /** `id` is quiet, and no input of it waits to be handled. */
  ghost predicate Deaf(s: System, id: ConnId) {
    && id in s.conns && Quiet(s.conns[id])
    && (s.phase.Dispatch? ==>
          forall k :: 0 <= k < |s.phase.active| && s.phase.active[k].channel == id ==>
            !WantsRead(s.phase.active[k].revents))
  }

  ghost predicate StaysDeafIn(s: System, s': System, id: ConnId)
    requires id in s.conns
  {
    Deaf(s', id) && s'.conns[id].delivered == s.conns[id].delivered
  }

  /** If `r` is a state, its connection `id` is still quiet and has read nothing since it was `c`. */
  ghost predicate LeavesQuiet(c: Conn, r: Outcome<System>, id: ConnId) {
    r.Ok? ==> id in r.value.conns && StillQuiet(c, r.value.conns[id])
  }

  lemma CallsLeaveQuiet(l: Link<ConnId>, message: seq<Byte>, written: int)
    requires Quiet(l.conn)
    ensures var r := Send(l, message, written); r.Ok? ==> StillQuiet(l.conn, r.value.conn)
    ensures var r := HandleWrite(l, written); r.Ok? ==> StillQuiet(l.conn, r.value.conn)
    ensures StillQuiet(l.conn, Shutdown(l).conn)
  {
  }

  lemma ActLeavesQuiet(s: System, a: Action, id: ConnId)
    requires id in s.conns && Quiet(s.conns[id])
    ensures LeavesQuiet(s.conns[id], Act(s, a), id)
  {
    match a
    case SendTo(_, message, written) => CallsLeaveQuiet(LinkOf(s, id), message, written);
    case ShutdownOf(_) => CallsLeaveQuiet(LinkOf(s, id), [], 0);
    case Queue(_) =>
  }

  lemma {:induction false} ActAllLeavesQuiet(s: System, actions: seq<Action>, id: ConnId)
    requires id in s.conns && Quiet(s.conns[id])
    ensures LeavesQuiet(s.conns[id], ActAll(s, actions), id)
  {
    if actions == [] {
    } else {
      var front := actions[..|actions| - 1];
      ActAllLeavesQuiet(s, front, id);
      if ActAll(s, front).Ok? {
        ActLeavesQuiet(ActAll(s, front).value, actions[|actions| - 1], id);
      }
    }
  }

  lemma NewConnectionLeavesQuiet(s: System, fd: nat, actions: seq<Action>, id: ConnId)
    requires id in s.conns && Quiet(s.conns[id]) && id != s.nextConnId
    ensures LeavesQuiet(s.conns[id], NewConnection(s, fd, actions), id)
  {
    if Free(s, fd) {
      NewConnectionValue(s, fd, actions);
      ActAllLeavesQuiet(Established(s, fd), actions, id);
    }
  }

  lemma HandleReadLeavesQuiet(s: System, other: ConnId, env: Env, id: ConnId)
    requires id in s.conns && Quiet(s.conns[id]) && other in s.conns && other != id
    ensures LeavesQuiet(s.conns[id], HandleRead(s, other, env), id)
  {
    if env.read.Delivered? && env.taken <= |s.conns[other].input| + |env.read.bytes| {
      var c := ReadIn(s.conns[other], env.read.bytes, env.taken);
      ActAllLeavesQuiet(Put(s, LinkOf(s, other).(conn := c)), env.actions, id);
    }
  }

  lemma HandleEventLeavesQuiet(s: System, ev: Event, env: Env, id: ConnId)
    requires id in s.conns && Quiet(s.conns[id]) && OWN < id < s.nextConnId
    requires ev.channel == id ==> !WantsRead(ev.revents)
    ensures LeavesQuiet(s.conns[id], HandleEvent(s, ev, env), id)
  {
    ActAllLeavesQuiet(s, env.actions, id);
    if ev.channel == OWN {
      if env.accepted >= 0 {
        NewConnectionLeavesQuiet(s, env.accepted, env.actions, id);
      }
    } else if ev.channel == id {
      CallsLeaveQuiet(LinkOf(s, id), [], env.written);
    } else if ev.channel in s.conns {
      HandleReadLeavesQuiet(s, ev.channel, env, id);
    }
  }

  lemma ConnectDestroyedLeavesQuiet(s: System, other: ConnId, actions: seq<Action>, id: ConnId)
    requires id in s.conns && Quiet(s.conns[id]) && other in s.conns && other != id
    ensures LeavesQuiet(s.conns[id], ConnectDestroyed(s, other, actions), id)
  {
    var l := BeginDestroy(LinkOf(s, other));
    if l.Ok? {
      ActAllLeavesQuiet(Put(s, l.value), actions, id);
    }
  }

  /** poll reports what the mask asks for, or an error: never input for a quiet connection. */
  lemma QuietSlotHasNoInput(slots: Slots, revents: seq<Mask>, i: nat, fd: nat, events: Mask)
    requires Distinct(slots) && PollContract(slots, revents) && i < |slots| && Decode(slots[i].fd) == fd
    requires WatchedFor(slots, fd, events, false) && (events == NONE_EVENT || events == WRITE_EVENT)
    ensures !WantsRead(revents[i])
  {
    FindIsUnique(slots, i);
    assert revents[i] <= slots[i].events + UNASKED;
  }

  lemma PollLeavesDeaf(s: System, revents: seq<Mask>, id: ConnId)
    requires Distinct(s.slots) && ChannelsKnown(s, OWN) && id in s.conns && ConnOk(s, id, OWN) && Quiet(s.conns[id])
    requires s.phase.AtPoll? && Poll(s, Returned(revents)).Ok?
    ensures StaysDeafIn(s, Poll(s, Returned(revents)).value, id)
  {
    var t := WithRevents(s.slots, revents);
    var ready := Ready(t);
    var active := ActiveEvents(s, t, ready);
    forall k | 0 <= k < |ready| && active[k].channel == id
      ensures !WantsRead(active[k].revents)
    {
      QuietSlotHasNoInput(s.slots, revents, ready[k], s.conns[id].fd, s.conns[id].events);
    }
  }

  lemma RunNextLeavesDeaf(s: System, actions: seq<Action>, id: ConnId)
    requires Inv(s) && Deaf(s, id) && ConnOk(s, id, OWN) && Perform(s, RunNext(actions)).Ok?
    ensures StaysDeafIn(s, Perform(s, RunNext(actions)).value, id)
  {
    var f := s.phase.rest[0];
    assert f in Waiting(s);
    if f.User? {
      ActAllLeavesQuiet(Taken(s), actions, id);
      TakenUserIsGood(s);
      ActAllKeepsInv(Taken(s), actions, OWN);
    } else {
      ConnectDestroyedLeavesQuiet(Taken(s), f.id, actions, id);
      TakenDestroyIsGood(s);
      ConnectDestroyedIsGood(Taken(s), f.id, actions);
    }
  }

  lemma HandleNextLeavesDeaf(s: System, env: Env, id: ConnId)
    requires Inv(s) && Deaf(s, id) && ConnOk(s, id, OWN) && Perform(s, HandleNext(env)).Ok?
    ensures StaysDeafIn(s, Perform(s, HandleNext(env)).value, id)
  {
    var s1, ev := s.(phase := Dispatch(s.phase.active[1..])), s.phase.active[0];
    FirstIsHandled(s);
    HandleEventLeavesQuiet(s1, ev, env, id);
    if ev.channel == OWN {
      OwnEventIsGood(s1, ev, env);
    } else {
      ConnEventIsGood(s1, ev, env);
    }
  }

  lemma StepLeavesDeaf(s: System, step: Step, id: ConnId)
    requires Inv(s) && Deaf(s, id) && Perform(s, step).Ok?
    ensures StaysDeafIn(s, Perform(s, step).value, id)
  {
    assert ConnOk(s, id, OWN);
    match step
    case PollReturns(kernel) =>
      if kernel.Returned? {
        PollLeavesDeaf(s, kernel.revents, id);
      }
    case HandleNext(env) => HandleNextLeavesDeaf(s, env, id);
    case RunNext(actions) => RunNextLeavesDeaf(s, actions, id);
    case _ =>
  }

  lemma DeafIsKept(s: System, id: ConnId)
    requires Inv(s) && Deaf(s, id)
    ensures id in s.connections && s.conns[id].destroys == 0
  {
    assert ConnOk(s, id, OWN);
  }

  lemma NotReadingIsDeaf(s: System, id: ConnId)
    requires Inv(s) && s.phase.AtPoll? && id in s.conns && s.conns[id].Alive() && s.conns[id].events != READ_EVENT
    ensures Deaf(s, id)
  {
    NobodyIsClosedAtPoll(s, id);
    assert ConnOk(s, id, OWN);
  }

  lemma RunKeepsInvAt(ss: seq<System>, steps: seq<Step>, n: nat)
    requires IsRun(ss, steps) && n <= |steps|
    ensures Inv(ss[n])
  {
    PrefixIsRun(ss, steps, n);
    RunKeepsInv(ss[..n + 1], steps[..n]);
  }

  lemma StepOfRunLeavesDeaf(ss: seq<System>, steps: seq<Step>, n: nat, id: ConnId)
    requires IsRun(ss, steps) && n < |steps| && Deaf(ss[n], id)
    ensures StaysDeafIn(ss[n], ss[n + 1], id)
  {
    RunKeepsInvAt(ss, steps, n);
    assert StepsTo(ss, steps, n);
    StepLeavesDeaf(ss[n], steps[n], id);
  }

  lemma {:induction false} StaysDeaf(ss: seq<System>, steps: seq<Step>, i: nat, n: nat, id: ConnId)
    requires IsRun(ss, steps) && i <= n <= |steps| && Deaf(ss[i], id)
    ensures StaysDeafIn(ss[i], ss[n], id)
  {
    if i == n {
    } else {
      StaysDeaf(ss, steps, i, n - 1, id);
      StepOfRunLeavesDeaf(ss, steps, n - 1, id);
    }
  }

  /**
   A live connection that does not ask for input at a poll point never will again: whatever
   happens, none of its input is ever handled, it is never closed or torn down, and the
   server keeps it in its map for ever.
   */
  lemma NeverReadAgain(ss: seq<System>, steps: seq<Step>, i: nat, n: nat, id: ConnId)
    requires IsRun(ss, steps) && i <= n <= |steps|
    requires ss[i].phase.AtPoll? && id in ss[i].conns && ss[i].conns[id].Alive() && ss[i].conns[id].events != READ_EVENT
    ensures var s := ss[n];
            && Deaf(s, id) && id in s.connections
            && s.conns[id].closes == 0 && s.conns[id].destroys == 0 && s.conns[id].events != READ_EVENT
            && s.conns[id].delivered == ss[i].conns[id].delivered
  {
    RunKeepsInvAt(ss, steps, i);
    NotReadingIsDeaf(ss[i], id);
    StaysDeaf(ss, steps, i, n, id);
    RunKeepsInvAt(ss, steps, n);
    DeafIsKept(ss[n], id);
  }

  /** What triggers it: a send whose direct write does not take the whole message. */
  lemma SendStopsReading(s: System, id: ConnId, message: seq<Byte>, written: int)
    requires Inv(s) && id in s.conns && s.conns[id].state.Connected? && s.conns[id].closes == 0
    ensures var r := Act(s, SendTo(id, message, written));
            r.Ok? ==>
              (r.value.conns[id].events == READ_EVENT
               <==> s.conns[id].events == READ_EVENT && (message == [] || written == |message|))
  {
    assert ConnOk(s, id, OWN);
    if Act(s, SendTo(id, message, written)).Ok? {
      StepReads(LinkOf(s, id), SendMessage(message, written));
    }
  }

  // ---------------------------------------------------------------- which calls lead there

  /** What user code does in the event `ev`: it runs in the loop's own handlers and on a message. */
  function EventActions(ev: Event, env: Env): seq<Action> {
    if ev.channel == OWN || (WantsRead(ev.revents) && env.read.Delivered? && env.read.bytes != []) then env.actions
    else []
  }

  function ActionsOf(s: System, step: Step): seq<Action> {
    match step
    case HandleNext(env) =>
      if s.phase.Dispatch? && s.phase.active != [] then EventActions(s.phase.active[0], env) else []
    case RunNext(actions) => actions
    case _ => []
  }

  /** Call `k` sends to `id`, which has not been shut down before it, and is not taken at once. */
  predicate SendsShort(actions: seq<Action>, k: nat, id: ConnId)
    requires k < |actions|
  {
    && actions[k].SendTo? && actions[k].id == id && actions[k].message != []
    && actions[k].written != |actions[k].message| && ShutdownOf(id) !in actions[..k]
  }

  predicate HasShortSend(actions: seq<Action>, id: ConnId) {
    exists k :: 0 <= k < |actions| && SendsShort(actions, k, id)
  }

  lemma HasShortSendSplits(actions: seq<Action>, id: ConnId)
    requires actions != []
    ensures var n := |actions| - 1;
            HasShortSend(actions, id) <==> HasShortSend(actions[..n], id) || SendsShort(actions, n, id)
    ensures var n := |actions| - 1;
            ShutdownOf(id) in actions <==> ShutdownOf(id) in actions[..n] || actions[n] == ShutdownOf(id)
  {
    var n := |actions| - 1;
    assert actions == actions[..n] + [actions[n]];
    assert forall k :: 0 <= k < n ==> actions[..n][..k] == actions[..k];
    assert forall k :: 0 <= k < n ==> SendsShort(actions[..n], k, id) == SendsShort(actions, k, id);
  }

  /** A live connection that no close has reached. */
  ghost predicate Open(c: Conn) {
    StreamInv(c) && c.Alive() && c.closes == 0 && c.destroys == 0
  }

  /** `c'` is `c` after user code: still open, and reading unless a short send got through. */
  ghost predicate ReadsAfter(c: Conn, c': Conn, actions: seq<Action>, id: ConnId) {
    && Open(c')
    && (c'.state.Connected? <==> c.state.Connected? && ShutdownOf(id) !in actions)
    && (c'.events == READ_EVENT <==> c.events == READ_EVENT && !(c.state.Connected? && HasShortSend(actions, id)))
  }

  lemma ActReads(s: System, a: Action, id: ConnId)
    requires id in s.conns && Open(s.conns[id]) && Act(s, a).Ok?
    ensures id in Act(s, a).value.conns
    ensures var c, c' := s.conns[id], Act(s, a).value.conns[id];
            && Open(c')
            && (c'.state.Connected? <==> c.state.Connected? && a != ShutdownOf(id))
            && (c'.events == READ_EVENT <==> c.events == READ_EVENT && !(c.state.Connected? && SendsShort([a], 0, id)))
  {
    match a
    case SendTo(to, message, written) =>
      if to == id {
        StepReads(LinkOf(s, id), SendMessage(message, written));
        SendKeepsStream(LinkOf(s, id), message, written);
      }
    case ShutdownOf(to) =>
      if to == id {
        StepKeepsStream(LinkOf(s, id), ShutdownCalled);
      }
    case Queue(_) =>
  }

  lemma {:induction false} ActAllReads(s: System, actions: seq<Action>, id: ConnId)
    requires id in s.conns && Open(s.conns[id]) && ActAll(s, actions).Ok?
    ensures var s' := ActAll(s, actions).value;
            id in s'.conns && ReadsAfter(s.conns[id], s'.conns[id], actions, id)
  {
    if actions == [] {
    } else {
      var n := |actions| - 1;
      ActAllReads(s, actions[..n], id);
      ActReads(ActAll(s, actions[..n]).value, actions[n], id);
      HasShortSendSplits(actions, id);
    }
  }

  lemma WriteKeepsReading(l: Link<ConnId>, written: int)
    requires Open(l.conn) && HandleWrite(l, written).Ok?
    ensures var c := HandleWrite(l, written).value.conn;
            Open(c) && c.state == l.conn.state && (c.events == READ_EVENT <==> l.conn.events == READ_EVENT)
  {
    HandleWriteKeepsStream(l, written);
    StepReads(l, WriteReady(written));
  }

  /** One event leaves `id` as the user code that runs in it does, unless it closes `id`. */
  lemma ReadEventReads(s: System, ev: Event, env: Env, id: ConnId)
    requires ev.channel != OWN && ev.channel in s.conns && WantsRead(ev.revents)
    requires id in s.conns && Open(s.conns[id]) && HandleRead(s, ev.channel, env).Ok?
    ensures var s' := HandleRead(s, ev.channel, env).value;
            && id in s'.conns
            && (s'.conns[id].closes == 0 ==> ReadsAfter(s.conns[id], s'.conns[id], EventActions(ev, env), id))
  {
    if env.read.Delivered? && env.read.bytes != [] {
      var c := ReadIn(s.conns[ev.channel], env.read.bytes, env.taken);
      var s1 := Put(s, LinkOf(s, ev.channel).(conn := c));
      if ev.channel == id {
        ReadInConserves(s.conns[id], env.read.bytes, env.taken);
      }
      ActAllReads(s1, env.actions, id);
    }
  }

  lemma ConnEventReads(s: System, ev: Event, env: Env, id: ConnId)
    requires ev.channel != OWN && id in s.conns && Open(s.conns[id]) && HandleEvent(s, ev, env).Ok?
    ensures var s' := HandleEvent(s, ev, env).value;
            && id in s'.conns
            && (s'.conns[id].closes == 0 ==> ReadsAfter(s.conns[id], s'.conns[id], EventActions(ev, env), id))
  {
    if WantsRead(ev.revents) {
      ReadEventReads(s, ev, env, id);
    }
    var s1 := if WantsRead(ev.revents) then HandleRead(s, ev.channel, env).value else s;
    if POLLOUT in ev.revents && env.writeCallbackSet && ev.channel == id && s1.conns[id].closes == 0 {
      WriteKeepsReading(LinkOf(s1, id), env.written);
    }
  }

  lemma OwnEventReads(s: System, ev: Event, env: Env, id: ConnId)
    requires ev.channel == OWN && id in s.conns && id != s.nextConnId && Open(s.conns[id])
    requires HandleEvent(s, ev, env).Ok?
    ensures var s' := HandleEvent(s, ev, env).value;
            id in s'.conns && ReadsAfter(s.conns[id], s'.conns[id], EventActions(ev, env), id)
  {
    if ev.fd == s.listenFd && WantsRead(ev.revents) && env.accepted >= 0 {
      NewConnectionValue(s, env.accepted, env.actions);
      ActAllReads(Established(s, env.accepted), env.actions, id);
    } else {
      ActAllReads(s, env.actions, id);
    }
  }

  lemma DestroyReads(s: System, other: ConnId, actions: seq<Action>, id: ConnId)
    requires other in s.conns && id in s.conns && id != other && Open(s.conns[id])
    requires ConnectDestroyed(s, other, actions).Ok?
    ensures var s' := ConnectDestroyed(s, other, actions).value;
            id in s'.conns && ReadsAfter(s.conns[id], s'.conns[id], actions, id)
  {
    var l := BeginDestroy(LinkOf(s, other));
    ActAllReads(Put(s, l.value), actions, id);
  }

  /** In this step user code sends short to `id`, which is connected or has just been accepted. */
  predicate ShortIn(s: System, step: Step, s': System, id: ConnId) {
    id in s'.conns && (id in s.conns ==> s.conns[id].state.Connected?) && HasShortSend(ActionsOf(s, step), id)
  }

  /** `c'` asks for input if `c` did and no send in the step was short. */
  ghost predicate AsksAfter(s: System, step: Step, s': System, id: ConnId)
    requires id in s'.conns
  {
    s'.conns[id].events == READ_EVENT
    <==> (id in s.conns ==> s.conns[id].events == READ_EVENT) && !ShortIn(s, step, s', id)
  }

  lemma RunNextAsks(s: System, actions: seq<Action>, s': System, id: ConnId)
    requires Perform(s, RunNext(actions)) == Ok(s') && id in s.conns && Open(s.conns[id])
    requires Destroy(id) !in Waiting(s)
    ensures id in s'.conns && AsksAfter(s, RunNext(actions), s', id)
  {
    var f := s.phase.rest[0];
    if f.User? {
      ActAllReads(Taken(s), actions, id);
    } else {
      assert f in Waiting(s);
      DestroyReads(Taken(s), f.id, actions, id);
    }
  }

  lemma HandleNextAsks(s: System, env: Env, s': System, id: ConnId)
    requires Perform(s, HandleNext(env)) == Ok(s') && id in s.conns && Open(s.conns[id]) && id < s.nextConnId
    ensures id in s'.conns && (s'.conns[id].closes == 0 ==> AsksAfter(s, HandleNext(env), s', id))
  {
    var s1, ev := s.(phase := Dispatch(s.phase.active[1..])), s.phase.active[0];
    if ev.channel == OWN {
      OwnEventReads(s1, ev, env, id);
    } else {
      ConnEventReads(s1, ev, env, id);
    }
  }

  /** A connection asks for input when it is accepted, unless its own callback sends short. */
  lemma NewcomerAsks(s: System, ev: Event, env: Env, id: ConnId)
    requires ev.channel == OWN && ev.fd == s.listenFd && WantsRead(ev.revents) && env.accepted >= 0
    requires HandleEvent(s, ev, env).Ok? && id == s.nextConnId
    ensures var s' := HandleEvent(s, ev, env).value;
            id in s'.conns && (s'.conns[id].events == READ_EVENT <==> !HasShortSend(env.actions, id))
  {
    NewConnectionValue(s, env.accepted, env.actions);
    ActAllReads(Established(s, env.accepted), env.actions, id);
  }

  lemma {:induction false} ActAllAddsNobody(s: System, actions: seq<Action>)
    ensures ActAll(s, actions).Ok? ==> ActAll(s, actions).value.conns.Keys == s.conns.Keys
  {
    if actions == [] {
    } else {
      ActAllAddsNobody(s, actions[..|actions| - 1]);
    }
  }

  predicate Accepts(s: System, step: Step) {
    && step.HandleNext? && s.phase.Dispatch? && s.phase.active != [] && s.phase.active[0].channel == OWN
    && s.phase.active[0].fd == s.listenFd && WantsRead(s.phase.active[0].revents) && step.env.accepted >= 0
  }

  lemma HandleEventAddsNobody(s: System, ev: Event, env: Env)
    requires ev.channel == OWN ==> !(ev.fd == s.listenFd && WantsRead(ev.revents) && env.accepted >= 0)
    ensures HandleEvent(s, ev, env).Ok? ==> HandleEvent(s, ev, env).value.conns.Keys == s.conns.Keys
  {
    if ev.channel == OWN {
      ActAllAddsNobody(s, env.actions);
    } else if HandleEvent(s, ev, env).Ok? && WantsRead(ev.revents) && env.read.Delivered? && env.read.bytes != [] {
      var c := ReadIn(s.conns[ev.channel], env.read.bytes, env.taken);
      ActAllAddsNobody(Put(s, LinkOf(s, ev.channel).(conn := c)), env.actions);
    }
  }

  lemma OnlyAcceptAdds(s: System, step: Step)
    ensures Perform(s, step).Ok? && !Accepts(s, step) ==> Perform(s, step).value.conns.Keys == s.conns.Keys
  {
    match step
    case HandleNext(env) =>
      if s.phase.Dispatch? && s.phase.active != [] && !Accepts(s, step) {
        HandleEventAddsNobody(s.(phase := Dispatch(s.phase.active[1..])), s.phase.active[0], env);
      }
    case RunNext(actions) =>
      if Perform(s, step).Ok? {
        var f := s.phase.rest[0];
        if f.User? {
          ActAllAddsNobody(Taken(s), actions);
        } else {
          ActAllAddsNobody(Put(Taken(s), BeginDestroy(LinkOf(Taken(s), f.id)).value), actions);
        }
      }
    case _ =>
  }

  lemma NewcomerIsNext(s: System, env: Env, id: ConnId)
    requires Accepts(s, HandleNext(env)) && Perform(s, HandleNext(env)).Ok?
    requires id !in s.conns && id in Perform(s, HandleNext(env)).value.conns
    ensures id == s.nextConnId
  {
    var s1 := s.(phase := Dispatch(s.phase.active[1..]));
    NewConnectionValue(s1, env.accepted, env.actions);
    ActAllAddsNobody(Established(s1, env.accepted), env.actions);
  }

  lemma StillOpenWasOpen(s: System, s': System, id: ConnId)
    requires id in s.conns && ConnOk(s, id, OWN) && Advances(s, s')
    requires s'.conns[id].Alive() && s'.conns[id].closes == 0
    ensures Open(s.conns[id]) && Destroy(id) !in Waiting(s) && id < s.nextConnId
  {
  }

  lemma OtherStepAsks(s: System, step: Step, s': System, id: ConnId)
    requires !step.HandleNext? && !step.RunNext? && Perform(s, step) == Ok(s') && id in s.conns
    ensures s'.conns == s.conns && AsksAfter(s, step, s', id)
  {
  }

  lemma KnownAsks(s: System, step: Step, s': System, id: ConnId)
    requires Perform(s, step) == Ok(s') && id in s.conns && ConnOk(s, id, OWN) && Advances(s, s')
    requires s'.conns[id].Alive() && s'.conns[id].closes == 0
    ensures Open(s.conns[id]) && AsksAfter(s, step, s', id)
  {
    StillOpenWasOpen(s, s', id);
    match step
    case HandleNext(env) => HandleNextAsks(s, env, s', id);
    case RunNext(actions) => RunNextAsks(s, actions, s', id);
    case _ => OtherStepAsks(s, step, s', id);
  }

  lemma UnknownAsks(s: System, step: Step, id: ConnId)
    requires Perform(s, step).Ok? && id !in s.conns && id in Perform(s, step).value.conns
    ensures AsksAfter(s, step, Perform(s, step).value, id)
  {
    OnlyAcceptAdds(s, step);
    NewcomerIsNext(s, step.env, id);
    NewcomerAsks(s.(phase := Dispatch(s.phase.active[1..])), s.phase.active[0], step.env, id);
  }

  lemma StepAsks(s: System, step: Step, id: ConnId)
    requires Inv(s) && Perform(s, step).Ok? && id in Perform(s, step).value.conns
    requires var c := Perform(s, step).value.conns[id]; c.Alive() && c.closes == 0
    ensures id in s.conns ==> Open(s.conns[id])
    ensures AsksAfter(s, step, Perform(s, step).value, id)
  {
    if id in s.conns {
      StepIsGood(s, step);
      assert ConnOk(s, id, OWN);
      KnownAsks(s, step, Perform(s, step).value, id);
    } else {
      UnknownAsks(s, step, id);
    }
  }

  predicate EverShort(ss: seq<System>, steps: seq<Step>, n: nat, id: ConnId)
    requires n <= |steps| < |ss|
  {
    exists i :: 0 <= i < n && ShortIn(ss[i], steps[i], ss[i + 1], id)
  }

  /** `short`: the connection has been sent to short, in a run that has led to `s`. */
  predicate AsksUnless(s: System, id: ConnId, short: bool) {
    if id in s.conns then
      s.conns[id].Alive() && s.conns[id].closes == 0 ==> (s.conns[id].events == READ_EVENT <==> !short)
    else !short
  }

  lemma StepKeepsAsking(s: System, step: Step, id: ConnId, short: bool)
    requires Inv(s) && Perform(s, step).Ok? && AsksUnless(s, id, short)
    ensures var s' := Perform(s, step).value; AsksUnless(s', id, short || ShortIn(s, step, s', id))
  {
    var s' := Perform(s, step).value;
    if id in s'.conns {
      if s'.conns[id].Alive() && s'.conns[id].closes == 0 {
        StepAsks(s, step, id);
      }
    } else {
      StepIsGood(s, step);
    }
  }

  lemma {:induction false} RunKeepsAsking(ss: seq<System>, steps: seq<Step>, n: nat, id: ConnId)
    requires IsRun(ss, steps) && n <= |steps|
    ensures AsksUnless(ss[n], id, EverShort(ss, steps, n, id))
  {
    if n == 0 {
    } else {
      RunKeepsAsking(ss, steps, n - 1, id);
      RunKeepsInvAt(ss, steps, n - 1);
      assert StepsTo(ss, steps, n - 1);
      StepKeepsAsking(ss[n - 1], steps[n - 1], id, EverShort(ss, steps, n - 1, id));
      assert EverShort(ss, steps, n, id)
             <==> EverShort(ss, steps, n - 1, id) || ShortIn(ss[n - 1], steps[n - 1], ss[n], id);
    }
  }

  /**
   Over every run: at a poll point a live connection asks for input exactly if every send it
   received while connected had its whole message taken by the direct write.  By
   `NeverReadAgain` one short send is for ever.
   */
  lemma InputIsAskedForExactly(ss: seq<System>, steps: seq<Step>, n: nat, id: ConnId)
    requires IsRun(ss, steps) && n <= |steps|
    requires ss[n].phase.AtPoll? && id in ss[n].conns && ss[n].conns[id].Alive()
    ensures ss[n].conns[id].events == READ_EVENT <==> !EverShort(ss, steps, n, id)
  {
    RunKeepsInvAt(ss, steps, n);
    NobodyIsClosedAtPoll(ss[n], id);
    RunKeepsAsking(ss, steps, n, id);
  }

  // ---------------------------------------------------------------- why teardown is queued

  /** When handleEvent returns, even from closing its own connection, that connection has an owner. */
  lemma HandlerLeavesAnOwner(ss: seq<System>, steps: seq<Step>, env: Env)
    requires IsRun(ss, steps)
    requires var s := ss[|steps|]; s.phase.Dispatch? && s.phase.active != [] && s.phase.active[0].channel != OWN
    ensures var r := Perform(ss[|steps|], HandleNext(env));
            r.Ok? ==> Owned(r.value, ss[|steps|].phase.active[0].channel)
  {
    var s := ss[|steps|];
    var id := s.phase.active[0].channel;
    DispatchIsSafe(ss, steps, 0);
    RunKeepsInv(ss, steps);
    StepIsGood(s, HandleNext(env));
    var r := Perform(s, HandleNext(env));
    if r.Ok? {
      assert ConnOk(r.value, id, OWN);
    }
  }

  /** handleClose as it would be if removeConnection ran connectDestroyed at once. */
  function HandleCloseInline(s: System, id: ConnId, actions: seq<Action>): Outcome<System>
    requires id in s.conns
  {
    var l :- BeginClose(LinkOf(s, id));
    :- Assert(id in s.connections);
    ConnectDestroyed(Put(s, l).(connections := s.connections - {id}), id, actions)
  }

  lemma {:induction false} ActAllKeepsOwners(s: System, actions: seq<Action>, id: ConnId)
    requires s.phase.Dispatch?
    ensures ActAll(s, actions).Ok? ==>
              var s' := ActAll(s, actions).value;
              && s'.phase == s.phase && s'.connections == s.connections
              && (Destroy(id) in s'.pending <==> Destroy(id) in s.pending)
  {
    if actions == [] {
    } else {
      ActAllKeepsOwners(s, actions[..|actions| - 1], id);
    }
  }

  lemma InlineTeardownReleases(s: System, id: ConnId, actions: seq<Action>)
    requires s.phase.Dispatch? && id in s.conns && Destroy(id) !in s.pending
    ensures HandleCloseInline(s, id, actions).Ok? ==> !Owned(HandleCloseInline(s, id, actions).value, id)
  {
    var l := BeginClose(LinkOf(s, id));
    if l.Ok? {
      var s1 := Put(s, l.value).(connections := s.connections - {id});
      var l1 := BeginDestroy(LinkOf(s1, id));
      if l1.Ok? {
        ActAllKeepsOwners(Put(s1, l1.value), actions, id);
      }
    }
  }

  /** Not even an assert would stop it: the channel passes those of removeChannel. */
  lemma InlineTeardownPasses(l: Link<ConnId>)
    requires LinkOk(l) && l.conn.Alive() && Distinct(l.slots)
    ensures BeginClose(l).Ok? && BeginDestroy(BeginClose(l).value).Ok?
    ensures RemoveChannel(BeginDestroy(BeginClose(l).value).value).Ok?
  {
    var fd := l.conn.fd;
    UpdateOnlyRewatches(l.slots, fd, NONE_EVENT);
    var once := Updated(l.slots, true, fd, NONE_EVENT);
    UpdateOnlyRewatches(once, fd, NONE_EVENT);
    var twice := Updated(once, true, fd, NONE_EVENT);
    assert Decode(twice[Find(twice, fd)].fd) == fd;
  }

  /** Then the connection would be gone while its own handleEvent is still running. */
  lemma InlineTeardownLeavesNoOwner(s: System, id: ConnId, actions: seq<Action>)
    requires Inv(s) && Handled(s, id)
    ensures HandleCloseInline(s, id, actions).Ok? ==> !Owned(HandleCloseInline(s, id, actions).value, id)
    ensures HandleCloseInline(s, id, []).Ok?
  {
    InvGivesLinkOk(s, id, OWN);
    InlineTeardownPasses(LinkOf(s, id));
    HandledIsOpen(s, id);
    InlineTeardownReleases(s, id, actions);
  }
}
