/**
 TcpConnection.cpp on values: the state of one connection together with the part of the
 Poller its channel writes to.  Each function is one member function of TcpConnection, run
 in the loop thread; the results of `write` are arguments.

 `C` identifies a channel; `channels` is the Poller's map from descriptors to channels.
 */
module Connections {

  import opened ByteBuffer
  import opened Outcomes
  import opened Polling

  datatype ConnState = Connecting | Connected | Disconnecting | Disconnected {
    function Rank(): nat {
      match this
      case Connecting => 0
      case Connected => 1
      case Disconnecting => 2
      case Disconnected => 3
    }
  }

  /** Everything from `accepted` on only records history. */
  datatype Conn = Conn(
    fd: nat,
    state: ConnState,
    indexed: bool,            // channel_->index() >= 0
    events: Mask,             // channel_->events()
    input: seq<Byte>,         // readable bytes of inputBuffer_
    output: seq<Byte>,        // readable bytes of outputBuffer_
    wire: seq<Byte>,          // bytes the kernel took from write
    accepted: seq<Byte>,      // all messages send did not ignore, concatenated
    delivered: seq<Byte>,     // all bytes readFd has read
    consumed: seq<Byte>,      // what message callbacks have taken out of inputBuffer_
    halfCloses: nat,          // calls of shutdownWrite
    wireAtHalfClose: nat,     // |wire| at the last of them
    undrainedHalfClose: bool, // one of them found bytes still in output
    closes: nat,              // calls of handleClose
    destroys: nat,            // calls of connectDestroyed
    callbacks: seq<bool>)     // conn->connected() at each connectionCallback_
  {
    predicate IsWriting() {
      POLLOUT in events
    }

    predicate Alive() {
      state.Connected? || state.Disconnecting?
    }
  }

  function NewConn(fd: nat): Conn {
    Conn(fd, Connecting, false, NONE_EVENT, [], [], [], [], [], [], 0, 0, false, 0, 0, [])
  }

  /** A connection, its channel, and the Poller that watches it. */
  datatype Link<C> = Link(channel: C, conn: Conn, slots: Slots, channels: map<nat, C>)

  // ---------------------------------------------------------------- channel updates

  /** Set the mask and call update(): Poller::updateChannel with its asserts. */
  function SetEvents<C(==)>(l: Link<C>, events: Mask): (r: Outcome<Link<C>>) {
    var fd := l.conn.fd;
    :- Assert(l.conn.indexed ==> fd in l.channels && l.channels[fd] == l.channel && Registered(l.slots, fd));
    Ok(l.(conn := l.conn.(events := events, indexed := true),
          slots := Updated(l.slots, l.conn.indexed, fd, events),
          channels := l.channels[fd := l.channel]))
  }

  /** Poller::removeChannel with its asserts; the channel's index is left as it is. */
  function RemoveChannel<C(==)>(l: Link<C>): Outcome<Link<C>> {
    var fd := l.conn.fd;
    :- Assert(fd in l.channels && l.channels[fd] == l.channel);
    :- Assert(l.conn.events == NONE_EVENT);
    :- Assert(Registered(l.slots, fd));
    var slot := Find(l.slots, fd);
    :- Assert(l.slots[slot].fd == Mute(fd) && l.slots[slot].events == l.conn.events);
    Ok(l.(slots := Removed(l.slots, slot), channels := l.channels - {fd}))
  }

  // ---------------------------------------------------------------- member functions

  function ConnectEstablished<C(==)>(l: Link<C>): Outcome<Link<C>> {
    var c := l.conn;
    :- Assert(c.state.Connecting?);
    var l1 :- SetEvents(l.(conn := c.(state := Connected)), READ_EVENT);
    Ok(Announce(l1))
  }

  /** connectionCallback_: the user sees connected(). */
  function Announce<C>(l: Link<C>): Link<C> {
    l.(conn := l.conn.(callbacks := l.conn.callbacks + [l.conn.state.Connected?]))
  }

  /** connectDestroyed up to the callback; RemoveChannel is the rest. */
  function BeginDestroy<C(==)>(l: Link<C>): Outcome<Link<C>> {
    var c := l.conn;
    :- Assert(c.Alive());
    var l1 :- SetEvents(l.(conn := c.(state := Disconnected, destroys := c.destroys + 1)), NONE_EVENT);
    Ok(Announce(l1))
  }

  /** handleClose up to closeCallback_. */
  function BeginClose<C(==)>(l: Link<C>): Outcome<Link<C>> {
    var c := l.conn;
    :- Assert(c.Alive());
    SetEvents(l.(conn := c.(closes := c.closes + 1)), NONE_EVENT)
  }

  /** The kernel takes the first `nwrote` bytes of the message, the buffer the rest. */
  function Take(c: Conn, message: seq<Byte>, nwrote: nat): Conn
    requires nwrote <= |message|
  {
    c.(accepted := c.accepted + message, wire := c.wire + message[..nwrote], output := c.output + message[nwrote..])
  }

  /** How much of the message the direct write gets rid of; it is not tried behind queued bytes. */
  function DirectlyWritten(c: Conn, written: int): nat {
    if !c.IsWriting() && c.output == [] && written >= 0 then written else 0
  }

  /** `written` is what the direct write returned, if it was tried. */
  function SendInLoop<C(==)>(l: Link<C>, message: seq<Byte>, written: int): Outcome<Link<C>> {
    var c := l.conn;
    :- Given(-1 <= written <= |message|);
    var nwrote := DirectlyWritten(c, written);
    var l1 := l.(conn := Take(c, message, nwrote));
    if nwrote < |message| && !l1.conn.IsWriting() then SetEvents(l1, WRITE_EVENT) else Ok(l1)
  }

  function Send<C(==)>(l: Link<C>, message: seq<Byte>, written: int): Outcome<Link<C>> {
    if l.conn.state.Connected? then SendInLoop(l, message, written) else Ok(l)
  }

  function ShutdownInLoop(c: Conn): Conn {
    if c.IsWriting() then c
    else c.(halfCloses := c.halfCloses + 1,
            wireAtHalfClose := |c.wire|,
            undrainedHalfClose := c.undrainedHalfClose || c.output != [])
  }

  function Shutdown<C>(l: Link<C>): Link<C> {
    if l.conn.state.Connected? then l.(conn := ShutdownInLoop(l.conn.(state := Disconnecting))) else l
  }

  function HandleWrite<C(==)>(l: Link<C>, written: int): Outcome<Link<C>> {
    var c := l.conn;
    if !c.IsWriting() then Ok(l)
    else
      :- Given(-1 <= written <= |c.output|);
      if written <= 0 then Ok(l)
      else
        var l1 := l.(conn := c.(wire := c.wire + c.output[..written], output := c.output[written..]));
        if l1.conn.output != [] then Ok(l1)
        else
          var l2 :- SetEvents(l1, c.events - WRITE_EVENT);
          Ok(if c.state.Disconnecting? then l2.(conn := ShutdownInLoop(l2.conn)) else l2)
  }

  /** readFd puts `bytes` behind what is waiting in the input buffer. */
  function Fill(c: Conn, bytes: seq<Byte>): Conn {
    c.(input := c.input + bytes, delivered := c.delivered + bytes)
  }

  /** The message callback takes the first `taken` bytes out of the input buffer. */
  function TakeOut(c: Conn, taken: nat): Conn
    requires taken <= |c.input|
  {
    c.(input := c.input[taken..], consumed := c.consumed + c.input[..taken])
  }

  function ReadIn(c: Conn, bytes: seq<Byte>, taken: nat): Conn
    requires taken <= |c.input| + |bytes|
  {
    TakeOut(Fill(c, bytes), taken)
  }

  // ---------------------------------------------------------------- the two streams

  /** What holds of one connection's bytes and half-closes at all times. */
  ghost predicate StreamInv(c: Conn) {
    && c.wire + c.output == c.accepted
    && c.consumed + c.input == c.delivered
    && (c.IsWriting() ==> c.output != [])
    && (c.closes == 0 && c.destroys == 0 && c.output != [] ==> c.IsWriting())
    && (c.state.Connecting? ==> c.output == [] && c.halfCloses == 0)
    && (c.events == NONE_EVENT || c.events == READ_EVENT || c.events == WRITE_EVENT)
    && c.halfCloses <= 1
    && (c.halfCloses == 1 ==>
          !c.IsWriting() && (c.state.Disconnecting? || c.state.Disconnected?) && |c.wire| == c.wireAtHalfClose)
    && (c.undrainedHalfClose ==> c.closes > 0)
    && (c.destroys > 0 ==> c.state.Disconnected?)
  }

  /** The member functions that touch the stream, in any order and at any time. */
  datatype Op = Established | SendMessage(message: seq<Byte>, written: int) | ShutdownCalled
              | WriteReady(written: int) | DataRead(bytes: seq<Byte>, taken: nat) | CloseCalled | DestroyCalled

  function Perform<C(==)>(l: Link<C>, op: Op): Outcome<Link<C>> {
    match op
    case Established => ConnectEstablished(l)
    case SendMessage(message, written) => Send(l, message, written)
    case ShutdownCalled => Ok(Shutdown(l))
    case WriteReady(written) => HandleWrite(l, written)
    case DataRead(bytes, taken) =>
      :- Given(taken <= |l.conn.input| + |bytes|);
      Ok(l.(conn := ReadIn(l.conn, bytes, taken)))
    case CloseCalled => BeginClose(l)
    case DestroyCalled => BeginDestroy(l)
  }

  /** What a user callback may do to its connection; a write takes a prefix of the message. */
  predicate UserCall(op: Op) {
    op.ShutdownCalled? || (op.SendMessage? && -1 <= op.written <= |op.message|)
  }

  /** The calls a user callback makes on its connection, in order. */
  function UserCalls<C(==)>(l: Link<C>, calls: seq<Op>): Outcome<Link<C>> {
    if calls == [] then Ok(l)
    else
      var l1 :- UserCalls(l, calls[..|calls| - 1]);
      var call := calls[|calls| - 1];
      :- Given(UserCall(call));
      Perform(l1, call)
  }

  /** Before the connection is established and after it is shut down they do nothing. */
  lemma {:induction false} UserCallsIgnored<C>(l: Link<C>, calls: seq<Op>)
    requires !l.conn.state.Connected? && forall i :: 0 <= i < |calls| ==> UserCall(calls[i])
    ensures UserCalls(l, calls) == Ok(l)
  {
    if calls == [] {
    } else {
      UserCallsIgnored(l, calls[..|calls| - 1]);
    }
  }

  /** The Poller knows this channel under its descriptor. */
  ghost predicate Linked<C>(l: Link<C>) {
    && l.conn.indexed && l.conn.fd in l.channels && l.channels[l.conn.fd] == l.channel
    && Distinct(l.slots) && Registered(l.slots, l.conn.fd)
  }

  /** Once disableAll has muted its slot a channel passes the asserts of removeChannel. */
  lemma DestroyedIsRemovable<C>(l: Link<C>)
    requires Linked(l) && l.conn.Alive()
    ensures BeginDestroy(l).Ok? && RemoveChannel(BeginDestroy(l).value).Ok?
  {
    var fd := l.conn.fd;
    UpdatedFind(l.slots, true, fd, NONE_EVENT, fd);
  }

  /** What one member function does to the stream and to the state. */
  ghost predicate KeepsStream<C>(l: Link<C>, r: Outcome<Link<C>>) {
    r.Ok? ==> StreamInv(r.value.conn) && r.value.conn.state.Rank() >= l.conn.state.Rank()
  }

  /** Bytes skip the buffer only when it is empty. */
  lemma TakeConserves(c: Conn, message: seq<Byte>, n: nat)
    requires n <= |message| && (n == 0 || c.output == []) && c.wire + c.output == c.accepted
    ensures var c' := Take(c, message, n); c'.wire + c'.output == c'.accepted
    ensures Take(c, message, n).output == [] <==> c.output == [] && n == |message|
  {
    assert message == message[..n] + message[n..];
  }

  lemma SendKeepsStream<C>(l: Link<C>, message: seq<Byte>, written: int)
    requires StreamInv(l.conn)
    ensures KeepsStream(l, Send(l, message, written))
  {
    if l.conn.state.Connected? && -1 <= written <= |message| {
      TakeConserves(l.conn, message, DirectlyWritten(l.conn, written));
    }
  }

  lemma HandleWriteKeepsStream<C>(l: Link<C>, written: int)
    requires StreamInv(l.conn)
    ensures KeepsStream(l, HandleWrite(l, written))
  {
    var c, r := l.conn, HandleWrite(l, written);
    if c.IsWriting() && r.Ok? && written > 0 {
      assert c.output == c.output[..written] + c.output[written..];
      assert c.events == WRITE_EVENT && c.events - WRITE_EVENT == NONE_EVENT;
    }
  }

  /** What a callback leaves in the buffer is what later callbacks see first. */
  lemma ReadInConserves(c: Conn, bytes: seq<Byte>, taken: nat)
    requires taken <= |c.input| + |bytes| && c.consumed + c.input == c.delivered
    ensures var c' := ReadIn(c, bytes, taken); c'.consumed + c'.input == c'.delivered
  {
    var input := c.input + bytes;
    assert c.consumed + input == c.delivered + bytes;
    assert input == input[..taken] + input[taken..];
    assert c.consumed + input[..taken] + input[taken..] == c.consumed + input;
  }

  lemma StepKeepsStream<C>(l: Link<C>, op: Op)
    requires StreamInv(l.conn)
    ensures KeepsStream(l, Perform(l, op))
  {
    match op
    case SendMessage(message, written) => SendKeepsStream(l, message, written);
    case WriteReady(written) => HandleWriteKeepsStream(l, written);
    case DataRead(bytes, taken) =>
      if taken <= |l.conn.input| + |bytes| {
        ReadInConserves(l.conn, bytes, taken);
      }
    case _ =>
  }

  /** The call succeeds and leaves the connection as `c`. */
  ghost predicate Leads<C>(l: Link<C>, op: Op, c: Conn) {
    Perform(l, op).Ok? && Perform(l, op).value.conn == c
  }

  ghost predicate LeadsAt<C>(ls: seq<Link<C>>, ops: seq<Op>, i: nat)
    requires i < |ops| < |ls|
  {
    Leads(ls[i], ops[i], ls[i + 1].conn)
  }

  /** The calls on one connection; in between other connections may change the Poller. */
  ghost predicate IsRun<C>(ls: seq<Link<C>>, ops: seq<Op>) {
    |ls| == |ops| + 1 && forall i :: 0 <= i < |ops| ==> LeadsAt(ls, ops, i)
  }

  lemma NextKeepsStream<C>(ls: seq<Link<C>>, ops: seq<Op>, m: nat)
    requires IsRun(ls, ops) && m < |ops| && StreamInv(ls[m].conn)
    ensures StreamInv(ls[m + 1].conn)
  {
    assert LeadsAt(ls, ops, m);
    StepKeepsStream(ls[m], ops[m]);
  }

  lemma {:induction false} RunKeepsStream<C>(ls: seq<Link<C>>, ops: seq<Op>, fd: nat, n: nat)
    requires IsRun(ls, ops) && ls[0].conn == NewConn(fd) && n <= |ops|
    ensures StreamInv(ls[n].conn)
  {
    if n == 0 {
    } else {
      RunKeepsStream(ls, ops, fd, n - 1);
      NextKeepsStream(ls, ops, n - 1);
    }
  }

  /**
   For any partial reads and writes, in any interleaving of calls: what was written followed
   by what is still buffered is exactly what send accepted, what callbacks consumed followed by
   what is still buffered is exactly what was read; the write end is closed at most
   once, nothing is written afterwards, and unless handleClose came first nothing was left.
   */
  lemma StreamsAreConserved<C>(ls: seq<Link<C>>, ops: seq<Op>, fd: nat)
    requires IsRun(ls, ops) && ls[0].conn == NewConn(fd)
    ensures var c := ls[|ops|].conn;
            && StreamInv(c)
            && c.wire + c.output == c.accepted
            && c.consumed + c.input == c.delivered
            && c.halfCloses <= 1
            && (c.halfCloses == 1 ==> |c.wire| == c.wireAtHalfClose)
            && (c.closes == 0 ==> !c.undrainedHalfClose)
            && (c.closes == 0 && c.destroys == 0 ==> (c.IsWriting() <==> c.output != []))
  {
    RunKeepsStream(ls, ops, fd, |ops|);
  }

  // ---------------------------------------------------------------- which calls strand bytes

  /** A call of send that has bytes to hand over. */
  predicate HandsOver(op: Op) {
    op.SendMessage? && op.message != []
  }

  /** Call `i` is a handleClose that finds bytes buffered, and none are handed over before call `n`. */
  predicate ClosesOverBytes<C>(ls: seq<Link<C>>, ops: seq<Op>, i: nat, n: nat)
    requires i < n <= |ops| < |ls|
  {
    ops[i].CloseCalled? && ls[i].conn.output != [] && forall k :: i < k < n ==> !HandsOver(ops[k])
  }

  /** Before step `n` handleClose found bytes buffered, and nothing has been sent since. */
  predicate ClosedOverBytes<C>(ls: seq<Link<C>>, ops: seq<Op>, n: nat)
    requires n <= |ops| < |ls|
  {
    exists i :: 0 <= i < n && ClosesOverBytes(ls, ops, i, n)
  }

  /** Bytes are buffered and nobody will write them. */
  predicate Stranded(c: Conn) {
    c.output != [] && !c.IsWriting()
  }

  /** What one call does to a connection that has not been shut down or torn down. */
  lemma StepStrands<C>(l: Link<C>, op: Op)
    requires StreamInv(l.conn) && Perform(l, op).Ok? && Perform(l, op).value.conn.state.Rank() <= 1
    ensures l.conn.state.Rank() <= 1
    ensures Stranded(Perform(l, op).value.conn)
            <==> if op.CloseCalled? then l.conn.output != [] else Stranded(l.conn) && !HandsOver(op)
  {
    if op.SendMessage? && op.message == [] {
      assert l.conn.output + op.message[0..] == l.conn.output;
    }
  }

  lemma {:induction false} StrandedExactly<C>(ls: seq<Link<C>>, ops: seq<Op>, fd: nat, n: nat)
    requires IsRun(ls, ops) && ls[0].conn == NewConn(fd) && n <= |ops| && ls[n].conn.state.Rank() <= 1
    ensures Stranded(ls[n].conn) <==> ClosedOverBytes(ls, ops, n)
  {
    if n == 0 {
    } else {
      var m := n - 1;
      RunKeepsStream(ls, ops, fd, m);
      assert LeadsAt(ls, ops, m);
      StepStrands(ls[m], ops[m]);
      StrandedExactly(ls, ops, fd, m);
      ClosedOverBytesStep(ls, ops, m);
    }
  }

  lemma ClosedOverBytesStep<C>(ls: seq<Link<C>>, ops: seq<Op>, m: nat)
    requires m < |ops| < |ls|
    requires ClosedOverBytes(ls, ops, m) ==> ls[m].conn.output != []
    ensures ClosedOverBytes(ls, ops, m + 1)
            <==> if ops[m].CloseCalled? then ls[m].conn.output != []
                 else ClosedOverBytes(ls, ops, m) && !HandsOver(ops[m])
  {
    if ClosedOverBytes(ls, ops, m + 1) {
      var i :| 0 <= i < m + 1 && ClosesOverBytes(ls, ops, i, m + 1);
      if i < m {
        assert ClosesOverBytes(ls, ops, i, m) && !HandsOver(ops[m]);
      }
    }
    if ops[m].CloseCalled? && ls[m].conn.output != [] {
      assert ClosesOverBytes(ls, ops, m, m + 1);
    }
    if ClosedOverBytes(ls, ops, m) && !HandsOver(ops[m]) {
      var i :| 0 <= i < m && ClosesOverBytes(ls, ops, i, m);
      assert ClosesOverBytes(ls, ops, i, m + 1);
    }
  }

  lemma ShutdownStrands<C>(l: Link<C>, op: Op)
    requires Perform(l, op).Ok?
    ensures Perform(l, op).value.conn.undrainedHalfClose
            <==> l.conn.undrainedHalfClose || (op.ShutdownCalled? && l.conn.state.Connected? && Stranded(l.conn))
  {
  }

  /** Call number `j` shuts a connected connection down over bytes a close has left behind. */
  predicate ShutsOverBytes<C>(ls: seq<Link<C>>, ops: seq<Op>, j: nat)
    requires j < |ops| < |ls|
  {
    ops[j].ShutdownCalled? && ls[j].conn.state.Connected? && ClosedOverBytes(ls, ops, j)
  }

  predicate EverShutOverBytes<C>(ls: seq<Link<C>>, ops: seq<Op>, n: nat)
    requires n <= |ops| < |ls|
  {
    exists j :: 0 <= j < n && ShutsOverBytes(ls, ops, j)
  }

  lemma StepShutsOverBytes<C>(ls: seq<Link<C>>, ops: seq<Op>, fd: nat, m: nat)
    requires IsRun(ls, ops) && ls[0].conn == NewConn(fd) && m < |ops|
    ensures ls[m + 1].conn.undrainedHalfClose <==> ls[m].conn.undrainedHalfClose || ShutsOverBytes(ls, ops, m)
  {
    assert LeadsAt(ls, ops, m);
    ShutdownStrands(ls[m], ops[m]);
    if ls[m].conn.state.Connected? {
      StrandedExactly(ls, ops, fd, m);
    }
  }

  /**
   The write end is closed over buffered bytes exactly in the runs in which shutdown is called
   on a connected connection that handleClose found with bytes buffered and that nobody has
   handed bytes since.
   */
  lemma {:induction false} HalfCloseStrandsExactly<C>(ls: seq<Link<C>>, ops: seq<Op>, fd: nat, n: nat)
    requires IsRun(ls, ops) && ls[0].conn == NewConn(fd) && n <= |ops|
    ensures ls[n].conn.undrainedHalfClose
            <==> EverShutOverBytes(ls, ops, n)
  {
    if n == 0 {
    } else {
      HalfCloseStrandsExactly(ls, ops, fd, n - 1);
      StepShutsOverBytes(ls, ops, fd, n - 1);
      assert EverShutOverBytes(ls, ops, n) <==> EverShutOverBytes(ls, ops, n - 1) || ShutsOverBytes(ls, ops, n - 1);
    }
  }

  // ---------------------------------------------------------------- which calls stop reading

  /** A call of send whose direct write took the whole message. */
  predicate TakenAtOnce(op: Op)
    requires op.SendMessage?
  {
    op.message == [] || op.written == |op.message|
  }

  predicate AllTakenAtOnce<C>(ls: seq<Link<C>>, ops: seq<Op>, n: nat)
    requires n <= |ops| < |ls|
  {
    forall k :: 0 <= k < n && ops[k].SendMessage? && ls[k].conn.state.Connected? ==> TakenAtOnce(ops[k])
  }

  lemma StepReads<C>(l: Link<C>, op: Op)
    requires StreamInv(l.conn) && Perform(l, op).Ok? && l.conn.closes == 0 && l.conn.destroys == 0
    requires !op.CloseCalled? && !op.DestroyCalled?
    ensures var c, c' := l.conn, Perform(l, op).value.conn;
            && c'.closes == 0 && c'.destroys == 0
            && (c'.state.Connecting? ==> c.state.Connecting?)
            && (c'.events == READ_EVENT
                <==> op.Established?
                     || (c.events == READ_EVENT && (op.SendMessage? && c.state.Connected? ==> TakenAtOnce(op))))
  {
  }

  /** `taken`: in a run that has led to `c` every message was taken at once. */
  predicate ReadsIf(c: Conn, taken: bool) {
    && c.closes == 0 && c.destroys == 0
    && (if c.state.Connecting? then taken && c.events == NONE_EVENT else c.events == READ_EVENT <==> taken)
  }

  lemma StepKeepsReading<C>(l: Link<C>, op: Op, taken: bool)
    requires StreamInv(l.conn) && ReadsIf(l.conn, taken) && Perform(l, op).Ok?
    requires !op.CloseCalled? && !op.DestroyCalled?
    ensures ReadsIf(Perform(l, op).value.conn,
                    taken && (op.SendMessage? && l.conn.state.Connected? ==> TakenAtOnce(op)))
  {
    StepReads(l, op);
  }

  /**
   enableWriting overwrites the mask and nothing restores it: until it is closed a connection
   asks for input exactly as long as every direct write has taken its whole message.
   */
  lemma {:induction false} ReadsExactly<C>(ls: seq<Link<C>>, ops: seq<Op>, fd: nat, n: nat)
    requires IsRun(ls, ops) && ls[0].conn == NewConn(fd) && n <= |ops|
    requires forall k :: 0 <= k < n ==> !ops[k].CloseCalled? && !ops[k].DestroyCalled?
    ensures ReadsIf(ls[n].conn, AllTakenAtOnce(ls, ops, n))
  {
    if n == 0 {
    } else {
      ReadsExactly(ls, ops, fd, n - 1);
      RunKeepsStream(ls, ops, fd, n - 1);
      assert LeadsAt(ls, ops, n - 1);
      StepKeepsReading(ls[n - 1], ops[n - 1], AllTakenAtOnce(ls, ops, n - 1));
      assert AllTakenAtOnce(ls, ops, n)
             <==> AllTakenAtOnce(ls, ops, n - 1)
                  && (ops[n - 1].SendMessage? && ls[n - 1].conn.state.Connected? ==> TakenAtOnce(ops[n - 1]));
    }
  }
}
