/**
 What the calls made on one connection, and the results of its system calls, determine: its
 state, what it has accepted, written, read and handed to the user, and when it half-closes.
 Each law is about every run and is stated on the calls, not on what the members do.
 */
module ConnectionLaws {

  import ByteBuffer
  import opened Connections

  /** The state the first `n` calls lead to. */
  function StateAfter(ops: seq<Op>, n: nat): ConnState
    requires n <= |ops|
  {
    if n == 0 then Connecting
    else
      var s := StateAfter(ops, n - 1);
      match ops[n - 1]
      case Established => Connected
      case ShutdownCalled => if s.Connected? then Disconnecting else s
      case DestroyCalled => Disconnected
      case _ => s
  }

  /** The messages handed to send while connected, one after the other. */
  function Accepted(ops: seq<Op>, n: nat): seq<ByteBuffer.Byte>
    requires n <= |ops|
  {
    if n == 0 then []
    else if ops[n - 1].SendMessage? && StateAfter(ops, n - 1).Connected? then Accepted(ops, n - 1) + ops[n - 1].message
    else Accepted(ops, n - 1)
  }

  /** What readFd has read, one piece after the other. */
  function Arrived(ops: seq<Op>, n: nat): seq<ByteBuffer.Byte>
    requires n <= |ops|
  {
    if n == 0 then []
    else if ops[n - 1].DataRead? then Arrived(ops, n - 1) + ops[n - 1].bytes
    else Arrived(ops, n - 1)
  }

  /** How many bytes message callbacks have taken out of the input buffer. */
  function TakenOut(ops: seq<Op>, n: nat): nat
    requires n <= |ops|
  {
    if n == 0 then 0 else TakenOut(ops, n - 1) + if ops[n - 1].DataRead? then ops[n - 1].taken else 0
  }

  /** How many bytes `::write` takes in this call: it is tried when idle, and when writable. */
  function TakenByKernel(c: Conn, op: Op): nat {
    match op
    case SendMessage(_, written) =>
      if c.state.Connected? && !c.IsWriting() && c.output == [] && written > 0 then written else 0
    case WriteReady(written) => if c.IsWriting() && written > 0 then written else 0
    case _ => 0
  }

  function Written<C>(ls: seq<Link<C>>, ops: seq<Op>, n: nat): nat
    requires n <= |ops| < |ls|
  {
    if n == 0 then 0 else Written(ls, ops, n - 1) + TakenByKernel(ls[n - 1].conn, ops[n - 1])
  }

  // ---------------------------------------------------------------- one call

  /** What the call `op` and the results of its system calls make of connection `c`. */
  predicate Follows(c: Conn, op: Op, d: Conn) {
    && d.state == (match op
                   case Established => Connected
                   case ShutdownCalled => if c.state.Connected? then Disconnecting else c.state
                   case DestroyCalled => Disconnected
                   case _ => c.state)
    && d.accepted == (if op.SendMessage? && c.state.Connected? then c.accepted + op.message else c.accepted)
    && d.delivered == (if op.DataRead? then c.delivered + op.bytes else c.delivered)
    && |d.consumed| == |c.consumed| + (if op.DataRead? then op.taken else 0)
    && |d.wire| == |c.wire| + TakenByKernel(c, op)
  }

  lemma SendFollows<C>(l: Link<C>, message: seq<ByteBuffer.Byte>, written: int, c: Conn)
    requires Leads(l, SendMessage(message, written), c)
    ensures Follows(l.conn, SendMessage(message, written), c)
  {
  }

  lemma StepFollows<C>(l: Link<C>, op: Op, c: Conn)
    requires StreamInv(l.conn) && Leads(l, op, c)
    ensures Follows(l.conn, op, c)
  {
    if op.SendMessage? {
      SendFollows(l, op.message, op.written, c);
    }
  }

  // ---------------------------------------------------------------- whole runs

  lemma NextReads<C>(ls: seq<Link<C>>, ops: seq<Op>, m: nat)
    requires IsRun(ls, ops) && m < |ops|
    ensures var c, d := ls[m].conn, ls[m + 1].conn;
            && d.delivered == (if ops[m].DataRead? then c.delivered + ops[m].bytes else c.delivered)
            && |d.consumed| == |c.consumed| + (if ops[m].DataRead? then ops[m].taken else 0)
  {
    assert LeadsAt(ls, ops, m);
  }

  ghost predicate FollowsAt<C>(ls: seq<Link<C>>, ops: seq<Op>, m: nat)
    requires m < |ops| < |ls|
  {
    Follows(ls[m].conn, ops[m], ls[m + 1].conn)
  }

  ghost predicate AllFollow<C>(ls: seq<Link<C>>, ops: seq<Op>) {
    |ls| == |ops| + 1 && forall m :: 0 <= m < |ops| ==> FollowsAt(ls, ops, m)
  }

  lemma NextFollows<C>(ls: seq<Link<C>>, ops: seq<Op>, fd: nat, m: nat)
    requires IsRun(ls, ops) && ls[0].conn == NewConn(fd) && m < |ops|
    ensures FollowsAt(ls, ops, m)
  {
    RunKeepsStream(ls, ops, fd, m);
    assert LeadsAt(ls, ops, m);
    StepFollows(ls[m], ops[m], ls[m + 1].conn);
  }

  lemma RunFollows<C>(ls: seq<Link<C>>, ops: seq<Op>, fd: nat)
    requires IsRun(ls, ops) && ls[0].conn == NewConn(fd)
    ensures AllFollow(ls, ops)
  {
    forall m | 0 <= m < |ops| {
      NextFollows(ls, ops, fd, m);
    }
  }

  lemma {:induction false} FollowersState<C>(ls: seq<Link<C>>, ops: seq<Op>, fd: nat, n: nat)
    requires AllFollow(ls, ops) && ls[0].conn == NewConn(fd) && n <= |ops|
    ensures ls[n].conn.state == StateAfter(ops, n)
  {
    if n == 0 {
    } else {
      FollowersState(ls, ops, fd, n - 1);
      assert FollowsAt(ls, ops, n - 1);
    }
  }

  lemma {:induction false} FollowersBytes<C>(ls: seq<Link<C>>, ops: seq<Op>, fd: nat, n: nat)
    requires AllFollow(ls, ops) && ls[0].conn == NewConn(fd) && n <= |ops|
    ensures var c := ls[n].conn;
            && c.accepted == Accepted(ops, n) && |c.wire| == Written(ls, ops, n)
            && c.delivered == Arrived(ops, n) && |c.consumed| == TakenOut(ops, n)
  {
    if n == 0 {
    } else {
      FollowersBytes(ls, ops, fd, n - 1);
      FollowersState(ls, ops, fd, n - 1);
      assert FollowsAt(ls, ops, n - 1);
    }
  }

  lemma StateFollowsCalls<C>(ls: seq<Link<C>>, ops: seq<Op>, fd: nat, n: nat)
    requires IsRun(ls, ops) && ls[0].conn == NewConn(fd) && n <= |ops|
    ensures ls[n].conn.state == StateAfter(ops, n)
  {
    RunFollows(ls, ops, fd);
    FollowersState(ls, ops, fd, n);
  }

  /** What is accepted and what is read is what the calls and the system calls say. */
  lemma BytesFollowCalls<C>(ls: seq<Link<C>>, ops: seq<Op>, fd: nat, n: nat)
    requires IsRun(ls, ops) && ls[0].conn == NewConn(fd) && n <= |ops|
    ensures var c := ls[n].conn;
            && c.accepted == Accepted(ops, n) && |c.wire| == Written(ls, ops, n)
            && c.delivered == Arrived(ops, n) && |c.consumed| == TakenOut(ops, n)
  {
    RunFollows(ls, ops, fd);
    FollowersBytes(ls, ops, fd, n);
  }

  /** `whole` is cut into the bytes that have gone on, `done` of them, and those that wait. */
  predicate IsCut(gone: seq<ByteBuffer.Byte>, waiting: seq<ByteBuffer.Byte>, whole: seq<ByteBuffer.Byte>, done: nat) {
    done <= |whole| && gone == whole[..done] && waiting == whole[done..]
  }

  lemma CutAt(gone: seq<ByteBuffer.Byte>, waiting: seq<ByteBuffer.Byte>, whole: seq<ByteBuffer.Byte>)
    requires gone + waiting == whole
    ensures IsCut(gone, waiting, whole, |gone|)
  {
  }

  /**
   After any calls, with any partial or failed reads and writes: the peer has been sent the
   first bytes of what send was handed while connected, as many as the kernel took, and the
   rest waits; the user has got the first bytes of what was read, as many as callbacks took,
   and the rest waits.
   */
  lemma StreamsFollowCalls<C>(ls: seq<Link<C>>, ops: seq<Op>, fd: nat, n: nat)
    requires IsRun(ls, ops) && ls[0].conn == NewConn(fd) && n <= |ops|
    ensures var c := ls[n].conn;
            && IsCut(c.wire, c.output, Accepted(ops, n), Written(ls, ops, n))
            && IsCut(c.consumed, c.input, Arrived(ops, n), TakenOut(ops, n))
  {
    var c := ls[n].conn;
    RunKeepsStream(ls, ops, fd, n);
    BytesFollowCalls(ls, ops, fd, n);
    CutAt(c.wire, c.output, c.accepted);
    CutAt(c.consumed, c.input, c.delivered);
  }

  /** On an idle channel the direct write is tried, and only what it leaves is buffered. */
  lemma IdleSendWritesThrough<C>(l: Link<C>, message: seq<ByteBuffer.Byte>, written: nat, c: Conn)
    requires l.conn.state.Connected? && !l.conn.IsWriting() && l.conn.output == []
    requires Leads(l, SendMessage(message, written), c)
    ensures written <= |message| && c.wire == l.conn.wire + message[..written] && c.output == message[written..]
    ensures c.IsWriting() <==> written < |message|
  {
  }

  // ---------------------------------------------------------------- when the write end is closed

  /** A connection that has been shut down is half-closed, unless bytes are still to be written first. */
  ghost predicate HalfClosedIfDone(c: Conn) {
    && (c.state.Rank() <= 1 ==> c.halfCloses == 0)
    && (c.undrainedHalfClose ==> c.halfCloses == 1)
    && (c.state.Disconnecting? ==> (c.halfCloses == 1 <==> c.output == [] || c.undrainedHalfClose))
  }

  lemma StepHalfCloses<C>(l: Link<C>, op: Op, c: Conn)
    requires StreamInv(l.conn) && HalfClosedIfDone(l.conn) && Leads(l, op, c)
    ensures HalfClosedIfDone(c)
  {
    StepKeepsStream(l, op);
  }

  lemma NextHalfCloses<C>(ls: seq<Link<C>>, ops: seq<Op>, fd: nat, m: nat)
    requires IsRun(ls, ops) && ls[0].conn == NewConn(fd) && m < |ops| && HalfClosedIfDone(ls[m].conn)
    ensures HalfClosedIfDone(ls[m + 1].conn)
  {
    RunKeepsStream(ls, ops, fd, m);
    assert LeadsAt(ls, ops, m);
    StepHalfCloses(ls[m], ops[m], ls[m + 1].conn);
  }

  /**
   After shutdown the write end is closed exactly when everything accepted has been written,
   or when shutdown itself came after a close that had left bytes behind.
   */
  lemma {:induction false} HalfClosesExactly<C>(ls: seq<Link<C>>, ops: seq<Op>, fd: nat, n: nat)
    requires IsRun(ls, ops) && ls[0].conn == NewConn(fd) && n <= |ops|
    ensures HalfClosedIfDone(ls[n].conn)
  {
    if n == 0 {
    } else {
      HalfClosesExactly(ls, ops, fd, n - 1);
      NextHalfCloses(ls, ops, fd, n - 1);
    }
  }

  /** So before any close it is closed exactly when nothing waits. */
  lemma HalfClosesWhenDrained<C>(ls: seq<Link<C>>, ops: seq<Op>, fd: nat, n: nat)
    requires IsRun(ls, ops) && ls[0].conn == NewConn(fd) && n <= |ops|
    ensures var c := ls[n].conn; c.closes == 0 && c.state.Disconnecting? ==> (c.halfCloses == 1 <==> c.output == [])
  {
    RunKeepsStream(ls, ops, fd, n);
    HalfClosesExactly(ls, ops, fd, n);
  }

  // ---------------------------------------------------------------- callbacks of the user

  lemma {:induction false} UserCallsAreCalls<C>(l: Link<C>, calls: seq<Op>) returns (ls: seq<Link<C>>)
    requires UserCalls(l, calls).Ok?
    ensures IsRun(ls, calls) && ls[0] == l && ls[|calls|] == UserCalls(l, calls).value
  {
    if calls == [] {
      ls := [l];
    } else {
      var before := calls[..|calls| - 1];
      var front := UserCallsAreCalls(l, before);
      ls := front + [UserCalls(l, calls).value];
      forall i | 0 <= i < |calls|
        ensures LeadsAt(ls, calls, i)
      {
        assert i < |before| ==> LeadsAt(front, before, i);
      }
    }
  }
}
