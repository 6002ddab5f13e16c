/**
 TcpConnection::shutdown called from any thread, as its header allows.  No lock guards
 state_, so the test of the state and the store of the new one are separate steps, and calls
 can overlap.  A foreign thread queues a functor that half-closes later; the loop thread
 half-closes at once and does nothing else between its test and its store.

 The other members run in the loop thread and look at state_ once, so they stay one step.
 */
module SharedShutdowns {

  import opened ByteBuffer
  import opened Connections
  import opened Outcomes
  import opened Polling

  type Thread = nat

  const LOOP_THREAD: Thread := 0

  /** `tested`: threads that found the connection connected and have not stored the new state. */
  datatype Shared<C> = Shared(
    link: Link<C>,
    tested: set<Thread>,
    queued: nat,   // functors of shutdown that wait to run
    ran: nat)      // and those that have run

  datatype Step =
    | Local(op: Connections.Op)   // a member function in the loop thread, other than shutdown
    | TestState(thread: Thread)   // if (state_ == kConnected)
    | StoreState(thread: Thread)  // setState(kDisconnecting); runInLoop(shutdownInLoop)
    | RunFunctor

  function Perform<C(==)>(s: Shared<C>, step: Step): Outcome<Shared<C>> {
    match step
    case Local(op) =>
      :- Given(LOOP_THREAD !in s.tested && !op.ShutdownCalled?);
      var l :- Connections.Perform(s.link, op);
      Ok(s.(link := l))
    case TestState(t) =>
      :- Given(t !in s.tested);
      Ok(if s.link.conn.state.Connected? then s.(tested := s.tested + {t}) else s)
    case StoreState(t) =>
      :- Given(t in s.tested);
      var c := s.link.conn.(state := Disconnecting);
      var s1 := s.(tested := s.tested - {t});
      Ok(if t == LOOP_THREAD
         then s1.(link := s.link.(conn := ShutdownInLoop(c)))
         else s1.(link := s.link.(conn := c), queued := s.queued + 1))
    case RunFunctor =>
      :- Given(LOOP_THREAD !in s.tested && s.queued > 0);
      Ok(s.(link := s.link.(conn := ShutdownInLoop(s.link.conn)), queued := s.queued - 1, ran := s.ran + 1))
  }

  ghost predicate IsRun<C>(ss: seq<Shared<C>>, steps: seq<Step>, fd: nat) {
    && |ss| == |steps| + 1
    && ss[0].link.conn == NewConn(fd) && ss[0].tested == {} && ss[0].queued == ss[0].ran == 0
    && forall i :: 0 <= i < |steps| ==> Perform(ss[i], steps[i]) == Ok(ss[i + 1])
  }

  /** In the loop thread, undisturbed, the two steps are the member function. */
  lemma UndisturbedIsShutdown<C>(s: Shared<C>)
    requires s.tested == {}
    ensures var s1 := Perform(s, TestState(LOOP_THREAD));
            && s1.Ok?
            && (if s.link.conn.state.Connected?
                then Perform(s1.value, StoreState(LOOP_THREAD)) == Ok(s.(link := Shutdown(s.link)))
                else s1.value == s.(link := Shutdown(s.link)))
  {
    assert {LOOP_THREAD} - {LOOP_THREAD} == {};
  }

  // ---------------------------------------------------------------- any overlap

  /** The streams are safe, and each half-close beyond the first has a functor of its own. */
  ghost predicate Inv<C>(s: Shared<C>) {
    var c := s.link.conn;
    && c.wire + c.output == c.accepted
    && (c.IsWriting() ==> c.output != [])
    && (c.events == NONE_EVENT || c.events == READ_EVENT || c.events == WRITE_EVENT)
    && (c.state.Connecting? ==> c.output == [] && !c.IsWriting() && s.tested == {})
    && (c.state.Rank() <= 1 ==> c.halfCloses == 0 && s.queued == s.ran == 0)
    && (LOOP_THREAD in s.tested ==> c.halfCloses == 0)
    && (c.halfCloses > 0 ==> !c.IsWriting() && |c.wire| == c.wireAtHalfClose)
    && c.halfCloses <= 1 + s.ran
  }

  lemma SendKeepsInv<C>(s: Shared<C>, message: seq<Byte>, written: int)
    requires Inv(s)
    ensures var r := Perform(s, Local(SendMessage(message, written))); r.Ok? ==> Inv(r.value)
  {
    var c := s.link.conn;
    if c.state.Connected? && -1 <= written <= |message| {
      TakeConserves(c, message, DirectlyWritten(c, written));
    }
  }

  lemma WriteKeepsInv<C>(s: Shared<C>, written: int)
    requires Inv(s)
    ensures var r := Perform(s, Local(WriteReady(written))); r.Ok? ==> Inv(r.value)
  {
    var c := s.link.conn;
    if c.IsWriting() && 0 < written <= |c.output| {
      assert c.output == c.output[..written] + c.output[written..];
      assert c.events - WRITE_EVENT == NONE_EVENT;
    }
  }

  lemma StepKeepsInv<C>(s: Shared<C>, step: Step)
    requires Inv(s)
    ensures var r := Perform(s, step); r.Ok? ==> Inv(r.value)
  {
    match step
    case Local(SendMessage(message, written)) => SendKeepsInv(s, message, written);
    case Local(WriteReady(written)) => WriteKeepsInv(s, written);
    case _ =>
  }

  /**
   However the calls of shutdown overlap: no byte is lost, none is written after the first
   half-close, and shutdownWrite is called at most once more than functors have run.
   */
  lemma {:induction false} AnyOverlapIsSafe<C>(ss: seq<Shared<C>>, steps: seq<Step>, fd: nat, n: nat)
    requires IsRun(ss, steps, fd) && n <= |steps|
    ensures Inv(ss[n])
    ensures var c := ss[n].link.conn;
            && c.wire + c.output == c.accepted
            && (c.halfCloses > 0 ==> |c.wire| == c.wireAtHalfClose)
            && c.halfCloses <= 1 + ss[n].ran
  {
    if n == 0 {
    } else {
      AnyOverlapIsSafe(ss, steps, fd, n - 1);
      assert Perform(ss[n - 1], steps[n - 1]) == Ok(ss[n]);
      StepKeepsInv(ss[n - 1], steps[n - 1]);
    }
  }

  // ---------------------------------------------------------------- no overlap

  /** Nobody finds the connection connected while another call is between its test and its store. */
  predicate NoOverlap<C>(ss: seq<Shared<C>>, steps: seq<Step>, n: nat)
    requires n <= |steps| < |ss|
  {
    forall i :: 0 <= i < n && steps[i].TestState? && ss[i].link.conn.state.Connected? ==> ss[i].tested == {}
  }

  /** With a functor still queued, handleWrite empties the buffer and half-closes first. */
  predicate DrainsFirst<C>(s: Shared<C>, step: Step) {
    && s.queued > 0 && s.link.conn.IsWriting() && s.link.conn.state.Disconnecting?
    && step.Local? && step.op.WriteReady? && step.op.written == |s.link.conn.output|
  }

  predicate DrainedBefore<C>(ss: seq<Shared<C>>, steps: seq<Step>, n: nat)
    requires n <= |steps| < |ss|
  {
    exists i :: 0 <= i < n && DrainsFirst(ss[i], steps[i])
  }

  /** At most one call has got past its test; `drained` if handleWrite came before its functor. */
  ghost predicate Alone<C>(s: Shared<C>, drained: bool) {
    && |s.tested| <= 1
    && (s.tested != {} ==> s.queued + s.ran == 0 && s.link.conn.halfCloses == 0 && !s.link.conn.state.Disconnecting?)
    && s.queued + s.ran <= 1
    && (drained ==> s.queued + s.ran == 1)
    && (s.queued == 1 ==> (s.link.conn.halfCloses == 1 <==> drained))
  }

  lemma LocalKeepsAlone<C>(s: Shared<C>, op: Connections.Op, drained: bool)
    requires Inv(s) && Alone(s, drained) && Perform(s, Local(op)).Ok?
    ensures Alone(Perform(s, Local(op)).value, drained || DrainsFirst(s, Local(op)))
  {
  }

  lemma StepKeepsAlone<C>(s: Shared<C>, step: Step, drained: bool)
    requires Inv(s) && Alone(s, drained) && Perform(s, step).Ok?
    requires step.TestState? && s.link.conn.state.Connected? ==> s.tested == {}
    ensures Alone(Perform(s, step).value, drained || DrainsFirst(s, step))
  {
    match step
    case Local(op) => LocalKeepsAlone(s, op, drained);
    case StoreState(t) => assert s.tested == {t};
    case _ =>
  }

  lemma {:induction false} RunKeepsAlone<C>(ss: seq<Shared<C>>, steps: seq<Step>, fd: nat, n: nat)
    requires IsRun(ss, steps, fd) && n <= |steps| && NoOverlap(ss, steps, n)
    ensures Alone(ss[n], DrainedBefore(ss, steps, n))
  {
    if n == 0 {
    } else {
      RunKeepsAlone(ss, steps, fd, n - 1);
      AnyOverlapIsSafe(ss, steps, fd, n - 1);
      assert Perform(ss[n - 1], steps[n - 1]) == Ok(ss[n]);
      StepKeepsAlone(ss[n - 1], steps[n - 1], DrainedBefore(ss, steps, n - 1));
      assert DrainedBefore(ss, steps, n) <==> DrainedBefore(ss, steps, n - 1) || DrainsFirst(ss[n - 1], steps[n - 1]);
    }
  }

  predicate FunctorRunsAfterDrain<C>(ss: seq<Shared<C>>, steps: seq<Step>, j: nat)
    requires j < |steps| < |ss|
  {
    steps[j].RunFunctor? && DrainedBefore(ss, steps, j)
  }

  predicate EverRanAfterDrain<C>(ss: seq<Shared<C>>, steps: seq<Step>, n: nat)
    requires n <= |steps| < |ss|
  {
    exists j :: 0 <= j < n && FunctorRunsAfterDrain(ss, steps, j)
  }

  /** The loop's own calls, shutdown aside, half-close once at most. */
  lemma LocalHalfClosesOnce<C>(l: Link<C>, op: Connections.Op)
    requires l.conn.halfCloses > 0 ==> !l.conn.IsWriting()
    requires Connections.Perform(l, op).Ok? && !op.ShutdownCalled?
    ensures var c, c' := l.conn, Connections.Perform(l, op).value.conn;
            if c.halfCloses > 0 then c'.halfCloses == c.halfCloses else c'.halfCloses <= 1
  {
  }

  lemma SecondHalfClose<C>(s: Shared<C>, step: Step, drained: bool)
    requires Inv(s) && Alone(s, drained) && Perform(s, step).Ok?
    ensures Perform(s, step).value.link.conn.halfCloses == 2
            <==> s.link.conn.halfCloses == 2 || (step.RunFunctor? && drained)
  {
    if step.Local? {
      LocalHalfClosesOnce(s.link, step.op);
    }
  }

  lemma EverRanGrows<C>(ss: seq<Shared<C>>, steps: seq<Step>, m: nat)
    requires m < |steps| < |ss|
    ensures EverRanAfterDrain(ss, steps, m + 1)
            <==> EverRanAfterDrain(ss, steps, m) || FunctorRunsAfterDrain(ss, steps, m)
  {
  }

  lemma AtMostTwice<C>(ss: seq<Shared<C>>, steps: seq<Step>, fd: nat, n: nat)
    requires IsRun(ss, steps, fd) && n <= |steps| && NoOverlap(ss, steps, n)
    ensures ss[n].link.conn.halfCloses <= 2
  {
    AnyOverlapIsSafe(ss, steps, fd, n);
    RunKeepsAlone(ss, steps, fd, n);
  }

  lemma NextHalfClose<C>(ss: seq<Shared<C>>, steps: seq<Step>, fd: nat, m: nat)
    requires IsRun(ss, steps, fd) && m < |steps| && NoOverlap(ss, steps, m)
    ensures ss[m + 1].link.conn.halfCloses == 2
            <==> ss[m].link.conn.halfCloses == 2 || FunctorRunsAfterDrain(ss, steps, m)
  {
    AnyOverlapIsSafe(ss, steps, fd, m);
    RunKeepsAlone(ss, steps, fd, m);
    assert Perform(ss[m], steps[m]) == Ok(ss[m + 1]);
    SecondHalfClose(ss[m], steps[m], DrainedBefore(ss, steps, m));
  }

  /**
   Where calls of shutdown do not overlap, shutdownWrite is called at most twice, and twice
   exactly if handleWrite drains the buffer between a foreign call and its functor.
   */
  lemma {:induction false} ForeignShutdownExactly<C>(ss: seq<Shared<C>>, steps: seq<Step>, fd: nat, n: nat)
    requires IsRun(ss, steps, fd) && n <= |steps| && NoOverlap(ss, steps, n)
    ensures var c := ss[n].link.conn; c.halfCloses <= 2 && (c.halfCloses == 2 <==> EverRanAfterDrain(ss, steps, n))
  {
    AtMostTwice(ss, steps, fd, n);
    if n == 0 {
    } else {
      ForeignShutdownExactly(ss, steps, fd, n - 1);
      NextHalfClose(ss, steps, fd, n - 1);
      EverRanGrows(ss, steps, n - 1);
    }
  }

  // ---------------------------------------------------------------- what overlap and drain can do

  lemma Extend<C>(ss: seq<Shared<C>>, steps: seq<Step>, fd: nat, step: Step, s: Shared<C>)
    returns (ss': seq<Shared<C>>, steps': seq<Step>)
    requires IsRun(ss, steps, fd) && Perform(ss[|steps|], step) == Ok(s)
    ensures IsRun(ss', steps', fd) && ss'[|steps'|] == s && steps' == steps + [step] && ss' == ss + [s]
  {
    ss', steps' := ss + [s], steps + [step];
  }

  /** Foreign threads 1 to `k`. */
  function Threads(k: nat): (ts: set<Thread>)
    ensures forall t :: t in ts <==> 1 <= t <= k
  {
    if k == 0 then {} else Threads(k - 1) + {k}
  }

  /** The connection with number 1, established on `fd`, with `tested`, `queued` and `ran` as given. */
  function Serving(fd: nat, tested: set<Thread>, queued: nat): Shared<int> {
    var c := NewConn(fd).(state := Connected, indexed := true, events := READ_EVENT, callbacks := [true]);
    Shared(Link(1, if queued > 0 then c.(state := Disconnecting) else c, [PollFd(fd, READ_EVENT, {})], map[fd := 1]),
           tested, queued, 0)
  }

  lemma Established(fd: nat) returns (ss: seq<Shared<int>>, steps: seq<Step>)
    ensures IsRun(ss, steps, fd) && steps == [Local(Connections.Established)]
    ensures ss[|steps|] == Serving(fd, {}, 0)
  {
    var s := Shared(Link(1, NewConn(fd), [], map[]), {}, 0, 0);
    assert Updated([], false, fd, READ_EVENT) == [PollFd(fd, READ_EVENT, {})];
    assert Connections.ConnectEstablished(s.link) == Ok(Serving(fd, {}, 0).link) by {
      assert s.link.channels[fd := 1] == map[fd := 1] && [] + [true] == [true];
    }
    ss, steps := [s], [];
    ss, steps := Extend(ss, steps, fd, Local(Connections.Established), Serving(fd, {}, 0));
  }

  predicate NoWrites(steps: seq<Step>) {
    forall i :: 0 <= i < |steps| && steps[i].Local? ==> !steps[i].op.WriteReady?
  }

  /** Threads 1 to `k` all find the connection connected before any of them stores. */
  lemma {:induction false} AllTest(fd: nat, k: nat) returns (ss: seq<Shared<int>>, steps: seq<Step>)
    ensures IsRun(ss, steps, fd) && NoWrites(steps) && ss[|steps|] == Serving(fd, Threads(k), 0)
  {
    if k == 0 {
      ss, steps := Established(fd);
    } else {
      ss, steps := AllTest(fd, k - 1);
      assert Threads(k) == Threads(k - 1) + {k};
      ss, steps := Extend(ss, steps, fd, TestState(k), Serving(fd, Threads(k), 0));
    }
  }

  /** Of `k` threads that have tested, the last `stored` store and queue their functors. */
  lemma {:induction false} AllStore(fd: nat, k: nat, stored: nat) returns (ss: seq<Shared<int>>, steps: seq<Step>)
    requires stored <= k
    ensures IsRun(ss, steps, fd) && NoWrites(steps) && ss[|steps|] == Serving(fd, Threads(k - stored), stored)
  {
    if stored == 0 {
      ss, steps := AllTest(fd, k);
    } else {
      ss, steps := AllStore(fd, k, stored - 1);
      var t := k - stored + 1;
      assert t in Threads(t) && Threads(t) - {t} == Threads(t - 1);
      ss, steps := Extend(ss, steps, fd, StoreState(t), Serving(fd, Threads(t - 1), stored));
    }
  }

  lemma {:induction false} AllRun(fd: nat, k: nat, run: nat) returns (ss: seq<Shared<int>>, steps: seq<Step>)
    requires run <= k
    ensures IsRun(ss, steps, fd) && NoWrites(steps)
    ensures var s := ss[|steps|];
            s.queued == k - run && s.ran == run && s.link.conn.halfCloses == run && !s.link.conn.IsWriting()
            && LOOP_THREAD !in s.tested
  {
    if run == 0 {
      ss, steps := AllStore(fd, k, k);
    } else {
      ss, steps := AllRun(fd, k, run - 1);
      ss, steps := Extend(ss, steps, fd, RunFunctor, Perform(ss[|steps|], RunFunctor).value);
    }
  }

  /** With overlapping calls there is no bound at all: `k` of them can half-close `k` times, with no write. */
  lemma OverlapHalfClosesOften(fd: nat, k: nat)
    ensures exists ss: seq<Shared<int>>, steps: seq<Step> ::
              IsRun(ss, steps, fd) && NoWrites(steps) && ss[|steps|].link.conn.halfCloses == k
  {
    var ss, steps := AllRun(fd, k, k);
  }

  /** One foreign call that overlaps one of the loop thread suffices for two. */
  lemma LoopOverlapHalfClosesTwice(fd: nat)
    ensures exists ss: seq<Shared<int>>, steps: seq<Step> ::
              && IsRun(ss, steps, fd) && NoWrites(steps) && ss[|steps|].link.conn.halfCloses == 2
              && ss[|steps|].ran == 1
  {
    var ss, steps := AllTest(fd, 1);
    ss, steps := Extend(ss, steps, fd, TestState(LOOP_THREAD), Perform(ss[|steps|], TestState(LOOP_THREAD)).value);
    ss, steps := Extend(ss, steps, fd, StoreState(LOOP_THREAD), Perform(ss[|steps|], StoreState(LOOP_THREAD)).value);
    ss, steps := Extend(ss, steps, fd, StoreState(1), Perform(ss[|steps|], StoreState(1)).value);
    ss, steps := Extend(ss, steps, fd, RunFunctor, Perform(ss[|steps|], RunFunctor).value);
  }

  /** A message waits for POLLOUT. */
  lemma SentShort(fd: nat, message: seq<Byte>) returns (ss: seq<Shared<int>>, steps: seq<Step>)
    requires message != []
    ensures IsRun(ss, steps, fd) && NoOverlap(ss, steps, |steps|)
    ensures var s := ss[|steps|];
            && s.tested == {} && s.queued == 0 && s.link.conn.state.Connected? && s.link.conn.halfCloses == 0
            && s.link.conn.events == WRITE_EVENT && s.link.conn.output == message && s.link.conn.wire == []
            && Linked(s.link)
  {
    ss, steps := Established(fd);
    var send := Local(SendMessage(message, 0));
    assert Find(ss[1].link.slots, fd) == 0;
    var sent := Perform(ss[1], send).value;
    assert sent.link.slots == [PollFd(fd, WRITE_EVENT, {})] && Find(sent.link.slots, fd) == 0;
    assert sent.link.conn.output == message && sent.link.conn.wire == [];
    ss, steps := Extend(ss, steps, fd, send, sent);
  }

  /** A message waits for POLLOUT, and a foreign shutdown has queued its functor. */
  lemma QueuedOverMessage(fd: nat, message: seq<Byte>) returns (ss: seq<Shared<int>>, steps: seq<Step>)
    requires message != []
    ensures IsRun(ss, steps, fd) && NoOverlap(ss, steps, |steps|)
    ensures var s := ss[|steps|];
            && s.tested == {} && s.queued == 1 && s.link.conn.state.Disconnecting? && s.link.conn.halfCloses == 0
            && s.link.conn.events == WRITE_EVENT && s.link.conn.output == message && s.link.conn.wire == []
            && Linked(s.link)
  {
    ss, steps := SentShort(fd, message);
    ss, steps := Extend(ss, steps, fd, TestState(1), Perform(ss[|steps|], TestState(1)).value);
    ss, steps := Extend(ss, steps, fd, StoreState(1), Perform(ss[|steps|], StoreState(1)).value);
  }

  /**
   Without overlap a drain can do it.  It takes a connection whose write callback is set; the
   repository sets none, so there handleWrite does not run and the buffer is not drained.
   */
  lemma DrainHalfClosesTwice(fd: nat, message: seq<Byte>)
    requires message != []
    ensures exists ss: seq<Shared<int>>, steps: seq<Step> ::
              && IsRun(ss, steps, fd) && NoOverlap(ss, steps, |steps|)
              && ss[|steps|].link.conn.halfCloses == 2 && ss[|steps|].link.conn.wire == message
  {
    var ss, steps := QueuedOverMessage(fd, message);
    var drain := Local(WriteReady(|message|));
    assert message[..|message|] == message && message[|message|..] == [];
    ss, steps := Extend(ss, steps, fd, drain, Perform(ss[|steps|], drain).value);
    ss, steps := Extend(ss, steps, fd, RunFunctor, Perform(ss[|steps|], RunFunctor).value);
  }
}
