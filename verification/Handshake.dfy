/**
 thread/CountDownLatch.cpp: the latch as a monitor whose waiters may wake for no reason.
 One step is one access under the mutex, one wakeup, or one lock operation.
 */
module Latches {

  type Thread = nat

  /** Where a thread is inside `wait` or `countDown`. */
  datatype Pc =
    | Ready
    | AboutToTest        // wait: holds the mutex, evaluates count > 0 next
    | Sleeping           // wait: in cond.wait, mutex released
    | Woken              // wait: signalled or spurious, must get the mutex back
    | Passed             // wait has returned
    | AboutToDecrement   // countDown: holds the mutex
    | Decremented        // countDown: holds the mutex, notifyAll still to come

  datatype State = State(count: int, pcs: map<Thread, Pc>) {
    function At(t: Thread): Pc {
      if t in pcs then pcs[t] else Ready
    }

    function Move(t: Thread, pc: Pc): State {
      this.(pcs := pcs[t := pc])
    }

    predicate Holds(t: Thread) {
      At(t).AboutToTest? || At(t).AboutToDecrement? || At(t).Decremented?
    }

    predicate MutexFree() {
      forall t <- pcs :: !Holds(t)
    }
  }

  function Init(count: int): State {
    State(count, map[])
  }

  datatype Step =
    | BeginWait(t: Thread)
    | Test(t: Thread)
    | SpuriousWakeup(t: Thread)
    | Reacquire(t: Thread)
    | BeginCountDown(t: Thread)
    | Decrement(t: Thread)
    | NotifyAndUnlock(t: Thread)

  predicate Enabled(s: State, step: Step) {
    match step
    case BeginWait(t) => s.At(t).Ready? && s.MutexFree()
    case Test(t) => s.At(t).AboutToTest?
    case SpuriousWakeup(t) => s.At(t).Sleeping?
    case Reacquire(t) => s.At(t).Woken? && s.MutexFree()
    case BeginCountDown(t) => s.At(t).Ready? && s.MutexFree()
    case Decrement(t) => s.At(t).AboutToDecrement?
    case NotifyAndUnlock(t) => s.At(t).Decremented?
  }

  /** pthread_cond_broadcast. */
  function WakeAll(pcs: map<Thread, Pc>): map<Thread, Pc> {
    map t | t in pcs :: if pcs[t].Sleeping? then Woken else pcs[t]
  }

  function Apply(s: State, step: Step): State
    requires Enabled(s, step)
  {
    match step
    case BeginWait(t) => s.Move(t, AboutToTest)
    case Test(t) => s.Move(t, if s.count > 0 then Sleeping else Passed)
    case SpuriousWakeup(t) => s.Move(t, Woken)
    case Reacquire(t) => s.Move(t, AboutToTest)
    case BeginCountDown(t) => s.Move(t, AboutToDecrement)
    case Decrement(t) => s.Move(t, Decremented).(count := s.count - 1)
    case NotifyAndUnlock(t) =>
      if s.count == 0 then s.(pcs := WakeAll(s.pcs)).Move(t, Ready) else s.Move(t, Ready)
  }

  predicate IsRun(ss: seq<State>, steps: seq<Step>) {
    && |ss| == |steps| + 1
    && forall i :: 0 <= i < |steps| ==> Enabled(ss[i], steps[i]) && ss[i + 1] == Apply(ss[i], steps[i])
  }

  /** The mutex has one holder. */
  ghost predicate MutualExclusion(s: State) {
    forall a, b :: a in s.pcs && b in s.pcs && s.Holds(a) && s.Holds(b) ==> a == b
  }

  /** The last countDown has been made but its notifyAll has not. */
  ghost predicate NotifyToCome(s: State) {
    s.count == 0 && exists d :: d in s.pcs && s.pcs[d].Decremented?
  }

  ghost predicate Inv(s: State) {
    && MutualExclusion(s)
    // nobody has passed a latch that still counts
    && (forall t :: t in s.pcs && s.pcs[t].Passed? ==> s.count <= 0)
    // a sleeper can rely on a countDown to come, or on the notifyAll of the last one
    && (forall t :: t in s.pcs && s.pcs[t].Sleeping? ==> s.count > 0 || NotifyToCome(s))
  }

  lemma StepKeepsMutualExclusion(s: State, step: Step)
    requires MutualExclusion(s) && Enabled(s, step)
    ensures MutualExclusion(Apply(s, step))
  {
    var s' := Apply(s, step);
    forall a, b | a in s'.pcs && b in s'.pcs && s'.Holds(a) && s'.Holds(b)
      ensures a == b
    {
      assert a != step.t ==> a in s.pcs && s.Holds(a);
      assert b != step.t ==> b in s.pcs && s.Holds(b);
    }
  }

  /** A notifyAll that is still to come is only discharged by being made. */
  lemma NotifyStaysToCome(s: State, step: Step)
    requires MutualExclusion(s) && NotifyToCome(s) && Enabled(s, step) && !step.NotifyAndUnlock?
    ensures NotifyToCome(Apply(s, step))
  {
    var d :| d in s.pcs && s.pcs[d].Decremented?;
    assert s.Holds(d);
    assert step.Decrement? ==> s.Holds(step.t) && step.t in s.pcs;
    assert d in Apply(s, step).pcs && Apply(s, step).pcs[d].Decremented?;
  }

  lemma StepKeepsInv(s: State, step: Step)
    requires Inv(s) && Enabled(s, step)
    ensures Inv(Apply(s, step))
  {
    StepKeepsMutualExclusion(s, step);
    var s' := Apply(s, step);
    if NotifyToCome(s) && !step.NotifyAndUnlock? {
      NotifyStaysToCome(s, step);
    }
    if step.Decrement? {
      assert s'.pcs[step.t].Decremented?;
    }
  }

  function Decrements(steps: seq<Step>): nat {
    if steps == [] then 0
    else Decrements(steps[..|steps| - 1]) + if steps[|steps| - 1].Decrement? then 1 else 0
  }

  /**
   In every run from a fresh latch of `n`: a waiter has passed only after `n` countDown calls,
   and once the count is used up and the last notifyAll is out, no waiter is asleep.
   */
  lemma {:induction false} LatchIsSafe(n: int, ss: seq<State>, steps: seq<Step>)
    requires IsRun(ss, steps) && ss[0] == Init(n)
    ensures var e := ss[|steps|];
            && Inv(e)
            && e.count == n - Decrements(steps)
            && (forall t :: e.At(t).Passed? ==> Decrements(steps) >= n)
            && (Decrements(steps) >= n && e.MutexFree() ==> forall t :: !e.At(t).Sleeping?)
  {
    if steps == [] {
    } else {
      var k := |steps| - 1;
      assert IsRun(ss[..k + 1], steps[..k]);
      LatchIsSafe(n, ss[..k + 1], steps[..k]);
      StepKeepsInv(ss[k], steps[k]);
    }
    var e := ss[|steps|];
    if e.MutexFree() {
      assert forall d :: d in e.pcs ==> !e.pcs[d].Decremented? by {
        forall d | d in e.pcs && e.pcs[d].Decremented?
          ensures false
        {
          assert e.Holds(d);
        }
      }
    }
  }
}

/**
 thread/Thread.cpp and EventLoopThread.cpp: `startLoop` creates a thread, waits on the latch
 until the child has stored its tid, and then on a condition until the child has published
 its loop.  The creator is thread 0, the child thread 1.
 */
module Startup {

  import Latches

  const CREATOR: Latches.Thread := 0
  const CHILD: Latches.Thread := 1

  datatype CreatorPc =
    | BeforeCreate
    | InLatchWait
    | AssertFailed       // assert(tid > 0) in Thread::start
    | Started            // Thread::start has returned
    | HoldsMutex         // startLoop: evaluates loop_ == nullptr next
    | Asleep             // startLoop: in cond_.wait
    | Awoken
    | OutOfLoop          // startLoop: about to read loop_ for the return
    | Returned(loop: nat)

  datatype ChildPc = NotCreated | Created | TidSet | LatchDone | HoldsLoopMutex | Running

  /** A null pointer is 0; pthread_create can fail. */
  datatype State = State(
    creator: CreatorPc,
    child: ChildPc,
    failed: bool,
    tid: int,
    loop: nat,
    latch: Latches.State)

  function Init(): State {
    State(BeforeCreate, NotCreated, false, 0, 0, Latches.Init(1))
  }

  datatype Step =
    | Create(ok: bool)
    | ChildSetsTid(tid: int)
    | LatchStep(step: Latches.Step)
    | StartReturns
    | CreatorLocks
    | CreatorTests
    | CreatorSpuriousWakeup
    | CreatorReacquires
    | CreatorReadsLoop
    | ChildLocks
    | ChildPublishes(loop: nat)

  /** The creator only waits on the latch, the child only counts it down, once. */
  predicate LatchStepAllowed(s: State, step: Latches.Step) {
    && Latches.Enabled(s.latch, step)
    && match step
       case BeginWait(t) => t == CREATOR && s.creator.InLatchWait?
       case Test(t) => t == CREATOR
       case SpuriousWakeup(t) => t == CREATOR
       case Reacquire(t) => t == CREATOR
       case BeginCountDown(t) => t == CHILD && s.child.TidSet?
       case Decrement(t) => t == CHILD
       case NotifyAndUnlock(t) => t == CHILD
  }

  /** `mutex_` of EventLoopThread. */
  predicate LoopMutexFree(s: State) {
    !s.creator.HoldsMutex? && !s.child.HoldsLoopMutex?
  }

  predicate Enabled(s: State, step: Step) {
    match step
    case Create(_) => s.creator.BeforeCreate?
    case ChildSetsTid(tid) => s.child.Created? && tid > 0
    case LatchStep(l) => LatchStepAllowed(s, l)
    case StartReturns => s.creator.InLatchWait? && s.latch.At(CREATOR).Passed?
    case CreatorLocks => s.creator.Started? && LoopMutexFree(s)
    case CreatorTests => s.creator.HoldsMutex?
    case CreatorSpuriousWakeup => s.creator.Asleep?
    case CreatorReacquires => s.creator.Awoken? && LoopMutexFree(s)
    case CreatorReadsLoop => s.creator.OutOfLoop?
    case ChildLocks => s.child.LatchDone? && LoopMutexFree(s)
    case ChildPublishes(loop) => s.child.HoldsLoopMutex? && loop > 0
  }

  function Apply(s: State, step: Step): State
    requires Enabled(s, step)
  {
    match step
    case Create(ok) =>
      // on failure Thread::start returns without waiting
      if ok then s.(creator := InLatchWait, child := Created) else s.(creator := Started, failed := true)
    case ChildSetsTid(tid) => s.(tid := tid, child := TidSet)
    case LatchStep(l) =>
      s.(latch := Latches.Apply(s.latch, l), child := if l.NotifyAndUnlock? then LatchDone else s.child)
    case StartReturns => s.(creator := if s.tid > 0 then Started else AssertFailed)
    case CreatorLocks => s.(creator := HoldsMutex)
    case CreatorTests => s.(creator := if s.loop == 0 then Asleep else OutOfLoop)
    case CreatorSpuriousWakeup => s.(creator := Awoken)
    case CreatorReacquires => s.(creator := HoldsMutex)
    case CreatorReadsLoop => s.(creator := Returned(s.loop))
    case ChildLocks => s.(child := HoldsLoopMutex)
    case ChildPublishes(loop) =>
      s.(loop := loop, child := Running, creator := if s.creator.Asleep? then Awoken else s.creator)
  }

  predicate IsRun(ss: seq<State>, steps: seq<Step>) {
    && |ss| == |steps| + 1
    && forall i :: 0 <= i < |steps| ==> Enabled(ss[i], steps[i]) && ss[i + 1] == Apply(ss[i], steps[i])
  }

  ghost predicate Inv(s: State) {
    && Latches.Inv(s.latch)
    && (s.failed ==> s.child.NotCreated?)
    && (s.creator.BeforeCreate? ==> s.child.NotCreated? && !s.failed)
    // the latch opens only behind the store to tid
    && (s.child.NotCreated? || s.child.Created? ==> s.latch.At(CHILD).Ready? && s.latch.count == 1)
    && (s.child.TidSet? ==> s.latch.count == if s.latch.At(CHILD).Decremented? then 0 else 1)
    && (s.child.LatchDone? || s.child.HoldsLoopMutex? || s.child.Running? ==>
          s.latch.count == 0 && s.latch.At(CHILD).Ready?)
    && (!s.child.NotCreated? && !s.child.Created? ==> s.tid > 0)
    && s.latch.pcs.Keys <= {CREATOR, CHILD}
    // the loop is published exactly when the child runs it
    && (s.loop > 0 <==> s.child.Running?)
    && !s.creator.AssertFailed?
    && (s.creator.Started? || s.creator.HoldsMutex? || s.creator.Asleep? || s.creator.Awoken? ==> s.failed || s.tid > 0)
    && (s.creator.Asleep? ==> s.loop == 0)
    && (s.creator.OutOfLoop? ==> s.loop > 0)
    && (s.creator.Returned? ==> s.creator.loop > 0 && s.tid > 0 && !s.failed)
  }

  lemma StepKeepsInv(s: State, step: Step)
    requires Inv(s) && Enabled(s, step)
    ensures Inv(Apply(s, step))
  {
    if step.LatchStep? {
      Latches.StepKeepsInv(s.latch, step.step);
    }
  }

  lemma {:induction false} RunKeepsInv(ss: seq<State>, steps: seq<Step>)
    requires IsRun(ss, steps) && ss[0] == Init()
    ensures Inv(ss[|steps|])
  {
    if steps == [] {
    } else {
      var k := |steps| - 1;
      assert IsRun(ss[..k + 1], steps[..k]);
      RunKeepsInv(ss[..k + 1], steps[..k]);
      StepKeepsInv(ss[k], steps[k]);
    }
  }

  /**
   Under any scheduling and any spurious wakeups: Thread::start returns from a successful
   creation only with tid set, its assert never fails, startLoop returns only a non-null
   loop, and it returns no loop at all when the thread could not be created.
   */
  lemma StartupIsSafe(ss: seq<State>, steps: seq<Step>)
    requires IsRun(ss, steps) && ss[0] == Init()
    ensures var e := ss[|steps|];
            && !e.creator.AssertFailed?
            && (e.creator.Started? && !e.failed ==> e.tid > 0)
            && (e.creator.Returned? ==> e.creator.loop > 0 && e.tid > 0 && !e.failed)
  {
    RunKeepsInv(ss, steps);
  }

  /** The creator cannot be left asleep by a child that has done its part. */
  lemma CreatorIsNotStranded(ss: seq<State>, steps: seq<Step>)
    requires IsRun(ss, steps) && ss[0] == Init()
    ensures var e := ss[|steps|];
            && (e.child.LatchDone? || e.child.HoldsLoopMutex? || e.child.Running? ==> !e.latch.At(CREATOR).Sleeping?)
            && (e.child.Running? ==> !e.creator.Asleep?)
  {
    RunKeepsInv(ss, steps);
  }
}
