/**
 EventLoop.cpp: the loop thread, the functor queue other threads push to, and the eventfd
 that is meant to get the loop out of poll.

 Threads interleave, so the protocol is a step system: one step is one access to shared
 state.  A thread inside `queueInLoop` or `quit` that has stored its request but not yet
 called `wakeup` is in `owing`.  The histories `queued` and `executed` only record.
 The class at the end is the code of one thread running undisturbed; each method is
 proved to be the matching steps.
 */
module EventLoops {

  import Polling

  type Thread = nat

  /** The thread the loop was created in. */
  const LOOP_THREAD: Thread := 0

  /** An eventfd counter stops here; a further write fails and leaves it. */
  const EVENTFD_MAX: nat := 0xffff_ffff_ffff_fffe

  /** Where the loop thread is; `Dispatch(w)` still has the wakeup channel to handle when `w`. */
  datatype Pc = Outside | LoopCheck | InPoll | Dispatch(wakeReady: bool) | BeforeSwap | InBatch

  datatype State<F> = State(
    pc: Pc,
    quit: bool,
    calling: bool,
    counter: nat,
    pending: seq<F>,
    batch: seq<F>,
    next: nat,
    owing: set<Thread>,
    queued: seq<F>,
    executed: seq<F>)

  function Init<F>(): State<F> {
    State(Outside, false, false, 0, [], [], 0, {}, [], [])
  }

  datatype Step<F> =
    | Enter                        // loop(): quit_ = false
    | TestQuit                     // while(!quit_)
    | PollReturns(failed: bool)    // readiness of the eventfd is read here; a failed poll reports nothing
    | HandleWakeup                 // handleRead of the wakeup channel
    | EndDispatch                  // last active channel handled, callingPendingFunctors_ = true
    | SwapQueue                    // functors.swap(pendingFunctors)
    | RunFunctor
    | EndBatch                     // callingPendingFunctors_ = false
    | Push(thread: Thread, f: F)   // push_back under the lock
    | SetQuit(thread: Thread)      // quit_ = true
    | Wake(thread: Thread)         // write to the eventfd

  /** User code runs in the loop thread outside loop(), in handlers and in functors. */
  predicate LoopThreadRunsUserCode(pc: Pc) {
    pc.Outside? || pc.Dispatch? || pc.InBatch?
  }

  predicate Enabled<F>(s: State<F>, step: Step<F>) {
    var free := LOOP_THREAD !in s.owing;
    match step
    case Enter => s.pc.Outside? && free
    case TestQuit => s.pc.LoopCheck?
    case PollReturns(_) => s.pc.InPoll?
    case HandleWakeup => s.pc == Dispatch(true) && free
    case EndDispatch => s.pc == Dispatch(false) && free
    case SwapQueue => s.pc.BeforeSwap?
    case RunFunctor => s.pc.InBatch? && free && s.next < |s.batch|
    case EndBatch => s.pc.InBatch? && free && s.next >= |s.batch|
    case Push(t, _) => t !in s.owing && (t == LOOP_THREAD ==> LoopThreadRunsUserCode(s.pc))
    case SetQuit(t) => t !in s.owing && (t == LOOP_THREAD ==> LoopThreadRunsUserCode(s.pc))
    case Wake(t) => t in s.owing
  }

  function Apply<F>(s: State<F>, step: Step<F>): State<F>
    requires Enabled(s, step)
  {
    match step
    case Enter => s.(pc := LoopCheck, quit := false)
    case TestQuit => s.(pc := if s.quit then Outside else InPoll)
    case PollReturns(failed) => s.(pc := Dispatch(!failed && s.counter > 0))
    case HandleWakeup => s.(pc := Dispatch(false), counter := 0)
    case EndDispatch => s.(pc := BeforeSwap, calling := true)
    case SwapQueue => s.(pc := InBatch, batch := s.pending, next := 0, pending := [])
    case RunFunctor => s.(executed := s.executed + [s.batch[s.next]], next := s.next + 1)
    case EndBatch => s.(pc := LoopCheck, calling := false)
    case Push(t, f) =>
      s.(pending := s.pending + [f],
         queued := s.queued + [f],
         owing := if t != LOOP_THREAD || s.calling then s.owing + {t} else s.owing)
    case SetQuit(t) =>
      s.(quit := true, owing := if t != LOOP_THREAD then s.owing + {t} else s.owing)
    case Wake(t) =>
      s.(counter := if s.counter < EVENTFD_MAX then s.counter + 1 else s.counter, owing := s.owing - {t})
  }

  ghost predicate IsRun<F>(ss: seq<State<F>>, steps: seq<Step<F>>) {
    && |ss| == |steps| + 1
    && forall i :: 0 <= i < |steps| ==> Enabled(ss[i], steps[i]) && ss[i + 1] == Apply(ss[i], steps[i])
  }

  // ---------------------------------------------------------------- history of functors

  ghost predicate Inv<F>(s: State<F>) {
    && (s.calling <==> s.pc.BeforeSwap? || s.pc.InBatch?)
    && s.next <= |s.batch|
    && (!s.pc.InBatch? ==> s.next == |s.batch|)
    && (LOOP_THREAD in s.owing ==> s.pc.InBatch?)
    && s.queued == s.executed + s.batch[s.next..] + s.pending
  }

  lemma StepKeepsInv<F>(s: State<F>, step: Step<F>)
    requires Inv(s) && Enabled(s, step)
    ensures Inv(Apply(s, step))
  {
    var t := Apply(s, step);
    match step
    case RunFunctor =>
      assert s.batch[s.next..] == [s.batch[s.next]] + t.batch[t.next..];
    case SwapQueue =>
      assert s.batch[s.next..] == [] && t.batch[0..] == s.pending;
    case _ =>
  }

  /**
   Every functor ever queued is executed, waiting in the current batch, or pending, in
   queueing order and each occurrence exactly once; this holds after every step.
   */
  lemma {:induction false} FunctorsRunOnceInOrder<F>(ss: seq<State<F>>, steps: seq<Step<F>>)
    requires IsRun(ss, steps) && ss[0] == Init()
    ensures forall i :: 0 <= i < |ss| ==>
              Inv(ss[i]) && ss[i].queued == ss[i].executed + ss[i].batch[ss[i].next..] + ss[i].pending
  {
    if steps == [] {
    } else {
      var n := |steps| - 1;
      assert IsRun(ss[..n + 1], steps[..n]);
      FunctorsRunOnceInOrder(ss[..n + 1], steps[..n]);
      assert ss[..n + 1][n] == ss[n];
      StepKeepsInv(ss[n], steps[n]);
      forall i | 0 <= i < |ss|
        ensures Inv(ss[i])
      {
        if i <= n {
          assert ss[..n + 1][i] == ss[i];
        }
      }
    }
  }

  /** The functors pushed in the first `n` steps, by whichever thread. */
  function Pushed<F>(steps: seq<Step<F>>, n: nat): seq<F>
    requires n <= |steps|
  {
    if n == 0 then []
    else if steps[n - 1].Push? then Pushed(steps, n - 1) + [steps[n - 1].f]
    else Pushed(steps, n - 1)
  }

  /** The functor calls in the first `n` steps. */
  function Calls<F>(steps: seq<Step<F>>, n: nat): nat
    requires n <= |steps|
  {
    if n == 0 then 0 else Calls(steps, n - 1) + if steps[n - 1].RunFunctor? then 1 else 0
  }

  /** The histories in `s` are those of the pushes `pushed` and of `calls` functor calls. */
  ghost predicate Records<F>(s: State<F>, pushed: seq<F>, calls: nat) {
    s.queued == pushed && |s.executed| == calls
  }

  lemma StepRecords<F>(s: State<F>, step: Step<F>)
    requires Enabled(s, step)
    ensures Apply(s, step).queued == if step.Push? then s.queued + [step.f] else s.queued
    ensures |Apply(s, step).executed| == |s.executed| + if step.RunFunctor? then 1 else 0
  {
  }

  ghost predicate KeepsRecords<F>(ss: seq<State<F>>, steps: seq<Step<F>>, m: nat)
    requires m < |steps| < |ss|
  {
    Records(ss[m], Pushed(steps, m), Calls(steps, m)) ==> Records(ss[m + 1], Pushed(steps, m + 1), Calls(steps, m + 1))
  }

  lemma StepsKeepRecords<F>(ss: seq<State<F>>, steps: seq<Step<F>>, m: nat)
    requires IsRun(ss, steps) && m < |steps|
    ensures KeepsRecords(ss, steps, m)
  {
    StepRecords(ss[m], steps[m]);
  }

  lemma {:induction false} RecordsUpTo<F>(ss: seq<State<F>>, steps: seq<Step<F>>, n: nat)
    requires n <= |steps| < |ss| && ss[0] == Init()
    requires forall m :: 0 <= m < |steps| ==> KeepsRecords(ss, steps, m)
    ensures Records(ss[n], Pushed(steps, n), Calls(steps, n))
  {
    if n == 0 {
    } else {
      RecordsUpTo(ss, steps, n - 1);
      assert KeepsRecords(ss, steps, n - 1);
    }
  }

  /** So what has been executed is the first of the pushed functors, as many as were called. */
  lemma ExecutedArePushed<F>(ss: seq<State<F>>, steps: seq<Step<F>>, n: nat)
    requires IsRun(ss, steps) && ss[0] == Init() && n <= |steps|
    ensures ss[n].queued == Pushed(steps, n)
    ensures Calls(steps, n) <= |Pushed(steps, n)| && ss[n].executed == Pushed(steps, n)[..Calls(steps, n)]
  {
    forall m | 0 <= m < |steps| {
      StepsKeepRecords(ss, steps, m);
    }
    RecordsUpTo(ss, steps, n);
    FunctorsRunOnceInOrder(ss, steps);
    ExecutedIsPrefix(ss[n]);
  }

  lemma ExecutedIsPrefix<F>(s: State<F>)
    requires Inv(s)
    ensures |s.executed| <= |s.queued| && s.executed == s.queued[..|s.executed|]
  {
    assert s.executed + (s.batch[s.next..] + s.pending) == s.queued;
  }

  function FunctorSteps<F>(steps: seq<Step<F>>): nat {
    if steps == [] then 0
    else FunctorSteps(steps[..|steps| - 1]) + if steps[|steps| - 1].RunFunctor? then 1 else 0
  }

  /** A run of one batch: from the swap up to, at most, the end of the batch. */
  ghost predicate IsBatchRun<F>(ss: seq<State<F>>, steps: seq<Step<F>>) {
    && IsRun(ss, steps)
    && steps != []
    && steps[0].SwapQueue?
    && forall i :: 0 < i < |steps| ==> !steps[i].EndBatch?
  }

  /** State `e` has run the first `k` functors of the batch swapped out of state `s`. */
  ghost predicate HasRun<F>(s: State<F>, e: State<F>, k: nat) {
    && e.pc.InBatch?
    && e.batch == s.pending
    && e.next == k <= |s.pending|
    && e.executed == s.executed + s.pending[..k]
  }

  lemma BatchStep<F>(s: State<F>, e: State<F>, k: nat, step: Step<F>)
    requires HasRun(s, e, k) && Enabled(e, step) && !step.EndBatch?
    ensures HasRun(s, Apply(e, step), if step.RunFunctor? then k + 1 else k)
  {
    if step.RunFunctor? {
      assert s.pending[..k] + [s.pending[k]] == s.pending[..k + 1];
    }
  }

  /**
   A batch is what was pending at the swap and nothing queued later: whatever is pushed
   meanwhile, by functors or other threads, the batch has exactly that many functor calls.
   */
  lemma {:induction false} BatchIsFixedAtSwap<F>(ss: seq<State<F>>, steps: seq<Step<F>>)
    requires IsBatchRun(ss, steps)
    ensures HasRun(ss[0], ss[|steps|], FunctorSteps(steps))
  {
    var n := |steps| - 1;
    if n == 0 {
      assert FunctorSteps(steps[..0]) == 0;
    } else {
      assert IsBatchRun(ss[..n + 1], steps[..n]);
      BatchIsFixedAtSwap(ss[..n + 1], steps[..n]);
      BatchStep(ss[0], ss[n], FunctorSteps(steps[..n]), steps[n]);
    }
  }

  /** When the batch ends, everything queued before the swap has been executed, and no more. */
  lemma BatchExecutesWhatWasQueued<F>(ss: seq<State<F>>, steps: seq<Step<F>>)
    requires IsBatchRun(ss, steps) && Inv(ss[0]) && Enabled(ss[|steps|], EndBatch)
    ensures ss[|steps|].executed == ss[0].queued
    ensures FunctorSteps(steps) == |ss[0].pending|
  {
    BatchIsFixedAtSwap(ss, steps);
    BatchStart(ss[0], steps[0]);
    assert ss[0].pending[..|ss[0].pending|] == ss[0].pending;
  }

  lemma BatchStart<F>(s: State<F>, step: Step<F>)
    requires Inv(s) && step.SwapQueue? && Enabled(s, step)
    ensures s.queued == s.executed + s.pending
  {
    assert s.batch[s.next..] == [];
  }

  // ---------------------------------------------------------------- no lost wakeup

  /** poll will return: the eventfd is readable, or a thread is just about to make it so. */
  predicate Awake<F>(s: State<F>) {
    s.counter > 0 || s.owing != {}
  }

  /** The loop does not sleep in poll on queued functors or on a request to quit. */
  ghost predicate NoLostWakeup<F>(s: State<F>) {
    s.pc.InPoll? && (s.pending != [] || s.quit) ==> Awake(s)
  }

  /** From the batch to the next poll the queue is announced; in dispatch the swap is still to come. */
  ghost predicate Announced<F>(s: State<F>) {
    && ((s.pc.InBatch? || s.pc.LoopCheck? || s.pc.InPoll?) && s.pending != [] ==> Awake(s))
    && (s.pc.InPoll? && s.quit ==> Awake(s))
    && (s.pc.InBatch? ==> s.calling)
  }

  /** One call of loop(): it starts with Enter and is not entered again. */
  ghost predicate IsSession<F>(ss: seq<State<F>>, steps: seq<Step<F>>) {
    && IsRun(ss, steps)
    && steps != []
    && steps[0].Enter?
    && forall i :: 0 < i < |steps| ==> !steps[i].Enter?
  }

  lemma StepKeepsAnnounced<F>(s: State<F>, step: Step<F>)
    requires Inv(s) && Announced(s) && Enabled(s, step) && !step.Enter?
    ensures Announced(Apply(s, step))
  {
    var t := Apply(s, step);
    match step
    case Push(thread, _) =>
      assert t.owing == s.owing || thread in t.owing;
    case SetQuit(thread) =>
      assert t.owing == s.owing || thread in t.owing;
    case Wake(_) =>
      assert t.counter > 0;
    case _ =>
  }

  lemma {:induction false} SessionStaysAnnounced<F>(ss: seq<State<F>>, steps: seq<Step<F>>)
    requires IsSession(ss, steps) && Inv(ss[0])
    requires ss[0].pending == [] || Awake(ss[0])
    ensures forall i :: 0 < i < |ss| ==> Inv(ss[i]) && Announced(ss[i])
  {
    var n := |steps| - 1;
    if n == 0 {
      StepKeepsInv(ss[0], steps[0]);
    } else {
      assert IsSession(ss[..n + 1], steps[..n]);
      SessionStaysAnnounced(ss[..n + 1], steps[..n]);
      assert ss[..n + 1][n] == ss[n];
      StepKeepsInv(ss[n], steps[n]);
      StepKeepsAnnounced(ss[n], steps[n]);
      forall i | 0 < i < |ss|
        ensures Inv(ss[i]) && Announced(ss[i])
      {
        if i <= n {
          assert ss[..n + 1][i] == ss[i];
        }
      }
    }
  }

  /** No interleaving of a session started in `s` ever sleeps on work or on a quit request. */
  ghost predicate NeverSleepsOnWork<F(!new)>(s: State<F>) {
    forall ss: seq<State<F>>, steps: seq<Step<F>> :: IsSession(ss, steps) && ss[0] == s ==>
      forall i :: 0 <= i < |ss| ==> NoLostWakeup(ss[i])
  }

  /**
   The wakeup test of queueInLoop suffices exactly when loop() is entered with an empty or
   announced queue.  What breaks it is the loop thread queueing before loop(): that push is
   not announced, and the first poll sleeps on it.
   */
  lemma NoLostWakeupExactly<F(!new)>(s: State<F>)
    requires Inv(s) && s.pc.Outside?
    ensures NeverSleepsOnWork(s) <==> s.pending == [] || Awake(s)
  {
    if s.pending == [] || Awake(s) {
      forall ss: seq<State<F>>, steps: seq<Step<F>> | IsSession(ss, steps) && ss[0] == s
        ensures forall i :: 0 <= i < |ss| ==> NoLostWakeup(ss[i])
      {
        SessionStaysAnnounced(ss, steps);
      }
    } else {
      var s1 := Apply(s, Enter);
      var s2 := Apply(s1, TestQuit);
      var ss, steps := [s, s1, s2], [Step<F>.Enter, Step<F>.TestQuit];
      assert IsSession(ss, steps) && ss[0] == s && !NoLostWakeup(ss[2]);
    }
  }

  /** The state the previous lemma rules out is reachable: queue in the loop thread, then loop(). */
  lemma PushBeforeLoopIsUnannounced<F>(f: F)
    ensures var s := Apply(Init(), Push(LOOP_THREAD, f));
            Inv(s) && s.pc.Outside? && s.pending == [f] && !Awake(s)
  {
    StepKeepsInv(Init<F>(), Push(LOOP_THREAD, f));
  }

  // ---------------------------------------------------------------- quit

  function PollSteps<F>(steps: seq<Step<F>>): nat {
    if steps == [] then 0
    else PollSteps(steps[..|steps| - 1]) + if steps[|steps| - 1].PollReturns? then 1 else 0
  }

  lemma QuitStep<F>(s: State<F>, step: Step<F>)
    requires s.quit && Enabled(s, step) && !step.Enter?
    ensures var t := Apply(s, step);
            && t.quit
            && (t.pc.InPoll? ==> s.pc.InPoll?)
            && (step.PollReturns? ==> s.pc.InPoll? && !t.pc.InPoll?)
  {
  }

  /**
   Once quit is set inside a session it stays set, and the loop polls at most once more,
   namely when it already was in poll; `NoLostWakeupExactly` says that poll does not block.
   */
  lemma {:induction false} QuitEndsTheLoop<F>(ss: seq<State<F>>, steps: seq<Step<F>>)
    requires IsRun(ss, steps) && ss[0].quit && forall i :: 0 <= i < |steps| ==> !steps[i].Enter?
    ensures var e := ss[|steps|];
            && e.quit
            && PollSteps(steps) <= (if ss[0].pc.InPoll? then 1 else 0)
            && (e.pc.InPoll? ==> ss[0].pc.InPoll? && PollSteps(steps) == 0)
  {
    if steps == [] {
    } else {
      var n := |steps| - 1;
      assert IsRun(ss[..n + 1], steps[..n]);
      QuitEndsTheLoop(ss[..n + 1], steps[..n]);
      QuitStep(ss[n], steps[n]);
    }
  }

  /** A request to quit among the first `n` steps that no later entry into loop() has cleared. */
  predicate QuitStands<F>(steps: seq<Step<F>>, n: nat)
    requires n <= |steps|
  {
    exists i :: 0 <= i < n && steps[i].SetQuit? && forall j :: i < j < n ==> !steps[j].Enter?
  }

  /**
   loop() clears quit_ on entry.  Over every run the flag is set exactly when some thread has
   asked to quit and loop() has not been entered since: that is when quit() is honoured.
   */
  lemma {:induction false} QuitIsHonouredExactly<F>(ss: seq<State<F>>, steps: seq<Step<F>>, n: nat)
    requires IsRun(ss, steps) && ss[0] == Init() && n <= |steps|
    ensures ss[n].quit <==> QuitStands(steps, n)
  {
    if n == 0 {
    } else {
      QuitIsHonouredExactly(ss, steps, n - 1);
      assert ss[n] == Apply(ss[n - 1], steps[n - 1]);
      if ss[n].quit {
        var i :| 0 <= i < n && steps[i].SetQuit? && (i == n - 1 || forall j :: i < j < n - 1 ==> !steps[j].Enter?);
        assert forall j :: i < j < n ==> !steps[j].Enter?;
      }
      if QuitStands(steps, n) && !steps[n - 1].SetQuit? {
        assert QuitStands(steps, n - 1);
      }
    }
  }

  /**
   A quit from another thread that comes before Enter is lost: the loop ends up asleep with
   nothing to wake it, and the flag cleared.
   */
  lemma QuitBeforeLoopIsLost()
    ensures exists ss: seq<State<int>>, steps: seq<Step<int>> ::
              && IsRun(ss, steps) && ss[0] == Init() && steps != [] && steps[0] == SetQuit(1)
              && var e := ss[|steps|]; e.pc.InPoll? && !e.quit && !Awake(e)
  {
    var ss, steps := [Init<int>()], [];
    ss, steps := Extend(ss, steps, SetQuit(1));
    ss, steps := Extend(ss, steps, Wake(1));
    ss, steps := IdleIteration(ss, steps);
  }

  /** With nothing to do, entering loop() consumes the wakeup and goes to sleep. */
  lemma IdleIteration<F>(ss: seq<State<F>>, steps: seq<Step<F>>) returns (ss': seq<State<F>>, steps': seq<Step<F>>)
    requires IsRun(ss, steps) && steps != []
    requires var e := ss[|steps|]; e.pc.Outside? && e.pending == [] && e.owing == {} && e.counter > 0
    ensures IsRun(ss', steps') && ss'[0] == ss[0] && steps' != [] && steps'[0] == steps[0]
    ensures var e := ss'[|steps'|]; e.pc.InPoll? && !e.quit && !Awake(e)
  {
    ss', steps' := Extend(ss, steps, Enter);
    ss', steps' := Extend(ss', steps', TestQuit);
    ss', steps' := Extend(ss', steps', PollReturns(false));
    ss', steps' := Extend(ss', steps', HandleWakeup);
    ss', steps' := Extend(ss', steps', EndDispatch);
    ss', steps' := Extend(ss', steps', SwapQueue);
    ss', steps' := Extend(ss', steps', EndBatch);
    ss', steps' := Extend(ss', steps', TestQuit);
  }

  lemma Extend<F>(ss: seq<State<F>>, steps: seq<Step<F>>, step: Step<F>)
    returns (ss': seq<State<F>>, steps': seq<Step<F>>)
    requires IsRun(ss, steps) && Enabled(ss[|steps|], step)
    ensures IsRun(ss', steps') && ss'[0] == ss[0] && steps' != [] && steps'[0] == (steps + [step])[0]
    ensures ss'[|steps'|] == Apply(ss[|steps|], step)
  {
    ss', steps' := ss + [Apply(ss[|steps|], step)], steps + [step];
  }

  // ---------------------------------------------------------------- the code of one thread

  /** queueInLoop, undisturbed: push, then wake unless the coming swap will see the push anyway. */
  function QueueCall<F>(s: State<F>, thread: Thread, f: F): State<F>
    requires Enabled(s, Push(thread, f))
  {
    var s1 := Apply(s, Push(thread, f));
    if thread in s1.owing then Apply(s1, Wake(thread)) else s1
  }

  function QuitCall<F>(s: State<F>, thread: Thread): State<F>
    requires Enabled(s, SetQuit(thread))
  {
    var s1 := Apply(s, SetQuit(thread));
    if thread in s1.owing then Apply(s1, Wake(thread)) else s1
  }

  /**
   In the batch swapped out of `before`, `k` functors have run and queued `added`; what they
   queued is announced to the next poll.
   */
  ghost predicate MidBatch<F>(before: State<F>, s: State<F>, k: nat, added: seq<F>) {
    && HasRun(before, s, k)
    && s.pending == added
    && s.queued == before.queued + added
    && LOOP_THREAD !in s.owing
    && Announced(s)
  }

  lemma QueueingInBatch<F>(before: State<F>, s: State<F>, k: nat, added: seq<F>, f: F)
    requires MidBatch(before, s, k, added)
    ensures Enabled(s, Push(LOOP_THREAD, f))
    ensures MidBatch(before, QueueCall(s, LOOP_THREAD, f), k, added + [f])
  {
    assert s.queued + [f] == before.queued + (added + [f]);
  }

  function Concat<F>(lists: seq<seq<F>>): seq<F> {
    if lists == [] then [] else Concat(lists[..|lists| - 1]) + lists[|lists| - 1]
  }

  class EventLoop<F> {
    const poller: Polling.Poller
    var quit: bool
    var callingPendingFunctors: bool
    var eventfd: nat
    var pendingFunctors: seq<F>
    /** The state of the step system this loop is in. */
    ghost var protocol: State<F>

    ghost predicate Valid()
      reads this
    {
      && protocol == protocol.(quit := quit, calling := callingPendingFunctors,
                               counter := eventfd, pending := pendingFunctors)
      && Inv(protocol)
    }

    /** The loop thread is in a handler, in a functor, or not in loop() at all. */
    ghost predicate InUserCode()
      reads this
    {
      Valid() && LoopThreadRunsUserCode(protocol.pc) && LOOP_THREAD !in protocol.owing
    }

    constructor (poller: Polling.Poller)
      ensures Valid() && this.poller == poller && protocol == Init()
    {
      this.poller := poller;
      quit, callingPendingFunctors, eventfd, pendingFunctors := false, false, 0, [];
      protocol := Init();
    }

    method Wakeup(ghost thread: Thread)
      requires Valid() && thread in protocol.owing
      modifies this
      ensures Valid() && protocol == Apply(old(protocol), Wake(thread))
      ensures quit == old(quit) && pendingFunctors == old(pendingFunctors)
      ensures eventfd == if old(eventfd) < EVENTFD_MAX then old(eventfd) + 1 else old(eventfd)
    {
      StepKeepsInv(protocol, Wake(thread));
      if eventfd < EVENTFD_MAX {
        eventfd := eventfd + 1;
      }
      protocol := Apply(protocol, Wake(thread));
    }

    method HandleRead()
      requires Valid() && Enabled(protocol, HandleWakeup)
      modifies this
      ensures Valid() && protocol == Apply(old(protocol), HandleWakeup)
      ensures eventfd == 0 && quit == old(quit) && pendingFunctors == old(pendingFunctors)
    {
      StepKeepsInv(protocol, HandleWakeup);
      eventfd := 0;
      protocol := Apply(protocol, HandleWakeup);
    }

    method Quit(thread: Thread)
      requires Valid() && Enabled(protocol, SetQuit(thread))
      modifies this
      ensures Valid() && protocol == QuitCall(old(protocol), thread)
      ensures quit && pendingFunctors == old(pendingFunctors)
      ensures eventfd == if thread != LOOP_THREAD && old(eventfd) < EVENTFD_MAX then old(eventfd) + 1 else old(eventfd)
    {
      StepKeepsInv(protocol, SetQuit(thread));
      quit := true;
      protocol := Apply(protocol, SetQuit(thread));
      if thread != LOOP_THREAD {
        Wakeup(thread);
      }
    }

    method QueueInLoop(thread: Thread, cb: F)
      requires Valid() && Enabled(protocol, Push(thread, cb))
      modifies this
      ensures Valid() && protocol == QueueCall(old(protocol), thread, cb)
      ensures pendingFunctors == old(pendingFunctors) + [cb]
      ensures eventfd == if (thread != LOOP_THREAD || callingPendingFunctors) && old(eventfd) < EVENTFD_MAX
                         then old(eventfd) + 1 else old(eventfd)
    {
      StepKeepsInv(protocol, Push(thread, cb));
      pendingFunctors := pendingFunctors + [cb];
      protocol := Apply(protocol, Push(thread, cb));
      if thread != LOOP_THREAD || callingPendingFunctors {
        Wakeup(thread);
      }
    }

    /**
     The functor that runs as number `i` queues the functors `during[i]`.  However many those
     are, the call runs what was pending when it began, in order, and leaves exactly the new
     ones behind, announced to the next poll.
     */
    method DoPendingFunctors(during: seq<seq<F>>)
      requires Valid() && protocol.pc == Dispatch(false) && LOOP_THREAD !in protocol.owing
      requires |during| == |pendingFunctors|
      modifies this
      ensures Valid() && protocol.pc == LoopCheck && Announced(protocol)
      ensures protocol.executed == old(protocol.queued)
      ensures pendingFunctors == Concat(during)
      ensures protocol.queued == old(protocol.queued) + Concat(during)
    {
      callingPendingFunctors := true;
      Advance(EndDispatch);
      ghost var before := protocol;
      var functors := pendingFunctors;
      pendingFunctors := [];
      Advance(SwapQueue);
      var i := 0;
      while i < |functors|
        invariant 0 <= i <= |functors| == |during| && Valid()
        invariant MidBatch(before, protocol, i, Concat(during[..i]))
      {
        BatchStep(before, protocol, i, RunFunctor);
        Advance(RunFunctor);
        QueueAll(before, i + 1, Concat(during[..i]), during[i]);
        i := i + 1;
        assert during[..i][..i - 1] == during[..i - 1];
      }
      assert during[..i] == during && before.pending[..i] == before.pending;
      BatchStart(before, SwapQueue);
      callingPendingFunctors := false;
      Advance(EndBatch);
    }

    /** What functor number `i - 1` of the batch does when it queues `fs`. */
    method QueueAll(ghost before: State<F>, ghost i: nat, ghost added: seq<F>, fs: seq<F>)
      requires Valid() && MidBatch(before, protocol, i, added)
      modifies this
      ensures Valid() && MidBatch(before, protocol, i, added + fs)
    {
      assert added + fs[..0] == added;
      for k := 0 to |fs|
        invariant Valid() && MidBatch(before, protocol, i, added + fs[..k])
      {
        QueueingInBatch(before, protocol, i, added + fs[..k], fs[k]);
        assert added + fs[..k + 1] == added + fs[..k] + [fs[k]];
        QueueInLoop(LOOP_THREAD, fs[k]);
      }
      assert fs[..|fs|] == fs;
    }

    /** Move the protocol along after the matching fields have been written. */
    ghost method Advance(step: Step<F>)
      requires Inv(protocol) && Enabled(protocol, step)
      requires var t := Apply(protocol, step);
               && quit == t.quit && callingPendingFunctors == t.calling
               && eventfd == t.counter && pendingFunctors == t.pending
      modifies this`protocol
      ensures Valid() && protocol == Apply(old(protocol), step)
    {
      StepKeepsInv(protocol, step);
      protocol := Apply(protocol, step);
    }
  }
}
