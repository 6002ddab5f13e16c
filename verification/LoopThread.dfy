/**
 EventLoopThread.cpp as a whole: the start-up handshake, the loop the child thread runs, and
 the destructor, which asks that loop to quit and waits for the thread to end.

 The creator gets the loop when it is published, which is before the child enters loop();
 loop() clears the request to quit.  So it matters when the destructor runs.
 */
module LoopThreads {

  import EventLoops
  import Latches
  import Startup

  /** The creator, as the event loop knows it; the destructor runs there. */
  const DESTRUCTOR: EventLoops.Thread := 1

  datatype State = State(
    start: Startup.State,
    loop: EventLoops.State<nat>,
    entered: bool,   // threadFunc has called loop()
    asked: bool)     // the destructor has stored its request to quit

  function Init(): State {
    State(Startup.Init(), EventLoops.Init(), false, false)
  }

  datatype Step =
    | Start(step: Startup.Step)
    | Loop(act: EventLoops.Step<nat>)
    | DestructorQuits   // loop_->quit(): quit_ = true
    | DestructorWakes   // loop_->quit(): wakeup(); join() is next

  /** The child enters loop() once; nobody has the loop before it is published. */
  predicate LoopStepAllowed(s: State, step: EventLoops.Step<nat>) {
    && s.start.child.Running?
    && EventLoops.Enabled(s.loop, step)
    && match step
       case Enter => !s.entered
       case Push(t, _) => t != DESTRUCTOR && (t == EventLoops.LOOP_THREAD ==> s.entered)
       case SetQuit(t) => t != DESTRUCTOR && (t == EventLoops.LOOP_THREAD ==> s.entered)
       case Wake(t) => t != DESTRUCTOR
       case _ => true
  }

  predicate Enabled(s: State, step: Step) {
    match step
    case Start(st) => Startup.Enabled(s.start, st)
    case Loop(st) => LoopStepAllowed(s, st)
    case DestructorQuits =>
      s.start.creator.Returned? && !s.asked && EventLoops.Enabled(s.loop, EventLoops.SetQuit(DESTRUCTOR))
    case DestructorWakes => s.asked && EventLoops.Enabled(s.loop, EventLoops.Wake(DESTRUCTOR))
  }

  function Apply(s: State, step: Step): State
    requires Enabled(s, step)
  {
    match step
    case Start(st) => s.(start := Startup.Apply(s.start, st))
    case Loop(st) => s.(loop := EventLoops.Apply(s.loop, st), entered := s.entered || st.Enter?)
    case DestructorQuits => s.(loop := EventLoops.Apply(s.loop, EventLoops.SetQuit(DESTRUCTOR)), asked := true)
    case DestructorWakes => s.(loop := EventLoops.Apply(s.loop, EventLoops.Wake(DESTRUCTOR)))
  }

  ghost predicate IsRun(ss: seq<State>, steps: seq<Step>) {
    && |ss| == |steps| + 1
    && ss[0] == Init()
    && forall i :: 0 <= i < |steps| ==> Enabled(ss[i], steps[i]) && ss[i + 1] == Apply(ss[i], steps[i])
  }

  ghost predicate Inv(s: State) {
    && Startup.Inv(s.start)
    && EventLoops.Inv(s.loop)
    && (s.entered ==> EventLoops.Announced(s.loop))
    && (!s.entered ==> s.loop.pc.Outside? && (s.loop.pending == [] || EventLoops.Awake(s.loop)))
  }

  lemma LoopStepKeepsInv(s: State, step: EventLoops.Step<nat>)
    requires Inv(s) && LoopStepAllowed(s, step)
    ensures Inv(Apply(s, Loop(step)))
  {
    EventLoops.StepKeepsInv(s.loop, step);
    if s.entered {
      EventLoops.StepKeepsAnnounced(s.loop, step);
    } else if step.Push? {
      assert step.thread in EventLoops.Apply(s.loop, step).owing;
    }
  }

  lemma StepKeepsInv(s: State, step: Step)
    requires Inv(s) && Enabled(s, step)
    ensures Inv(Apply(s, step))
  {
    match step
    case Start(st) => Startup.StepKeepsInv(s.start, st);
    case Loop(st) => LoopStepKeepsInv(s, st);
    case DestructorQuits =>
      var st := EventLoops.Step<nat>.SetQuit(DESTRUCTOR);
      EventLoops.StepKeepsInv(s.loop, st);
      assert DESTRUCTOR in EventLoops.Apply(s.loop, st).owing;
    case DestructorWakes =>
      EventLoops.StepKeepsInv(s.loop, EventLoops.Wake(DESTRUCTOR));
      assert EventLoops.Apply(s.loop, EventLoops.Step<nat>.Wake(DESTRUCTOR)).counter > 0;
  }

  lemma {:induction false} RunKeepsInv(ss: seq<State>, steps: seq<Step>, n: nat)
    requires IsRun(ss, steps) && n <= |steps|
    ensures Inv(ss[n])
  {
    if n == 0 {
    } else {
      RunKeepsInv(ss, steps, n - 1);
      StepKeepsInv(ss[n - 1], steps[n - 1]);
    }
  }

  /** Nobody but the destructor asks the loop to quit. */
  predicate OnlyDestructorQuits(steps: seq<Step>) {
    forall k :: 0 <= k < |steps| && steps[k].Loop? ==> !steps[k].act.SetQuit?
  }

  /**
   Once the child is inside loop(), the destructor's request stands exactly if the child had
   entered loop() when the request was made; otherwise loop() has cleared it.
   */
  lemma {:induction false} DestructorQuitIsSeenExactly(ss: seq<State>, steps: seq<Step>, i: nat, n: nat)
    requires IsRun(ss, steps) && OnlyDestructorQuits(steps)
    requires i < n <= |steps| && steps[i].DestructorQuits?
    ensures ss[n].asked && (ss[i].entered ==> ss[n].entered)
    ensures ss[n].loop.quit <==> ss[i].entered || !ss[n].entered
  {
    assert Enabled(ss[n - 1], steps[n - 1]) && ss[n] == Apply(ss[n - 1], steps[n - 1]);
    if n == i + 1 {
    } else {
      DestructorQuitIsSeenExactly(ss, steps, i, n - 1);
    }
  }

  /** A request that is seen never finds the loop asleep: join() will return. */
  lemma SeenQuitWakesTheLoop(ss: seq<State>, steps: seq<Step>, i: nat, n: nat)
    requires IsRun(ss, steps) && OnlyDestructorQuits(steps)
    requires i < n <= |steps| && steps[i].DestructorQuits? && ss[i].entered
    ensures ss[n].loop.quit && (ss[n].loop.pc.InPoll? ==> EventLoops.Awake(ss[n].loop))
  {
    DestructorQuitIsSeenExactly(ss, steps, i, n);
    RunKeepsInv(ss, steps, n);
  }

  /** The destructor waits in join() for a loop that sleeps and has forgotten its request. */
  predicate Stuck(s: State) {
    && s.asked && DESTRUCTOR !in s.loop.owing
    && s.loop.pc.InPoll? && !s.loop.quit && !EventLoops.Awake(s.loop)
  }

  lemma Extend(ss: seq<State>, steps: seq<Step>, step: Step) returns (ss': seq<State>, steps': seq<Step>)
    requires IsRun(ss, steps) && Enabled(ss[|steps|], step)
    ensures IsRun(ss', steps') && ss'[|steps'|] == Apply(ss[|steps|], step)
  {
    ss', steps' := ss + [Apply(ss[|steps|], step)], steps + [step];
  }

  /** The child stores its tid and opens the latch before the creator gets to wait. */
  lemma TidStored() returns (ss: seq<State>, steps: seq<Step>)
    ensures IsRun(ss, steps)
    ensures var s := ss[|steps|];
            && s.loop == EventLoops.Init() && !s.entered && !s.asked
            && s.start.creator.InLatchWait? && s.start.child.LatchDone? && s.start.tid > 0 && s.start.loop == 0
            && s.start.latch.count == 0 && s.start.latch.MutexFree() && s.start.latch.At(Startup.CREATOR).Ready?
  {
    ss, steps := [Init()], [];
    ss, steps := Extend(ss, steps, Start(Startup.Create(true)));
    ss, steps := Extend(ss, steps, Start(Startup.ChildSetsTid(7)));
    ss, steps := Extend(ss, steps, Start(Startup.LatchStep(Latches.BeginCountDown(Startup.CHILD))));
    ss, steps := Extend(ss, steps, Start(Startup.LatchStep(Latches.Decrement(Startup.CHILD))));
    ss, steps := Extend(ss, steps, Start(Startup.LatchStep(Latches.NotifyAndUnlock(Startup.CHILD))));
  }

  /** Thread::start returns; the loop is not published yet. */
  lemma Launched() returns (ss: seq<State>, steps: seq<Step>)
    ensures IsRun(ss, steps)
    ensures var s := ss[|steps|];
            && s.loop == EventLoops.Init() && !s.entered && !s.asked
            && s.start.creator.Started? && s.start.child.LatchDone? && s.start.loop == 0
  {
    ss, steps := TidStored();
    ss, steps := Extend(ss, steps, Start(Startup.LatchStep(Latches.BeginWait(Startup.CREATOR))));
    ss, steps := Extend(ss, steps, Start(Startup.LatchStep(Latches.Test(Startup.CREATOR))));
    ss, steps := Extend(ss, steps, Start(Startup.StartReturns));
  }

  /** startLoop returns to the creator. */
  lemma LoopReturned() returns (ss: seq<State>, steps: seq<Step>)
    ensures IsRun(ss, steps)
    ensures var s := ss[|steps|];
            && s.loop == EventLoops.Init() && !s.entered && !s.asked
            && s.start.creator.Returned? && s.start.child.Running?
  {
    ss, steps := Launched();
    ss, steps := Extend(ss, steps, Start(Startup.ChildLocks));
    ss, steps := Extend(ss, steps, Start(Startup.ChildPublishes(9)));
    ss, steps := Extend(ss, steps, Start(Startup.CreatorLocks));
    ss, steps := Extend(ss, steps, Start(Startup.CreatorTests));
    ss, steps := Extend(ss, steps, Start(Startup.CreatorReadsLoop));
  }

  /** The creator destroys the object at once; only then does the child enter loop() and poll. */
  lemma DestroyedEarly() returns (ss: seq<State>, steps: seq<Step>)
    ensures IsRun(ss, steps)
    ensures var s := ss[|steps|];
            && s.asked && s.entered && s.start.child.Running?
            && s.loop.pc == EventLoops.Dispatch(true) && !s.loop.quit && s.loop.pending == [] && s.loop.owing == {}
  {
    ss, steps := LoopReturned();
    ss, steps := Extend(ss, steps, DestructorQuits);
    ss, steps := Extend(ss, steps, DestructorWakes);
    ss, steps := Extend(ss, steps, Loop(EventLoops.Enter));
    ss, steps := Extend(ss, steps, Loop(EventLoops.TestQuit));
    ss, steps := Extend(ss, steps, Loop(EventLoops.PollReturns(false)));
  }

  /** Destroying the object right after startLoop can wait for ever. */
  lemma EarlyDestructorIsStuck()
    ensures exists ss: seq<State>, steps: seq<Step> :: IsRun(ss, steps) && Stuck(ss[|steps|])
  {
    var ss, steps := DestroyedEarly();
    ss, steps := Extend(ss, steps, Loop(EventLoops.HandleWakeup));
    ss, steps := Extend(ss, steps, Loop(EventLoops.EndDispatch));
    ss, steps := Extend(ss, steps, Loop(EventLoops.SwapQueue));
    ss, steps := Extend(ss, steps, Loop(EventLoops.EndBatch));
    ss, steps := Extend(ss, steps, Loop(EventLoops.TestQuit));
  }
}
