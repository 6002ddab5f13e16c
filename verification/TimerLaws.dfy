/**
 What addTimer and handleRead make of the queue, timer by timer and without reference to how:
 which timers exist afterwards, when each is due next, and when the alarm goes off.
 */
module TimerLaws {

  import opened Outcomes
  import opened Timers

  // ---------------------------------------------------------------- additions

  /** The timers of a sequence of addTimer calls, with what they were asked to be. */
  function Asked(ns: seq<NewTimer>): map<Address, TimerValue> {
    if ns == [] then map[] else Asked(ns[..|ns| - 1])[ns[|ns| - 1].timer := ns[|ns| - 1].value]
  }

  /** `q'` is `q` with the timers `asked`, each pending at its own expiration, and nothing else. */
  ghost predicate Adds(q: Queue, q': Queue, asked: map<Address, TimerValue>) {
    && q.pool.Keys !! asked.Keys && q'.pool == q.pool + asked
    && (forall e :: e in q'.entries <==>
          e in q.entries || (e.timer in asked && e.when == asked[e.timer].expiration))
    && (q'.fd.Readable? ==> q.fd.Readable?)
  }

  lemma AddsNothing(q: Queue)
    ensures Adds(q, q, map[])
  {
    assert q.pool + map[] == q.pool;
  }

  /** addTimer, besides, sets the alarm exactly when the timer is due before all others. */
  lemma AddTimerAddsIt(q: Queue, n: NewTimer)
    requires AddTimer(q, n).Ok?
    ensures var q' := AddTimer(q, n).value;
            && Adds(q, q', map[n.timer := n.value]) && q'.log == q.log
            && q'.fd == if q.entries == [] || n.value.expiration < q.entries[0].when
                        then Armed(Later(n.value.expiration, n.clock + 100), n.clock) else q.fd
  {
    DelayIsNeverZero(n.value.expiration, n.clock);
    assert AddTimer(q, n).value.entries == InsertEntry(q.entries, Entry(n.value.expiration, n.timer));
  }

  lemma AddsCompose(q: Queue, q1: Queue, q2: Queue, first: map<Address, TimerValue>, more: map<Address, TimerValue>)
    requires Adds(q, q1, first) && Adds(q1, q2, more)
    ensures first.Keys !! more.Keys && Adds(q, q2, first + more)
  {
    assert (q.pool + first) + more == q.pool + (first + more);
  }

  lemma {:induction false} AddTimersAddThem(q: Queue, ns: seq<NewTimer>)
    requires AddTimers(q, ns).Ok?
    ensures Adds(q, AddTimers(q, ns).value, Asked(ns))
  {
    if ns == [] {
      AddsNothing(q);
    } else {
      var front, n := ns[..|ns| - 1], ns[|ns| - 1];
      AddTimersAddThem(q, front);
      var q1 := AddTimers(q, front).value;
      AddTimerAddsIt(q1, n);
      AddsCompose(q, q1, AddTimer(q1, n).value, Asked(front), map[n.timer := n.value]);
      assert Asked(front) + map[n.timer := n.value] == Asked(ns);
    }
  }

  /** The timers that the first `k` callbacks of a batch add. */
  function AskedBy(expired: seq<Entry>, script: Script, k: nat): map<Address, TimerValue>
    requires k <= |expired|
  {
    if k == 0 then map[] else AskedBy(expired, script, k - 1) + Asked(Added(script, expired[k - 1].timer))
  }

  lemma {:induction false} CallbacksAddTheirs(q: Queue, expired: seq<Entry>, script: Script, now: int, k: nat)
    requires k <= |expired| && RunCallbacks(q, expired, script, now, k).Ok?
    ensures Adds(q, RunCallbacks(q, expired, script, now, k).value, AskedBy(expired, script, k))
  {
    if k == 0 {
      AddsNothing(q);
    } else {
      CallbacksAddTheirs(q, expired, script, now, k - 1);
      var q1 := RunCallbacks(q, expired, script, now, k - 1).value;
      var t := expired[k - 1].timer;
      AddTimersAddThem(Fire(q1, t, now), Added(script, t));
      var q2 := AddTimers(Fire(q1, t, now), Added(script, t)).value;
      AddsCompose(q, q1, q2, AskedBy(expired, script, k - 1), Asked(Added(script, t)));
    }
  }

  // ---------------------------------------------------------------- repeating timers

  /** The timer `t` of `q` repeats and is one of `done`. */
  predicate Repeats(q: Queue, done: set<Address>, t: Address) {
    t in q.pool && t in done && q.pool[t].repeat
  }

  /** `q'` is `q` with those of the timers `done` that repeat due one interval after `now`. */
  ghost predicate PutsBack(q: Queue, q': Queue, done: set<Address>, now: int) {
    && q'.pool.Keys == q.pool.Keys && q'.fd == q.fd && q'.log == q.log
    && (forall t :: t in q.pool ==>
          q'.pool[t] == if Repeats(q, done, t) then q.pool[t].(expiration := now + q.pool[t].interval) else q.pool[t])
    && (forall e :: e in q'.entries <==>
          e in q.entries || (Repeats(q, done, e.timer) && e.when == now + q.pool[e.timer].interval))
  }

  lemma PutsBackOne(q: Queue, q1: Queue, done: set<Address>, t: Address, now: int)
    requires PutsBack(q, q1, done, now) && t in q.pool && t !in done
    requires q.pool[t].repeat && Insert(RestartIn(q1, t, now), t).Ok?
    ensures PutsBack(q, Insert(RestartIn(q1, t, now), t).value, done + {t}, now)
  {
    var e := Entry(now + q.pool[t].interval, t);
    assert Insert(RestartIn(q1, t, now), t).value.entries == InsertEntry(q1.entries, e);
  }

  lemma PutsBackNone(q: Queue, q1: Queue, done: set<Address>, t: Address, now: int)
    requires PutsBack(q, q1, done, now) && t in q.pool && !q.pool[t].repeat
    ensures PutsBack(q, q1, done + {t}, now)
  {
  }

  lemma NextPutsBack(q: Queue, q1: Queue, expired: seq<Entry>, now: int, k: nat)
    requires k < |expired| && DistinctTimers(expired) && expired[k].timer in q.pool
    requires PutsBack(q, q1, TimersOf(expired[..k]), now)
    ensures var t := expired[k].timer;
            var r := if q1.pool[t].repeat then Insert(RestartIn(q1, t, now), t) else Ok(q1);
            r.Ok? ==> PutsBack(q, r.value, TimersOf(expired[..k + 1]), now)
  {
    var t, done := expired[k].timer, TimersOf(expired[..k]);
    TimersOfSplit(expired, k);
    NotYetDone(expired, k);
    if !q.pool[t].repeat {
      PutsBackNone(q, q1, done, t, now);
    } else if Insert(RestartIn(q1, t, now), t).Ok? {
      PutsBackOne(q, q1, done, t, now);
    }
  }

  lemma NotYetDone(expired: seq<Entry>, k: nat)
    requires k < |expired| && DistinctTimers(expired)
    ensures expired[k].timer !in TimersOf(expired[..k])
  {
  }

  lemma PutsBackNobody(q: Queue, now: int)
    ensures PutsBack(q, q, {}, now)
  {
  }

  lemma ReinsertNext(q: Queue, expired: seq<Entry>, now: int, k: nat)
    requires k < |expired| && DistinctTimers(expired) && expired[k].timer in q.pool
    requires Reinsert(q, expired, now, k + 1).Ok?
    requires PutsBack(q, Reinsert(q, expired, now, k).value, TimersOf(expired[..k]), now)
    ensures PutsBack(q, Reinsert(q, expired, now, k + 1).value, TimersOf(expired[..k + 1]), now)
  {
    NextPutsBack(q, Reinsert(q, expired, now, k).value, expired, now, k);
  }

  lemma {:induction false} ReinsertPutsBack(q: Queue, expired: seq<Entry>, now: int, k: nat)
    requires k <= |expired| && DistinctTimers(expired) && Reinsert(q, expired, now, k).Ok?
    requires forall i :: 0 <= i < |expired| ==> expired[i].timer in q.pool
    ensures PutsBack(q, Reinsert(q, expired, now, k).value, TimersOf(expired[..k]), now)
  {
    if k == 0 {
      PutsBackNobody(q, now);
      assert expired[..0] == [] && TimersOf([]) == {};
    } else {
      ReinsertPutsBack(q, expired, now, k - 1);
      ReinsertNext(q, expired, now, k - 1);
    }
  }

  // ---------------------------------------------------------------- handleRead

  /**
   `q'` is what a handleRead at `now` makes of `q` when the timers `due` are due and callbacks
   ask for the timers `asked`: those of `due` that repeat are due one interval after `now`, the
   one-shot ones are pending no more, all others are untouched, and those asked for are pending
   as asked.
   */
  ghost predicate Serves(q: Queue, q': Queue, due: set<Address>, asked: map<Address, TimerValue>, now: int) {
    && q.pool.Keys !! asked.Keys && q'.pool.Keys == q.pool.Keys + asked.Keys
    && (forall t :: t in asked ==> q'.pool[t] == asked[t])
    && (forall t :: t in q.pool ==>
          q'.pool[t] == if Repeats(q, due, t) then q.pool[t].(expiration := now + q.pool[t].interval) else q.pool[t])
    && (forall e :: e in q'.entries <==>
          || (e in q.entries && e.timer !in due)
          || (Repeats(q, due, e.timer) && e.when == now + q.pool[e.timer].interval)
          || (e.timer in asked && e.when == asked[e.timer].expiration))
  }

  lemma StagesServe(q: Queue, cut: Queue, q2: Queue, q3: Queue,
                    due: set<Address>, asked: map<Address, TimerValue>, now: int)
    requires cut.pool == q.pool && due <= q.pool.Keys
    requires forall e :: e in cut.entries <==> e in q.entries && e.timer !in due
    requires Adds(cut, q2, asked) && PutsBack(q2, q3, due, now)
    ensures Serves(q, q3, due, asked, now)
  {
  }

  /** The cut leaves exactly the entries whose timers are not due. */
  lemma CutIsByTimer(q: Queue, now: int)
    requires Keyed(q)
    ensures var due := TimersOf(DueEntries(q, now));
            && due <= q.pool.Keys
            && (forall e :: e in CutOff(q, now).entries <==> e in q.entries && e.timer !in due)
            && (forall t :: t in due <==> exists e :: e in q.entries && e.timer == t && e.when < now)
  {
    DueTimersAreDistinct(q, now);
    DueEntriesAreExact(q, now);
    forall e | e in q.entries && e.when >= now
      ensures e.timer !in TimersOf(DueEntries(q, now))
    {
    }
    forall t | t in TimersOf(DueEntries(q, now))
      ensures exists e :: e in q.entries && e.timer == t && e.when < now
    {
      var e :| e in DueEntries(q, now) && e.timer == t;
    }
  }

  /**
   A handleRead that succeeds serves exactly the timers whose entries are before `now`; the
   alarm has been read, and is set for the earliest timer if that has a valid expiration.
   */
  lemma HandleReadServes(q: Queue, now: int, script: Script, clock: int)
    requires Inv(q) && HandleRead(q, now, script, clock).Ok?
    ensures var q', due := HandleRead(q, now, script, clock).value, DueEntries(q, now);
            && Serves(q, q', TimersOf(due), AskedBy(due, script, |due|), now)
            && !q'.fd.Readable?
            && (q'.entries != [] && q'.entries[0].when > 0 ==>
                  q'.fd == Armed(Later(q'.entries[0].when, clock + 100), clock))
  {
    var due, cut := DueEntries(q, now), CutOff(q, now);
    HandleReadParts(q, now, script, clock);
    var q2 := RunCallbacks(cut, due, script, now, |due|).value;
    var q3 := Reinsert(q2, due, now, |due|).value;
    CallbacksAddTheirs(cut, due, script, now, |due|);
    DueStay(q, q2, now, script);
    ReinsertPutsBack(q2, due, now, |due|);
    assert due[..|due|] == due;
    CutIsByTimer(q, now);
    StagesServe(q, cut, q2, q3, TimersOf(due), AskedBy(due, script, |due|), now);
    RearmSets(q3, clock);
  }

  lemma DueStay(q: Queue, q2: Queue, now: int, script: Script)
    requires Keyed(q)
    requires Adds(CutOff(q, now), q2, AskedBy(DueEntries(q, now), script, |DueEntries(q, now)|))
    ensures DistinctTimers(DueEntries(q, now))
    ensures forall i :: 0 <= i < |DueEntries(q, now)| ==> DueEntries(q, now)[i].timer in q2.pool
  {
    DueTimersAreDistinct(q, now);
    assert forall i :: 0 <= i < |DueEntries(q, now)| ==> DueEntries(q, now)[i] in DueEntries(q, now);
  }

  lemma RearmSets(q: Queue, clock: int)
    requires Keyed(q) && !q.fd.Readable?
    ensures var q' := Rearm(q, clock);
            && q'.entries == q.entries && q'.pool == q.pool && !q'.fd.Readable?
            && (q'.entries != [] && q'.entries[0].when > 0 ==>
                  q'.fd == Armed(Later(q'.entries[0].when, clock + 100), clock))
  {
    if q.entries != [] {
      assert q.entries[0] in q.entries;
      DelayIsNeverZero(q.entries[0].when, clock);
    }
  }
}
