/**
 TimerQueue.cpp and time/Timer.cpp: an ordered set of (expiration, pointer) over timers
 that `restart` mutates, driven by one one-shot timerfd.

 Times are microseconds; an interval is the microsecond count `addTime` adds.  A pointer
 is its address: addresses order entries that fall due together, and null is 0.
 */
module Timers {

  import opened Outcomes

  type Address = nat

  const NULL: Address := 0

  const MICROS_PER_SECOND: nat := 1000 * 1000

  // ---------------------------------------------------------------- the timerfd

  datatype Timespec = Timespec(sec: int, nsec: int)

  function HowMuchTimeFromNow(when: int, now: int): Timespec {
    var microseconds := if when - now < 100 then 100 else when - now;
    Timespec(microseconds / MICROS_PER_SECOND, (microseconds % MICROS_PER_SECOND) * 1000)
  }

  /** Armed at clock time `since`, it goes off `at`; `Readable`: it has, and has not been read. */
  datatype TimerFd = Disarmed | Armed(at: int, since: int) | Readable

  function Micros(ts: Timespec): int {
    ts.sec * MICROS_PER_SECOND + ts.nsec / 1000
  }

  /** timerfd_settime with a relative delay and no period: a zero delay disarms. */
  function Settime(clock: int, delay: Timespec): TimerFd {
    if delay == Timespec(0, 0) then Disarmed else Armed(clock + Micros(delay), clock)
  }

  function ResetTimerfd(expiration: int, clock: int): TimerFd {
    Settime(clock, HowMuchTimeFromNow(expiration, clock))
  }

  function Later(a: int, b: int): int {
    if a < b then b else a
  }

  /** Whole microseconds survive the split into seconds and nanoseconds. */
  lemma SplitIsExact(microseconds: nat)
    ensures var sec, nsec := microseconds / MICROS_PER_SECOND, (microseconds % MICROS_PER_SECOND) * 1000;
            && 0 <= nsec < 1_000_000_000 && sec >= 0
            && sec * 1_000_000_000 + nsec == microseconds * 1000
            && sec * MICROS_PER_SECOND + nsec / 1000 == microseconds
  {
    assert microseconds == microseconds / MICROS_PER_SECOND * MICROS_PER_SECOND + microseconds % MICROS_PER_SECOND;
  }

  /**
   The delay is a legal timespec: exactly the time that is left, or 100 microseconds if less is
   left; it always arms, for that instant.
   */
  lemma DelayIsNeverZero(when: int, now: int)
    ensures var ts := HowMuchTimeFromNow(when, now);
            && ts.sec >= 0 && 0 <= ts.nsec < 1_000_000_000
            && ts.sec * 1_000_000_000 + ts.nsec == (if when - now < 100 then 100 else when - now) * 1000
    ensures ResetTimerfd(when, now) == Armed(Later(when, now + 100), now)
  {
    SplitIsExact(if when - now < 100 then 100 else when - now);
  }

  // ---------------------------------------------------------------- the ordered set

  datatype Entry = Entry(when: int, timer: Address)

  predicate Less(a: Entry, b: Entry) {
    a.when < b.when || (a.when == b.when && a.timer < b.timer)
  }

  ghost predicate Sorted(es: seq<Entry>) {
    forall i, j :: 0 <= i < j < |es| ==> Less(es[i], es[j])
  }

  function LowerBound(es: seq<Entry>, e: Entry): (k: nat)
    ensures k <= |es|
    ensures forall i :: 0 <= i < k ==> Less(es[i], e)
    ensures k < |es| ==> !Less(es[k], e)
  {
    if es == [] || !Less(es[0], e) then 0 else 1 + LowerBound(es[1..], e)
  }

  function InsertEntry(es: seq<Entry>, e: Entry): (r: seq<Entry>)
    ensures |r| == |es| + 1
    ensures forall x :: x in r <==> x in es || x == e
  {
    var k := LowerBound(es, e);
    var r := es[..k] + [e] + es[k..];
    assert es == es[..k] + es[k..];
    r
  }

  lemma InsertKeepsSorted(es: seq<Entry>, e: Entry)
    requires Sorted(es) && e !in es
    ensures Sorted(InsertEntry(es, e))
    ensures InsertEntry(es, e)[0] == if es == [] || Less(e, es[0]) then e else es[0]
  {
    var k := LowerBound(es, e);
    assert k < |es| ==> Less(e, es[k]);
    assert forall j :: k <= j < |es| ==> Less(e, es[j]);
  }

  // ---------------------------------------------------------------- the queue as a value

  datatype TimerValue = TimerValue(expiration: int, interval: nat, repeat: bool) {
    function Restarted(now: int): TimerValue {
      this.(expiration := if repeat then now + interval else 0)
    }
  }

  /** One call of a timer callback: the timer was due at `due` and ran in the batch of `now`. */
  datatype Firing = Firing(timer: Address, due: int, now: int)

  datatype Queue = Queue(
    entries: seq<Entry>,
    pool: map<Address, TimerValue>,
    fd: TimerFd,
    log: seq<Firing>)

  const EMPTY: Queue := Queue([], map[], Disarmed, [])

  /** A call of addTimer: `new` returns an address not in use; `clock` is read when arming. */
  datatype NewTimer = NewTimer(timer: Address, value: TimerValue, clock: int)

  /** insert: the entry takes the timer's current expiration as its key. */
  function Insert(q: Queue, timer: Address): Outcome<Queue>
    requires timer in q.pool
  {
    var entry := Entry(q.pool[timer].expiration, timer);
    :- Assert(entry !in q.entries);
    Ok(q.(entries := InsertEntry(q.entries, entry)))
  }

  function AddTimer(q: Queue, n: NewTimer): Outcome<Queue> {
    var earliestChanged := q.entries == [] || n.value.expiration < q.entries[0].when;
    :- Given(n.timer != NULL && n.timer !in q.pool);
    var q1 :- Insert(q.(pool := q.pool[n.timer := n.value]), n.timer);
    Ok(if earliestChanged then q1.(fd := ResetTimerfd(n.value.expiration, n.clock)) else q1)
  }

  function AddTimers(q: Queue, ns: seq<NewTimer>): Outcome<Queue> {
    if ns == [] then Ok(q)
    else
      var q1 :- AddTimers(q, ns[..|ns| - 1]);
      AddTimer(q1, ns[|ns| - 1])
  }

  /** getExpired: the sentry carries a null pointer, so the cut is strictly before `now`. */
  function DueCount(q: Queue, now: int): nat {
    LowerBound(q.entries, Entry(now, NULL))
  }

  /** What the callbacks of a batch do besides running: timer -> the timers it adds. */
  type Script = map<Address, seq<NewTimer>>

  function Added(script: Script, timer: Address): seq<NewTimer> {
    if timer in script then script[timer] else []
  }

  /** The callback of `timer` runs in the batch of `now`. */
  function Fire(q: Queue, timer: Address, now: int): Queue
    requires timer in q.pool
  {
    q.(log := q.log + [Firing(timer, q.pool[timer].expiration, now)])
  }

  /** The first `k` callbacks of a batch, in order. */
  function RunCallbacks(q: Queue, expired: seq<Entry>, script: Script, now: int, k: nat): Outcome<Queue>
    requires k <= |expired|
  {
    if k == 0 then Ok(q)
    else
      var q1 :- RunCallbacks(q, expired, script, now, k - 1);
      var timer := expired[k - 1].timer;
      :- Given(timer in q1.pool);
      AddTimers(Fire(q1, timer, now), Added(script, timer))
  }

  /** reset: restart and re-insert the first `k` expired timers that repeat. */
  function Reinsert(q: Queue, expired: seq<Entry>, now: int, k: nat): Outcome<Queue>
    requires k <= |expired|
  {
    if k == 0 then Ok(q)
    else
      var q1 :- Reinsert(q, expired, now, k - 1);
      var timer := expired[k - 1].timer;
      :- Given(timer in q1.pool);
      if q1.pool[timer].repeat
      then Insert(q1.(pool := q1.pool[timer := q1.pool[timer].Restarted(now)]), timer)
      else Ok(q1)
  }

  /** reset: arm for the earliest timer, if its expiration is a valid timestamp. */
  function Rearm(q: Queue, clock: int): Queue {
    if q.entries != [] && q.entries[0].timer in q.pool && q.pool[q.entries[0].timer].expiration > 0
    then q.(fd := ResetTimerfd(q.pool[q.entries[0].timer].expiration, clock))
    else q
  }

  function ReadTimerfd(fd: TimerFd): TimerFd {
    if fd.Readable? then Disarmed else fd
  }

  function HandleRead(q: Queue, now: int, script: Script, clock: int): Outcome<Queue> {
    var k := DueCount(q, now);
    :- Assert(k == |q.entries| || now < q.entries[k].when);
    var expired := q.entries[..k];
    var q1 := q.(fd := ReadTimerfd(q.fd), entries := q.entries[k..]);
    var q2 :- RunCallbacks(q1, expired, script, now, k);
    var q3 :- Reinsert(q2, expired, now, k);
    Ok(Rearm(q3, clock))
  }

  // ---------------------------------------------------------------- what every step keeps

  function TimersOf(es: seq<Entry>): set<Address> {
    set e <- es :: e.timer
  }

  /** Each entry's key is its timer's current expiration; hence a timer has at most one entry. */
  ghost predicate Keyed(q: Queue) {
    && Sorted(q.entries)
    && (forall e :: e in q.entries ==> e.timer != NULL && e.timer in q.pool && q.pool[e.timer].expiration == e.when)
  }

  /** No callback ran before its due time, and two runs of one timer are more than its interval apart. */
  ghost predicate LogSound(q: Queue) {
    && (forall i :: 0 <= i < |q.log| ==> q.log[i].timer in q.pool && q.log[i].due < q.log[i].now)
    && (forall i, j :: 0 <= i < j < |q.log| && q.log[i].timer == q.log[j].timer ==>
          q.pool[q.log[i].timer].repeat && q.log[j].now > q.log[i].now + q.pool[q.log[i].timer].interval)
  }

  ghost predicate Fired(q: Queue, t: Address) {
    exists i :: 0 <= i < |q.log| && q.log[i].timer == t
  }

  /** If `t` has fired before, it repeats and is not due again before its interval is over. */
  ghost predicate Rested(q: Queue, t: Address)
    requires t in q.pool
  {
    forall i :: 0 <= i < |q.log| && q.log[i].timer == t ==>
      q.pool[t].repeat && q.pool[t].expiration >= q.log[i].now + q.pool[t].interval
  }

  /** A timer no batch is working on is pending, unless it was one-shot and has fired. */
  ghost predicate Settled(q: Queue, t: Address)
    requires t in q.pool
  {
    if t in TimersOf(q.entries) then Rested(q, t) else !q.pool[t].repeat && Fired(q, t)
  }

  /** `due` has been cut off the set and is still to run. */
  ghost predicate Due(q: Queue, t: Address, now: int) {
    t in q.pool && t !in TimersOf(q.entries) && Rested(q, t) && q.pool[t].expiration < now
  }

  /** `ran` has run in the batch of `now` and is still to be put back or dropped. */
  ghost predicate Ran(q: Queue, t: Address, now: int) {
    && t in q.pool && t != NULL && t !in TimersOf(q.entries) && Fired(q, t)
    && forall i :: 0 <= i < |q.log| && q.log[i].timer == t ==> q.log[i].now <= now
  }

  /** Inside handleRead. */
  ghost predicate InBatch(q: Queue, due: set<Address>, ran: set<Address>, now: int) {
    && Keyed(q) && LogSound(q) && due !! ran && NULL !in q.pool
    && (forall t :: t in due ==> Due(q, t, now))
    && (forall t :: t in ran ==> Ran(q, t, now))
    && (forall t :: t in q.pool && t !in due && t !in ran ==> Settled(q, t))
  }

  /** Between calls. */
  ghost predicate Inv(q: Queue) {
    InBatch(q, {}, {}, 0)
  }

  /** Timers are only added; those that exist are not touched. */
  ghost predicate Extends(q: Queue, q': Queue) {
    && q'.log == q.log
    && forall t :: t in q.pool ==> t in q'.pool && q'.pool[t] == q.pool[t]
  }

  /** The uniqueness assert of insert holds for any timer that is not in the set. */
  lemma InsertKeepsKeyed(q: Queue, t: Address)
    requires Keyed(q) && t in q.pool && t != NULL && t !in TimersOf(q.entries)
    ensures Insert(q, t).Ok? && Keyed(Insert(q, t).value)
    ensures TimersOf(Insert(q, t).value.entries) == TimersOf(q.entries) + {t}
    ensures var e, es := Entry(q.pool[t].expiration, t), Insert(q, t).value.entries;
            es[0] == if q.entries == [] || Less(e, q.entries[0]) then e else q.entries[0]
  {
    var e := Entry(q.pool[t].expiration, t);
    assert e in q.entries ==> e.timer in TimersOf(q.entries);
    InsertKeepsSorted(q.entries, e);
    var es := InsertEntry(q.entries, e);
    forall x
      ensures x in TimersOf(es) <==> x in TimersOf(q.entries) + {t}
    {
      if x in TimersOf(q.entries) {
        var y :| y in q.entries && y.timer == x;
        assert y in es;
      }
      assert e in es;
    }
  }

  /** A new entry for a timer that never fired leaves every other timer's standing alone. */
  lemma NewcomerDisturbsNobody(q: Queue, q': Queue, x: Address, due: set<Address>, ran: set<Address>, now: int)
    requires InBatch(q, due, ran, now) && x !in q.pool && x != NULL
    requires Extends(q, q') && q'.pool.Keys == q.pool.Keys + {x} && Keyed(q')
    requires TimersOf(q'.entries) == TimersOf(q.entries) + {x}
    ensures InBatch(q', due, ran, now)
  {
    forall t | t in q.pool
      ensures t in due ==> Due(q', t, now)
      ensures t in ran ==> Ran(q', t, now)
      ensures t !in due && t !in ran ==> Settled(q', t)
    {
    }
  }

  lemma NewTimerIsKeyed(q: Queue, n: NewTimer)
    requires Keyed(q) && n.timer != NULL && n.timer !in q.pool
    ensures AddTimer(q, n).Ok?
    ensures var q' := AddTimer(q, n).value;
            && Keyed(q') && Extends(q, q') && q'.pool.Keys == q.pool.Keys + {n.timer}
            && TimersOf(q'.entries) == TimersOf(q.entries) + {n.timer}
  {
    var p := q.(pool := q.pool[n.timer := n.value]);
    assert Keyed(p);
    InsertKeepsKeyed(p, n.timer);
  }

  /** A callback may add timers between getExpired and reset: the batch is not disturbed. */
  lemma AddTimerKeepsBatch(q: Queue, n: NewTimer, due: set<Address>, ran: set<Address>, now: int)
    requires InBatch(q, due, ran, now)
    ensures AddTimer(q, n) != AssertFailed
    ensures AddTimer(q, n).Ok? ==> InBatch(AddTimer(q, n).value, due, ran, now)
  {
    if n.timer != NULL && n.timer !in q.pool {
      NewTimerIsKeyed(q, n);
      NewcomerDisturbsNobody(q, AddTimer(q, n).value, n.timer, due, ran, now);
    }
  }

  lemma {:induction false} AddTimersKeepsBatch(
    q: Queue, ns: seq<NewTimer>, due: set<Address>, ran: set<Address>, now: int)
    requires InBatch(q, due, ran, now)
    ensures AddTimers(q, ns) != AssertFailed
    ensures AddTimers(q, ns).Ok? ==> InBatch(AddTimers(q, ns).value, due, ran, now)
  {
    if ns == [] {
    } else {
      AddTimersKeepsBatch(q, ns[..|ns| - 1], due, ran, now);
      var r := AddTimers(q, ns[..|ns| - 1]);
      if r.Ok? {
        AddTimerKeepsBatch(r.value, ns[|ns| - 1], due, ran, now);
      }
    }
  }

  lemma FiringIsSound(q: Queue, t: Address, now: int)
    requires LogSound(q) && Due(q, t, now) && t != NULL
    ensures LogSound(Fire(q, t, now)) && Ran(Fire(q, t, now), t, now)
  {
    var q' := Fire(q, t, now);
    assert q'.log[|q.log|].timer == t;
    assert forall i :: 0 <= i < |q.log| ==> q'.log[i] == q.log[i];
  }

  /** Other timers stand as before. */
  lemma FiringDisturbsNobody(q: Queue, t: Address, u: Address, now: int)
    requires t in q.pool && u in q.pool && u != t
    ensures Due(q, u, now) ==> Due(Fire(q, t, now), u, now)
    ensures Ran(q, u, now) ==> Ran(Fire(q, t, now), u, now)
    ensures Settled(q, u) ==> Settled(Fire(q, t, now), u)
  {
    var q' := Fire(q, t, now);
    assert forall i :: 0 <= i < |q.log| ==> q'.log[i] == q.log[i];
    if Fired(q, u) {
      var i :| 0 <= i < |q.log| && q.log[i].timer == u;
      assert q'.log[i].timer == u;
    }
  }

  /** Running one due timer: its callback is on time, and late enough after its previous run. */
  lemma FiringKeepsBatch(q: Queue, t: Address, due: set<Address>, ran: set<Address>, now: int)
    requires InBatch(q, due, ran, now) && t in due
    ensures InBatch(Fire(q, t, now), due - {t}, ran + {t}, now)
  {
    assert Due(q, t, now);
    FiringIsSound(q, t, now);
    forall u | u in q.pool && u != t {
      FiringDisturbsNobody(q, t, u, now);
    }
  }

  /** `t` with its expiration renewed; its entry is still to be put back. */
  function RestartIn(q: Queue, t: Address, now: int): Queue
    requires t in q.pool
  {
    q.(pool := q.pool[t := q.pool[t].Restarted(now)])
  }

  lemma RestartKeepsKeyed(q: Queue, t: Address, now: int)
    requires Keyed(q) && t in q.pool && t !in TimersOf(q.entries)
    ensures Keyed(RestartIn(q, t, now))
  {
    forall e | e in q.entries
      ensures e.timer != t
    {
      assert e.timer in TimersOf(q.entries);
    }
  }

  /** The entry of `t` appears; every other timer stands as before. */
  lemma ReinsertDisturbsNobody(q: Queue, q': Queue, t: Address, u: Address, now: int)
    requires t in q.pool && u in q.pool && u != t && u in q'.pool
    requires q'.pool[u] == q.pool[u] && q'.log == q.log && TimersOf(q'.entries) == TimersOf(q.entries) + {t}
    ensures Ran(q, u, now) ==> Ran(q', u, now)
    ensures Settled(q, u) ==> Settled(q', u)
  {
  }

  lemma RestartedIsSettled(q: Queue, q': Queue, t: Address, now: int)
    requires Ran(q, t, now) && t in q'.pool && q'.log == q.log && t in TimersOf(q'.entries)
    requires q.pool[t].repeat && q'.pool[t] == q.pool[t].Restarted(now)
    ensures Settled(q', t)
  {
  }

  lemma ReinsertRepeating(q: Queue, t: Address, ran: set<Address>, now: int)
    requires InBatch(q, {}, ran, now) && t in ran && q.pool[t].repeat
    ensures var r := Insert(RestartIn(q, t, now), t);
            r.Ok? && InBatch(r.value, {}, ran - {t}, now) && r.value.log == q.log
  {
    assert Ran(q, t, now);
    RestartKeepsKeyed(q, t, now);
    InsertKeepsKeyed(RestartIn(q, t, now), t);
    var q' := Insert(RestartIn(q, t, now), t).value;
    RestartedIsSettled(q, q', t, now);
    forall u | u in q.pool && u != t {
      ReinsertDisturbsNobody(q, q', t, u, now);
    }
  }

  /** Restarting and re-inserting a repeating timer, or dropping a one-shot one. */
  lemma ReinsertKeepsBatch(q: Queue, t: Address, ran: set<Address>, now: int)
    requires InBatch(q, {}, ran, now) && t in ran
    ensures !q.pool[t].repeat ==> InBatch(q, {}, ran - {t}, now)
    ensures q.pool[t].repeat ==>
              var r := Insert(RestartIn(q, t, now), t);
              r.Ok? && InBatch(r.value, {}, ran - {t}, now) && r.value.log == q.log
  {
    if q.pool[t].repeat {
      ReinsertRepeating(q, t, ran, now);
    } else {
      assert Ran(q, t, now);
    }
  }

  // ---------------------------------------------------------------- handleRead as a whole

  /** The entries due strictly before `now`. */
  function DueEntries(q: Queue, now: int): seq<Entry> {
    q.entries[..DueCount(q, now)]
  }

  /** The state in which the callbacks of the batch of `now` start. */
  function CutOff(q: Queue, now: int): Queue {
    q.(fd := ReadTimerfd(q.fd), entries := q.entries[DueCount(q, now)..])
  }

  lemma SplitKeepsMembers(es: seq<Entry>, k: nat)
    requires k <= |es|
    ensures forall e :: e in es <==> e in es[..k] || e in es[k..]
  {
    assert es == es[..k] + es[k..];
  }

  lemma DueEntriesAreExact(q: Queue, now: int)
    requires Keyed(q)
    ensures forall e :: e in DueEntries(q, now) ==> e in q.entries && e.when < now
    ensures forall e :: e in CutOff(q, now).entries ==> e in q.entries && e.when >= now
    ensures forall e :: e in q.entries ==> e in DueEntries(q, now) || e in CutOff(q, now).entries
  {
    var k := DueCount(q, now);
    SplitKeepsMembers(q.entries, k);
    assert forall i :: k <= i < |q.entries| ==> q.entries[i].when >= q.entries[k].when >= now;
  }

  ghost predicate DistinctTimers(es: seq<Entry>) {
    forall i, j :: 0 <= i < j < |es| ==> es[i].timer != es[j].timer
  }

  lemma DueTimersAreDistinct(q: Queue, now: int)
    requires Keyed(q)
    ensures DistinctTimers(DueEntries(q, now))
    ensures forall e :: e in DueEntries(q, now) ==> e.timer in q.pool && q.pool[e.timer].expiration == e.when
  {
    forall i, j | 0 <= i < j < |q.entries|
      ensures q.entries[i].timer != q.entries[j].timer
    {
      assert q.entries[i] in q.entries && q.entries[j] in q.entries;
    }
  }

  lemma CutKeepsBatch(q: Queue, now: int)
    requires Inv(q)
    ensures InBatch(CutOff(q, now), TimersOf(DueEntries(q, now)), {}, now)
  {
    var q1, expired := CutOff(q, now), DueEntries(q, now);
    DueEntriesAreExact(q, now);
    forall t | t in q.pool
      ensures t in TimersOf(expired) ==> Due(q1, t, now)
      ensures t !in TimersOf(expired) ==> Settled(q1, t)
    {
      assert Settled(q, t);
      assert t in TimersOf(q.entries) <==> t in TimersOf(expired) || t in TimersOf(q1.entries);
    }
  }

  /** What the log gains from the first `k` callbacks: each once, in the order of the set. */
  function Firings(expired: seq<Entry>, now: int): seq<Firing> {
    seq(|expired|, i requires 0 <= i < |expired| => Firing(expired[i].timer, expired[i].when, now))
  }

  lemma TimersOfSplit(es: seq<Entry>, k: nat)
    requires k < |es| && DistinctTimers(es)
    ensures TimersOf(es[k..]) - {es[k].timer} == TimersOf(es[k + 1..])
    ensures TimersOf(es[..k]) + {es[k].timer} == TimersOf(es[..k + 1])
    ensures es[k].timer in TimersOf(es[k..])
  {
    assert es[k..] == [es[k]] + es[k + 1..];
    assert es[..k + 1] == es[..k] + [es[k]];
    assert forall e :: e in es[k + 1..] ==> e.timer != es[k].timer;
    assert es[k] in es[k..] && es[k] in es[..k + 1];
  }

  /** One callback of the batch, with the timers it adds. */
  lemma CallbackKeepsBatch(q: Queue, t: Address, ns: seq<NewTimer>, due: set<Address>, ran: set<Address>, now: int)
    requires InBatch(q, due, ran, now) && t in due
    ensures var r := AddTimers(Fire(q, t, now), ns);
            r != AssertFailed && (r.Ok? ==> InBatch(r.value, due - {t}, ran + {t}, now))
  {
    FiringKeepsBatch(q, t, due, ran, now);
    AddTimersKeepsBatch(Fire(q, t, now), ns, due - {t}, ran + {t}, now);
  }

  lemma NextCallbackKeepsBatch(q: Queue, expired: seq<Entry>, script: Script, now: int, k: nat)
    requires k < |expired| && DistinctTimers(expired)
    requires InBatch(q, TimersOf(expired[k..]), TimersOf(expired[..k]), now)
    ensures expired[k].timer in q.pool
    ensures var r := AddTimers(Fire(q, expired[k].timer, now), Added(script, expired[k].timer));
            && r != AssertFailed
            && (r.Ok? ==> InBatch(r.value, TimersOf(expired[k + 1..]), TimersOf(expired[..k + 1]), now))
  {
    var t := expired[k].timer;
    TimersOfSplit(expired, k);
    assert Due(q, t, now);
    CallbackKeepsBatch(q, t, Added(script, t), TimersOf(expired[k..]), TimersOf(expired[..k]), now);
  }

  lemma {:induction false} CallbacksKeepBatch(q: Queue, expired: seq<Entry>, script: Script, now: int, k: nat)
    requires k <= |expired| && DistinctTimers(expired)
    requires InBatch(q, TimersOf(expired), {}, now)
    ensures var r := RunCallbacks(q, expired, script, now, k);
            r != AssertFailed && (r.Ok? ==> InBatch(r.value, TimersOf(expired[k..]), TimersOf(expired[..k]), now))
  {
    if k == 0 {
      assert expired[0..] == expired && TimersOf(expired[..0]) == {};
    } else {
      CallbacksKeepBatch(q, expired, script, now, k - 1);
      var r := RunCallbacks(q, expired, script, now, k - 1);
      if r.Ok? {
        NextCallbackKeepsBatch(r.value, expired, script, now, k - 1);
      }
    }
  }

  lemma {:induction false} AddTimersExtends(q: Queue, ns: seq<NewTimer>)
    ensures AddTimers(q, ns).Ok? ==> Extends(q, AddTimers(q, ns).value)
  {
    if ns == [] {
    } else {
      AddTimersExtends(q, ns[..|ns| - 1]);
    }
  }

  lemma {:induction false} CallbacksRunInOrder(q: Queue, expired: seq<Entry>, script: Script, now: int, k: nat)
    requires k <= |expired|
    requires forall i :: 0 <= i < |expired| ==>
               expired[i].timer in q.pool && q.pool[expired[i].timer].expiration == expired[i].when
    ensures var r := RunCallbacks(q, expired, script, now, k);
            r.Ok? ==> Extends(q.(log := q.log + Firings(expired, now)[..k]), r.value)
  {
    if k == 0 {
    } else {
      CallbacksRunInOrder(q, expired, script, now, k - 1);
      var r := RunCallbacks(q, expired, script, now, k - 1);
      if r.Ok? {
        var t := expired[k - 1].timer;
        AddTimersExtends(Fire(r.value, t, now), Added(script, t));
        assert Firings(expired, now)[..k] == Firings(expired, now)[..k - 1] + [Firing(t, expired[k - 1].when, now)];
      }
    }
  }

  lemma NextReinsertKeepsBatch(q: Queue, expired: seq<Entry>, now: int, k: nat)
    requires k < |expired| && DistinctTimers(expired)
    requires InBatch(q, {}, TimersOf(expired[k..]), now)
    ensures expired[k].timer in q.pool
    ensures var t := expired[k].timer;
            var r := if q.pool[t].repeat then Insert(RestartIn(q, t, now), t) else Ok(q);
            r.Ok? && InBatch(r.value, {}, TimersOf(expired[k + 1..]), now) && r.value.log == q.log
  {
    TimersOfSplit(expired, k);
    assert Ran(q, expired[k].timer, now);
    ReinsertKeepsBatch(q, expired[k].timer, TimersOf(expired[k..]), now);
  }

  lemma {:induction false} ReinsertionsKeepBatch(q: Queue, expired: seq<Entry>, now: int, k: nat)
    requires k <= |expired| && DistinctTimers(expired)
    requires InBatch(q, {}, TimersOf(expired), now)
    ensures var r := Reinsert(q, expired, now, k);
            r.Ok? && InBatch(r.value, {}, TimersOf(expired[k..]), now) && r.value.log == q.log
  {
    if k == 0 {
      assert expired[0..] == expired;
    } else {
      ReinsertionsKeepBatch(q, expired, now, k - 1);
      NextReinsertKeepsBatch(Reinsert(q, expired, now, k - 1).value, expired, now, k - 1);
    }
  }

  /** The assert of getExpired fails exactly when a timer is due exactly at `now`. */
  lemma CutAssertExactly(q: Queue, now: int)
    requires Keyed(q)
    ensures var k := DueCount(q, now);
            (k == |q.entries| || now < q.entries[k].when) <==> forall e :: e in q.entries ==> e.when != now
  {
    var k := DueCount(q, now);
    assert forall i :: k <= i < |q.entries| ==> q.entries[i].when >= q.entries[k].when >= now;
    if k < |q.entries| {
      assert q.entries[k] in q.entries;
    }
  }

  /**
   handleRead aborts exactly when a timer is due exactly at `now`.  Otherwise it runs each
   timer due before `now` once, in due order, and no other; no insert assert fails, whatever
   timers the callbacks add; and the invariant holds again.
   */
  lemma HandleReadIsSafe(q: Queue, now: int, script: Script, clock: int)
    requires Inv(q)
    ensures HandleRead(q, now, script, clock) == AssertFailed <==> exists e :: e in q.entries && e.when == now
    ensures HandleRead(q, now, script, clock).Ok? ==>
              var q' := HandleRead(q, now, script, clock).value;
              Inv(q') && q'.log == q.log + Firings(DueEntries(q, now), now)
  {
    CutAssertExactly(q, now);
    if forall e :: e in q.entries ==> e.when != now {
      BatchIsSafe(q, now, script, clock);
    }
  }

  lemma BatchIsSafe(q: Queue, now: int, script: Script, clock: int)
    requires Inv(q)
    ensures var k, expired := DueCount(q, now), DueEntries(q, now);
            var r := RunCallbacks(CutOff(q, now), expired, script, now, k);
            && r != AssertFailed
            && (r.Ok? ==>
                  var s := Reinsert(r.value, expired, now, k);
                  && s.Ok? && Keyed(s.value) && Inv(Rearm(s.value, clock))
                  && Rearm(s.value, clock).log == q.log + Firings(expired, now))
  {
    var k, expired, q1 := DueCount(q, now), DueEntries(q, now), CutOff(q, now);
    CutKeepsBatch(q, now);
    DueTimersAreDistinct(q, now);
    CallbacksKeepBatch(q1, expired, script, now, k);
    CallbacksRunInOrder(q1, expired, script, now, k);
    var r := RunCallbacks(q1, expired, script, now, k);
    if r.Ok? {
      assert expired[..k] == expired && TimersOf(expired[k..]) == {};
      assert Firings(expired, now)[..k] == Firings(expired, now);
      ReinsertionsKeepBatch(r.value, expired, now, k);
      BatchEnds(Reinsert(r.value, expired, now, k).value, now, clock);
    }
  }

  lemma BatchEnds(q: Queue, now: int, clock: int)
    requires InBatch(q, {}, {}, now)
    ensures Inv(Rearm(q, clock)) && Rearm(q, clock).log == q.log
  {
    forall t | t in q.pool
      ensures Settled(Rearm(q, clock), t)
    {
      assert Settled(q, t);
    }
  }

  // ---------------------------------------------------------------- whole runs

  datatype Step =
    | Add(n: NewTimer)                             // addTimer, called in the loop thread
    | Alarm                                        // the kernel: the armed delay is over
    | Read(now: int, script: Script, clock: int)   // handleRead

  function Perform(q: Queue, step: Step): Outcome<Queue> {
    match step
    case Add(n) => AddTimer(q, n)
    case Alarm => if q.fd.Armed? then Ok(q.(fd := Readable)) else NotEnabled
    case Read(now, script, clock) => HandleRead(q, now, script, clock)
  }

  ghost predicate IsRun(qs: seq<Queue>, steps: seq<Step>) {
    && |qs| == |steps| + 1
    && qs[0] == EMPTY
    && forall i :: 0 <= i < |steps| ==> Perform(qs[i], steps[i]) == Ok(qs[i + 1])
  }

  lemma StepKeepsInv(q: Queue, step: Step)
    requires Inv(q)
    ensures Perform(q, step) == AssertFailed <==> step.Read? && exists e :: e in q.entries && e.when == step.now
    ensures Perform(q, step).Ok? ==> Inv(Perform(q, step).value)
  {
    match step
    case Add(n) => AddTimerKeepsBatch(q, n, {}, {}, 0);
    case Alarm =>
      forall t | t in q.pool
        ensures Settled(q.(fd := Readable), t)
      {
        assert Settled(q, t);
      }
    case Read(now, script, clock) => HandleReadIsSafe(q, now, script, clock);
  }

  lemma {:induction false} RunKeepsInv(qs: seq<Queue>, steps: seq<Step>)
    requires IsRun(qs, steps)
    ensures Inv(qs[|steps|])
  {
    if steps == [] {
    } else {
      var k := |steps| - 1;
      assert IsRun(qs[..k + 1], steps[..k]);
      RunKeepsInv(qs[..k + 1], steps[..k]);
      StepKeepsInv(qs[k], steps[k]);
    }
  }

  /**
   Over any run, re-entrant additions included: no callback runs before its due time, a
   one-shot timer runs at most once, a repeating one never again within its interval, and no
   timer is lost; the only assert that can fail is the one about a timer due exactly now.
   */
  lemma TimersRunSafely(qs: seq<Queue>, steps: seq<Step>, next: Step)
    requires IsRun(qs, steps)
    ensures var q := qs[|steps|];
            && (forall i :: 0 <= i < |q.log| ==> q.log[i].timer in q.pool && q.log[i].due < q.log[i].now)
            && (forall i, j :: 0 <= i < j < |q.log| && q.log[i].timer == q.log[j].timer ==>
                  var t := q.pool[q.log[i].timer]; t.repeat && q.log[j].now - q.log[i].now > t.interval)
            && (forall t :: t in q.pool ==>
                  || (exists e :: e in q.entries && e == Entry(q.pool[t].expiration, t))
                  || (!q.pool[t].repeat && Fired(q, t)))
            && (Perform(q, next) == AssertFailed <==> next.Read? && exists e :: e in q.entries && e.when == next.now)
  {
    var q := qs[|steps|];
    RunKeepsInv(qs, steps);
    StepKeepsInv(q, next);
    forall t | t in q.pool
      ensures (exists e :: e in q.entries && e == Entry(q.pool[t].expiration, t)) || (!q.pool[t].repeat && Fired(q, t))
    {
      assert Settled(q, t);
      if t in TimersOf(q.entries) {
        var e :| e in q.entries && e.timer == t;
        assert e == Entry(q.pool[t].expiration, t);
      }
    }
  }

  // ---------------------------------------------------------------- the alarm

  /** It goes off at `when`, or 100 microseconds after it was set if that is later. */
  predicate SetFor(fd: TimerFd, when: int) {
    fd.Armed? && fd.at == Later(when, fd.since + 100)
  }

  /** The timerfd is armed for the earliest timer, or has gone off and waits to be read. */
  predicate ArmedForEarliest(q: Queue) {
    q.entries == [] || SetFor(q.fd, q.entries[0].when) || q.fd.Readable?
  }

  /** Inside handleRead: whatever final re-arming will skip is armed already. */
  predicate ArmedIfNotPositive(q: Queue) {
    q.entries == [] || q.entries[0].when > 0 || SetFor(q.fd, q.entries[0].when)
  }

  lemma InsertKeepsMinimum(q: Queue, t: Address)
    requires Sorted(q.entries) && t in q.pool && Insert(q, t).Ok?
    ensures var es, when := Insert(q, t).value.entries, q.pool[t].expiration;
            es[0].when == if q.entries == [] || when < q.entries[0].when then when else q.entries[0].when
    ensures Sorted(Insert(q, t).value.entries)
  {
    InsertKeepsSorted(q.entries, Entry(q.pool[t].expiration, t));
  }

  lemma AddTimerArms(q: Queue, n: NewTimer)
    requires Sorted(q.entries) && AddTimer(q, n).Ok?
    ensures Sorted(AddTimer(q, n).value.entries)
    ensures ArmedForEarliest(q) ==> ArmedForEarliest(AddTimer(q, n).value)
    ensures ArmedIfNotPositive(q) ==> ArmedIfNotPositive(AddTimer(q, n).value)
  {
    InsertKeepsMinimum(q.(pool := q.pool[n.timer := n.value]), n.timer);
    DelayIsNeverZero(n.value.expiration, n.clock);
  }

  lemma {:induction false} AddTimersArms(q: Queue, ns: seq<NewTimer>)
    requires Sorted(q.entries) && ArmedIfNotPositive(q) && AddTimers(q, ns).Ok?
    ensures var q' := AddTimers(q, ns).value; Sorted(q'.entries) && ArmedIfNotPositive(q')
  {
    if ns == [] {
    } else {
      AddTimersArms(q, ns[..|ns| - 1]);
      AddTimerArms(AddTimers(q, ns[..|ns| - 1]).value, ns[|ns| - 1]);
    }
  }

  lemma {:induction false} CallbacksArm(q: Queue, expired: seq<Entry>, script: Script, now: int, k: nat)
    requires k <= |expired| && Sorted(q.entries) && ArmedIfNotPositive(q)
    requires RunCallbacks(q, expired, script, now, k).Ok?
    ensures var q' := RunCallbacks(q, expired, script, now, k).value; Sorted(q'.entries) && ArmedIfNotPositive(q')
  {
    if k == 0 {
    } else {
      CallbacksArm(q, expired, script, now, k - 1);
      var q1 := RunCallbacks(q, expired, script, now, k - 1).value;
      var timer := expired[k - 1].timer;
      AddTimersArms(Fire(q1, timer, now), Added(script, timer));
    }
  }

  lemma {:induction false} ReinsertionsArm(q: Queue, expired: seq<Entry>, now: int, k: nat)
    requires k <= |expired| && now > 0 && Sorted(q.entries) && ArmedIfNotPositive(q)
    requires Reinsert(q, expired, now, k).Ok?
    ensures var q' := Reinsert(q, expired, now, k).value; Sorted(q'.entries) && ArmedIfNotPositive(q')
  {
    if k == 0 {
    } else {
      ReinsertionsArm(q, expired, now, k - 1);
      var q1 := Reinsert(q, expired, now, k - 1).value;
      var timer := expired[k - 1].timer;
      if q1.pool[timer].repeat {
        InsertKeepsMinimum(q1.(pool := q1.pool[timer := q1.pool[timer].Restarted(now)]), timer);
      }
    }
  }

  lemma HandleReadArms(q: Queue, now: int, script: Script, clock: int)
    requires Inv(q) && now > 0 && HandleRead(q, now, script, clock).Ok?
    ensures ArmedForEarliest(HandleRead(q, now, script, clock).value)
  {
    var k, expired, q1 := DueCount(q, now), DueEntries(q, now), CutOff(q, now);
    HandleReadParts(q, now, script, clock);
    CallbacksArm(q1, expired, script, now, k);
    var q2 := RunCallbacks(q1, expired, script, now, k).value;
    ReinsertionsArm(q2, expired, now, k);
    var q3 := Reinsert(q2, expired, now, k).value;
    RearmArms(q3, clock);
  }

  lemma RearmArms(q: Queue, clock: int)
    requires Keyed(q) && ArmedIfNotPositive(q)
    ensures ArmedForEarliest(Rearm(q, clock))
  {
    if q.entries != [] {
      assert q.entries[0] in q.entries;
      DelayIsNeverZero(q.entries[0].when, clock);
    }
  }

  /**
   With a clock that shows valid timestamps: whenever no method of the queue is running and
   a timer is pending, the timerfd is armed for the earliest one or is already readable.
   */
  lemma {:induction false} AlarmIsAlwaysSet(qs: seq<Queue>, steps: seq<Step>)
    requires IsRun(qs, steps)
    requires forall i :: 0 <= i < |steps| && steps[i].Read? ==> steps[i].now > 0
    ensures ArmedForEarliest(qs[|steps|])
  {
    if steps == [] {
    } else {
      var k := |steps| - 1;
      assert IsRun(qs[..k + 1], steps[..k]);
      AlarmIsAlwaysSet(qs[..k + 1], steps[..k]);
      RunKeepsInv(qs[..k + 1], steps[..k]);
      assert Perform(qs[k], steps[k]) == Ok(qs[k + 1]);
      match steps[k]
      case Add(n) => AddTimerArms(qs[k], n);
      case Alarm =>
      case Read(now, script, clock) => HandleReadArms(qs[k], now, script, clock);
    }
  }

  /** The clock never shows a time before `earliest`. */
  predicate ReadsFrom(steps: seq<Step>, earliest: int) {
    forall i :: 0 <= i < |steps| && steps[i].Read? ==> steps[i].now >= earliest
  }

  /** A timer with a tiny interval: it repeats, but `addTime` adds nothing to its expiration. */
  function Tick(when: int): TimerValue {
    TimerValue(when, 0, true)
  }

  /** The only pending timer of a queue is number 1; the timerfd is in state `fd`. */
  function Single(value: TimerValue, fd: TimerFd, log: seq<Firing>): Queue {
    Queue([Entry(value.expiration, 1)], map[1 := value], fd, log)
  }

  lemma Extend(qs: seq<Queue>, steps: seq<Step>, step: Step, q: Queue) returns (qs': seq<Queue>, steps': seq<Step>)
    requires IsRun(qs, steps) && Perform(qs[|steps|], step) == Ok(q)
    ensures IsRun(qs', steps') && qs'[|steps'|] == q && steps' == steps + [step]
  {
    qs', steps' := qs + [q], steps + [step];
  }

  lemma InsertSingle(value: TimerValue, fd: TimerFd, log: seq<Firing>)
    ensures Insert(Queue([], map[1 := value], fd, log), 1) == Ok(Single(value, fd, log))
  {
    assert InsertEntry([], Entry(value.expiration, 1)) == [Entry(value.expiration, 1)];
  }

  /** The first timer of a queue always sets the alarm. */
  lemma AddFirst(q: Queue, n: NewTimer)
    requires q.entries == [] && n.timer != NULL && n.timer !in q.pool
    ensures var r := Insert(q.(pool := q.pool[n.timer := n.value]), n.timer);
            r.Ok? && AddTimer(q, n) == Ok(r.value.(fd := Armed(Later(n.value.expiration, n.clock + 100), n.clock)))
  {
    DelayIsNeverZero(n.value.expiration, n.clock);
  }

  lemma AddSingle(value: TimerValue, clock: int)
    ensures AddTimer(EMPTY, NewTimer(1, value, clock))
         == Ok(Single(value, Armed(Later(value.expiration, clock + 100), clock), []))
  {
    AddFirst(EMPTY, NewTimer(1, value, clock));
    InsertSingle(value, Disarmed, []);
    assert EMPTY.pool[1 := value] == map[1 := value];
  }

  /** One timer is added to an empty queue, and its alarm goes off. */
  lemma SingleGoesOff(value: TimerValue, clock: int) returns (qs: seq<Queue>, steps: seq<Step>)
    ensures IsRun(qs, steps) && steps == [Add(NewTimer(1, value, clock)), Alarm]
    ensures qs[|steps|] == Single(value, Readable, [])
  {
    AddSingle(value, clock);
    qs, steps := [EMPTY], [];
    var armed := Armed(Later(value.expiration, clock + 100), clock);
    qs, steps := Extend(qs, steps, Add(NewTimer(1, value, clock)), Single(value, armed, []));
    qs, steps := Extend(qs, steps, Alarm, Single(value, Readable, []));
  }

  lemma ReinsertOne(q: Queue, expired: seq<Entry>, now: int)
    requires |expired| == 1 && expired[0].timer in q.pool && q.pool[expired[0].timer].repeat
    ensures var timer := expired[0].timer;
            Reinsert(q, expired, now, 1) == Insert(q.(pool := q.pool[timer := q.pool[timer].Restarted(now)]), timer)
  {
    assert Reinsert(q, expired, now, 0) == Ok(q);
  }

  /** `reset` re-inserts the tick at `now`; not being positive, that is not `valid`. */
  lemma TickIsNotRearmed(now: int, clock: int)
    requires now <= 0
    ensures HandleRead(Single(Tick(now - 1), Readable, []), now, map[], clock)
         == Ok(Single(Tick(now), Disarmed, [Firing(1, now - 1, now)]))
  {
    var q, q' := Single(Tick(now - 1), Readable, []), Single(Tick(now), Disarmed, [Firing(1, now - 1, now)]);
    var cut := Queue([], q.pool, Disarmed, []);
    var ran := Fire(cut, 1, now);
    assert DueCount(q, now) == 1 && q.entries[..1] == q.entries && q.entries[1..] == [];
    assert RunCallbacks(cut, q.entries, map[], now, 0) == Ok(cut);
    assert AddTimers(ran, Added(map[], 1)) == Ok(ran);
    assert RunCallbacks(cut, q.entries, map[], now, 1) == Ok(ran);
    InsertSingle(Tick(now), Disarmed, q'.log);
    var again := ran.(pool := q'.pool);
    assert ran.pool[1 := ran.pool[1].Restarted(now)] == again.pool;
    assert again.entries == [] && again.log == q'.log;
    assert Insert(again, 1) == Ok(q');
    ReinsertOne(ran, q.entries, now);
  }

  /** One expiry handled at `now <= 0` leaves a pending timer and a disarmed timerfd. */
  lemma AlarmNeedsValidTimestamps(now: int)
    requires now <= 0
    ensures exists qs: seq<Queue> ::
              && IsRun(qs, [Add(NewTimer(1, Tick(now - 1), now)), Alarm, Read(now, map[], now)])
              && qs[3].entries != [] && qs[3].fd.Disarmed?
  {
    var qs, steps := SingleGoesOff(Tick(now - 1), now);
    TickIsNotRearmed(now, now);
    var last := Single(Tick(now), Disarmed, [Firing(1, now - 1, now)]);
    qs, steps := Extend(qs, steps, Read(now, map[], now), last);
    assert steps == [Add(NewTimer(1, Tick(now - 1), now)), Alarm, Read(now, map[], now)];
  }

  /** The alarm is set at every point of every run exactly if the clock only shows valid timestamps. */
  lemma AlarmIsAlwaysSetExactly(earliest: int)
    ensures (forall qs: seq<Queue>, steps: seq<Step> :: IsRun(qs, steps) && ReadsFrom(steps, earliest) ==>
               ArmedForEarliest(qs[|steps|]))
            <==> earliest > 0
  {
    if earliest > 0 {
      forall qs: seq<Queue>, steps: seq<Step> | IsRun(qs, steps) && ReadsFrom(steps, earliest)
        ensures ArmedForEarliest(qs[|steps|])
      {
        AlarmIsAlwaysSet(qs, steps);
      }
    } else {
      AlarmNeedsValidTimestamps(earliest);
      var steps := [Add(NewTimer(1, Tick(earliest - 1), earliest)), Alarm, Read(earliest, map[], earliest)];
      var qs: seq<Queue> :| IsRun(qs, steps) && qs[3].entries != [] && qs[3].fd.Disarmed?;
      assert ReadsFrom(steps, earliest) && !ArmedForEarliest(qs[|steps|]);
    }
  }

  /** handleRead of a sound queue at `now` leaves it armed, whatever callbacks and clock do. */
  ghost predicate ReadArms(now: int) {
    forall q: Queue, script: Script, clock: int :: Inv(q) && HandleRead(q, now, script, clock).Ok? ==>
      ArmedForEarliest(HandleRead(q, now, script, clock).value)
  }

  /** One call of handleRead re-arms for certain exactly if it is made at a valid timestamp. */
  lemma HandleReadArmsExactly(now: int)
    ensures ReadArms(now) <==> now > 0
  {
    if now > 0 {
      forall q: Queue, script: Script, clock: int | Inv(q) && HandleRead(q, now, script, clock).Ok?
        ensures ArmedForEarliest(HandleRead(q, now, script, clock).value)
      {
        HandleReadArms(q, now, script, clock);
      }
    } else {
      var qs, steps := SingleGoesOff(Tick(now - 1), now);
      RunKeepsInv(qs, steps);
      TickIsNotRearmed(now, now);
      var q, script: Script := Single(Tick(now - 1), Readable, []), map[];
      assert Inv(q) && HandleRead(q, now, script, now).Ok?;
    }
  }

  /** The assert of getExpired is within reach: a clock that shows exactly the due time meets it. */
  lemma DueNowAborts(value: TimerValue, clock: int)
    ensures exists qs: seq<Queue>, steps: seq<Step> ::
              IsRun(qs, steps) && Perform(qs[|steps|], Read(value.expiration, map[], clock)) == AssertFailed
  {
    var qs, steps := SingleGoesOff(value, clock);
    var q := qs[|steps|];
    RunKeepsInv(qs, steps);
    CutAssertExactly(q, value.expiration);
    assert q.entries[0] in q.entries;
  }

  // ---------------------------------------------------------------- the classes

  class Timer {
    const address: Address
    const interval: nat
    const repeat: bool
    var expiration: int

    constructor (address: Address, value: TimerValue)
      ensures this.address == address && Value() == value
    {
      this.address := address;
      interval, repeat, expiration := value.interval, value.repeat, value.expiration;
    }

    function Value(): TimerValue
      reads this
    {
      TimerValue(expiration, interval, repeat)
    }

    method Restart(now: int)
      modifies this
      ensures Value() == old(Value()).Restarted(now)
      ensures expiration == if repeat then now + interval else 0
    {
      if repeat {
        expiration := now + interval;
      } else {
        expiration := 0;
      }
    }
  }

  /** Enough callbacks succeeded for the whole batch, so enough did for each part of it. */
  lemma CallbacksPrefix(q: Queue, expired: seq<Entry>, script: Script, now: int, j: nat, k: nat)
    requires j <= k <= |expired| && RunCallbacks(q, expired, script, now, k).Ok?
    ensures RunCallbacks(q, expired, script, now, j).Ok?
    decreases k - j
  {
    if j < k {
      CallbacksPrefix(q, expired, script, now, j + 1, k);
    }
  }

  /** The next callback of a batch that succeeds has its timer, and succeeds. */
  lemma NextCallback(start: Queue, q: Queue, expired: seq<Entry>, script: Script, now: int, i: nat)
    requires i < |expired| && RunCallbacks(start, expired, script, now, i) == Ok(q)
    requires RunCallbacks(start, expired, script, now, |expired|).Ok?
    ensures expired[i].timer in q.pool
    ensures var r := AddTimers(Fire(q, expired[i].timer, now), Added(script, expired[i].timer));
            r.Ok? && RunCallbacks(start, expired, script, now, i + 1) == r
  {
    CallbacksPrefix(start, expired, script, now, i + 1, |expired|);
  }

  lemma ReinsertPrefix(q: Queue, expired: seq<Entry>, now: int, j: nat, k: nat)
    requires j <= k <= |expired| && Reinsert(q, expired, now, k).Ok?
    ensures Reinsert(q, expired, now, j).Ok?
    decreases k - j
  {
    if j < k {
      ReinsertPrefix(q, expired, now, j + 1, k);
    }
  }

  lemma NextReinsertion(start: Queue, q: Queue, expired: seq<Entry>, now: int, i: nat)
    requires i < |expired| && Reinsert(start, expired, now, i) == Ok(q)
    requires Reinsert(start, expired, now, |expired|).Ok?
    ensures var timer := expired[i].timer;
            && timer in q.pool
            && var r := if q.pool[timer].repeat
                        then Insert(q.(pool := q.pool[timer := q.pool[timer].Restarted(now)]), timer) else Ok(q);
               r.Ok? && Reinsert(start, expired, now, i + 1) == r
  {
    ReinsertPrefix(start, expired, now, i + 1, |expired|);
  }

  /** A handleRead that succeeds, taken apart as the methods below put it together. */
  lemma HandleReadParts(q: Queue, now: int, script: Script, clock: int)
    requires Inv(q) && HandleRead(q, now, script, clock).Ok?
    ensures var k := DueCount(q, now); k == |q.entries| || now < q.entries[k].when
    ensures var expired := DueEntries(q, now);
            RunCallbacks(CutOff(q, now), expired, script, now, |expired|).Ok?
    ensures var expired := DueEntries(q, now);
            var r := RunCallbacks(CutOff(q, now), expired, script, now, |expired|).value;
            var s := Reinsert(r, expired, now, |expired|);
            && s.Ok? && Keyed(s.value) && HandleRead(q, now, script, clock) == Ok(Rearm(s.value, clock))
            && Rearm(s.value, clock).log == q.log + Firings(expired, now)
  {
    HandleReadIsSafe(q, now, script, clock);
    BatchIsSafe(q, now, script, clock);
  }

  lemma AddTimersPrefix(q: Queue, ns: seq<NewTimer>, j: nat)
    requires j <= |ns| && AddTimers(q, ns).Ok?
    ensures AddTimers(q, ns[..j]).Ok?
    decreases |ns|
  {
    if j < |ns| {
      assert ns[..|ns| - 1][..j] == ns[..j];
      AddTimersPrefix(q, ns[..|ns| - 1], j);
    } else {
      assert ns[..j] == ns;
    }
  }

  class TimerQueue {
    var timers: seq<Entry>
    var timerfd: TimerFd
    /** The timers that shared pointers keep alive, by address. */
    var heap: map<Address, Timer>
    ghost var log: seq<Firing>

    ghost predicate Valid()
      reads this
    {
      forall a :: a in heap ==> heap[a].address == a
    }

    ghost function View(): Queue
      reads this, heap.Values
    {
      Queue(timers, map a | a in heap :: heap[a].Value(), timerfd, log)
    }

    /** Timers stay where they are; the ones that appear are new objects. */
    twostate predicate HeapGrows()
      reads this
    {
      && (forall a :: a in old(heap) ==> a in heap && heap[a] == old(heap)[a])
      && (forall a :: a in heap && a !in old(heap) ==> fresh(heap[a]))
    }

    constructor ()
      ensures Valid() && View() == EMPTY
    {
      timers, timerfd, heap, log := [], Disarmed, map[], [];
    }

    /** `std::set::insert` under the key the timer has now. */
    method InsertTimer(timer: Timer) returns (earliestChanged: bool)
      requires Valid() && timer.address in heap && heap[timer.address] == timer
      requires Insert(View(), timer.address).Ok?
      modifies this`timers
      ensures Valid() && View() == Insert(old(View()), timer.address).value
      ensures earliestChanged <==> old(timers) == [] || timer.expiration < old(timers)[0].when
    {
      var when := timer.expiration;
      earliestChanged := timers == [] || when < timers[0].when;
      var entry := Entry(when, timer.address);
      assert entry !in timers;
      timers := InsertEntry(timers, entry);
    }

    /** addTimer and addTimerInLoop, called in the loop thread. */
    method AddTimerInLoop(n: NewTimer)
      requires Valid() && AddTimer(View(), n).Ok?
      modifies this
      ensures Valid() && View() == AddTimer(old(View()), n).value
      ensures HeapGrows()
    {
      var timer := new Timer(n.timer, n.value);
      heap := heap[n.timer := timer];
      assert View() == old(View()).(pool := old(View()).pool[n.timer := n.value]);
      var earliestChanged := InsertTimer(timer);
      if earliestChanged {
        timerfd := ResetTimerfd(timer.expiration, n.clock);
      }
    }

    method AddAll(ns: seq<NewTimer>)
      requires Valid() && AddTimers(View(), ns).Ok?
      modifies this
      ensures Valid() && View() == AddTimers(old(View()), ns).value
      ensures HeapGrows()
    {
      ghost var start := View();
      var i := 0;
      while i < |ns|
        invariant 0 <= i <= |ns| && Valid()
        invariant AddTimers(start, ns[..i]) == Ok(View())
        invariant HeapGrows()
      {
        AddTimersPrefix(start, ns, i + 1);
        assert ns[..i + 1][..i] == ns[..i] && ns[..i + 1][i] == ns[i];
        AddTimerInLoop(ns[i]);
        i := i + 1;
      }
      assert ns[..i] == ns;
    }

    method GetExpired(now: int) returns (expired: seq<Entry>)
      requires Valid()
      requires var k := DueCount(View(), now); k == |timers| || now < timers[k].when
      modifies this`timers
      ensures Valid() && expired == DueEntries(old(View()), now)
      ensures View() == old(View()).(entries := old(timers)[DueCount(old(View()), now)..])
    {
      var sentry := Entry(now, NULL);
      var it := LowerBound(timers, sentry);
      expired := timers[..it];
      timers := timers[it..];
    }

    /** restart and insert, for one expired timer that repeats. */
    method PutBack(timer: Timer, now: int)
      requires Valid() && timer.address in heap && heap[timer.address] == timer && timer.repeat
      requires Insert(View().(pool := View().pool[timer.address := timer.Value().Restarted(now)]), timer.address).Ok?
      modifies this`timers, timer
      ensures Valid()
      ensures var pool := old(View()).pool[timer.address := old(timer.Value()).Restarted(now)];
              View() == Insert(old(View()).(pool := pool), timer.address).value
    {
      timer.Restart(now);
      assert View() == old(View()).(pool := old(View()).pool[timer.address := timer.Value()]);
      var _ := InsertTimer(timer);
    }

    method PutBackExpired(expired: seq<Entry>, now: int)
      requires Valid() && Reinsert(View(), expired, now, |expired|).Ok?
      modifies this`timers, heap.Values
      ensures Valid() && View() == Reinsert(old(View()), expired, now, |expired|).value
    {
      ghost var start := View();
      var i := 0;
      while i < |expired|
        invariant 0 <= i <= |expired| && Valid()
        invariant Reinsert(start, expired, now, i) == Ok(View())
      {
        NextReinsertion(start, View(), expired, now, i);
        var timer := heap[expired[i].timer];
        if timer.repeat {
          PutBack(timer, now);
        }
        i := i + 1;
      }
    }

    method Reset(expired: seq<Entry>, now: int, clock: int)
      requires Valid() && Reinsert(View(), expired, now, |expired|).Ok?
      requires Keyed(Reinsert(View(), expired, now, |expired|).value)
      modifies this`timers, this`timerfd, heap.Values
      ensures Valid() && View() == Rearm(Reinsert(old(View()), expired, now, |expired|).value, clock)
    {
      PutBackExpired(expired, now);
      if timers != [] {
        assert timers[0] in View().entries && timers[0].timer in View().pool;
        var nextExpire := heap[timers[0].timer].expiration;
        if nextExpire > 0 {
          timerfd := ResetTimerfd(nextExpire, clock);
        }
      }
    }

    /** Run the expired timers; the callback of timer `t` adds the timers `script[t]`. */
    method RunExpired(expired: seq<Entry>, now: int, script: Script)
      requires Valid() && RunCallbacks(View(), expired, script, now, |expired|).Ok?
      modifies this
      ensures Valid() && View() == RunCallbacks(old(View()), expired, script, now, |expired|).value
      ensures HeapGrows()
    {
      ghost var start := View();
      var i := 0;
      while i < |expired|
        invariant 0 <= i <= |expired| && Valid()
        invariant RunCallbacks(start, expired, script, now, i) == Ok(View())
        invariant HeapGrows()
      {
        NextCallback(start, View(), expired, script, now, i);
        RunOne(expired[i].timer, now, Added(script, expired[i].timer));
        i := i + 1;
      }
    }

    method RunOne(timer: Address, now: int, ns: seq<NewTimer>)
      requires Valid() && timer in heap && AddTimers(Fire(View(), timer, now), ns).Ok?
      modifies this
      ensures Valid() && View() == AddTimers(Fire(old(View()), timer, now), ns).value
      ensures HeapGrows()
    {
      log := log + [Firing(timer, heap[timer].expiration, now)];
      assert View() == Fire(old(View()), timer, now);
      AddAll(ns);
    }

    method HandleReadable(now: int, script: Script, clock: int)
      requires Valid() && Inv(View()) && HandleRead(View(), now, script, clock).Ok?
      modifies this, heap.Values
      ensures Valid() && View() == HandleRead(old(View()), now, script, clock).value
      ensures log == old(log) + Firings(DueEntries(old(View()), now), now)
    {
      ghost var q := View();
      HandleReadParts(q, now, script, clock);
      timerfd := ReadTimerfd(timerfd);
      var expired := GetExpired(now);
      assert View() == CutOff(q, now);
      RunExpired(expired, now, script);
      Reset(expired, now, clock);
    }
  }
}
