/**
 What a run of the whole reactor does to one connection is a run of that connection alone,
 under the calls that the environment's choices make on it.  So every law about one
 connection holds inside the reactor, and what the reactor reads, writes and queues is said
 here in terms of its steps.
 */
module ReactorTraces {

  import ByteBuffer
  import opened Connections
  import ConnectionLaws
  import opened Outcomes
  import opened Polling
  import opened Reactor

  // ---------------------------------------------------------------- the calls on one connection

  /** The calls that user code makes on connection `id`. */
  function ActionOps(actions: seq<Action>, id: ConnId): seq<Connections.Op> {
    if actions == [] then []
    else ActionOps(actions[..|actions| - 1], id) + OpsOfAction(actions[|actions| - 1], id)
  }

  function OpsOfAction(a: Action, id: ConnId): seq<Connections.Op> {
    match a
    case SendTo(to, message, written) => if to == id then [SendMessage(message, written)] else []
    case ShutdownOf(to) => if to == id then [ShutdownCalled] else []
    case Queue(_) => []
  }

  /** What the read callback of channel `ev.channel` comes to, for connection `id`. */
  function ReadOps(ev: Event, env: Env, id: ConnId): seq<Connections.Op> {
    if !WantsRead(ev.revents) || env.read.Failed? then []
    else if env.read.bytes == [] then (if ev.channel == id then [CloseCalled] else [])
    else (if ev.channel == id then [DataRead(env.read.bytes, env.taken)] else []) + ActionOps(env.actions, id)
  }

  function WriteOps(ev: Event, env: Env, id: ConnId): seq<Connections.Op> {
    if POLLOUT in ev.revents && env.writeCallbackSet && ev.channel == id then [WriteReady(env.written)] else []
  }

  /** The calls one step of the reactor makes on connection `id`. */
  function StepOps(s: System, step: Reactor.Step, id: ConnId): seq<Connections.Op> {
    match step
    case HandleNext(env) =>
      if !s.phase.Dispatch? || s.phase.active == [] then []
      else
        var ev := s.phase.active[0];
        if ev.channel == OWN
        then
          (if Accepts(s, step) && id == s.nextConnId then [Connections.Established] else [])
          + ActionOps(env.actions, id)
        else ReadOps(ev, env, id) + WriteOps(ev, env, id)
    case RunNext(actions) =>
      if !s.phase.Batch? || s.phase.rest == [] then []
      else (if s.phase.rest[0] == Destroy(id) then [DestroyCalled] else []) + ActionOps(actions, id)
    case _ => []
  }

  /** The calls the first `n` steps make on connection `id`. */
  function OpsOf(ss: seq<System>, steps: seq<Reactor.Step>, n: nat, id: ConnId): seq<Connections.Op>
    requires n <= |steps| < |ss|
  {
    if n == 0 then [] else OpsOf(ss, steps, n - 1, id) + StepOps(ss[n - 1], steps[n - 1], id)
  }

  // ---------------------------------------------------------------- projection

  /** From `c` the calls lead to `d`, whatever else changes the Poller in between. */
  ghost predicate Projects(c: Conn, ops: seq<Connections.Op>, d: Conn) {
    exists ls: seq<Link<ConnId>> :: Connections.IsRun(ls, ops) && ls[0].conn == c && ls[|ops|].conn == d
  }

  lemma NoCall(c: Conn)
    ensures Projects(c, [], c)
  {
    var ls := [Link(OWN, c, [], map[])];
    assert Connections.IsRun(ls, []);
  }

  lemma OneCall(l: Link<ConnId>, op: Connections.Op, d: Conn)
    requires Leads(l, op, d)
    ensures Projects(l.conn, [op], d)
  {
    var ls := [l, l.(conn := d)];
    assert Connections.IsRun(ls, [op]);
  }

  lemma CallsThenCalls(c: Conn, first: seq<Connections.Op>, d: Conn, second: seq<Connections.Op>, e: Conn)
    requires Projects(c, first, d) && Projects(d, second, e)
    ensures Projects(c, first + second, e)
  {
    var ls: seq<Link<ConnId>> :| Connections.IsRun(ls, first) && ls[0].conn == c && ls[|first|].conn == d;
    var ms: seq<Link<ConnId>> :| Connections.IsRun(ms, second) && ms[0].conn == d && ms[|second|].conn == e;
    RunsJoin(ls, first, ms, second);
  }

  lemma LeadsLike(ls: seq<Link<ConnId>>, ops: seq<Connections.Op>, i: nat,
                  ms: seq<Link<ConnId>>, more: seq<Connections.Op>, j: nat)
    requires Connections.IsRun(ms, more) && j < |more| && i < |ops| < |ls|
    requires ls[i] == ms[j] && ops[i] == more[j] && ls[i + 1].conn == ms[j + 1].conn
    ensures LeadsAt(ls, ops, i)
  {
    assert LeadsAt(ms, more, j);
  }

  lemma JoinLeads(ls: seq<Link<ConnId>>, first: seq<Connections.Op>, ms: seq<Link<ConnId>>, second: seq<Connections.Op>,
                  i: nat)
    requires Connections.IsRun(ls, first) && Connections.IsRun(ms, second) && ls[|first|].conn == ms[0].conn
    requires i < |first + second|
    ensures LeadsAt(ls[..|first|] + ms, first + second, i)
  {
    if i < |first| {
      LeadsLike(ls[..|first|] + ms, first + second, i, ls, first, i);
    } else {
      LeadsLike(ls[..|first|] + ms, first + second, i, ms, second, i - |first|);
    }
  }

  lemma RunsJoin(ls: seq<Link<ConnId>>, first: seq<Connections.Op>, ms: seq<Link<ConnId>>, second: seq<Connections.Op>)
    requires Connections.IsRun(ls, first) && Connections.IsRun(ms, second) && ls[|first|].conn == ms[0].conn
    ensures var all := ls[..|first|] + ms;
            && Connections.IsRun(all, first + second)
            && all[0].conn == ls[0].conn && all[|first + second|] == ms[|second|]
  {
    var all, ops := ls[..|first|] + ms, first + second;
    forall i | 0 <= i < |ops|
      ensures Leads(all[i], ops[i], all[i + 1].conn)
    {
      JoinLeads(ls, first, ms, second, i);
      assert LeadsAt(all, ops, i);
    }
  }

  // ---------------------------------------------------------------- one step

  /** `r` made exactly the calls `ops` on connection `id` of `s`. */
  ghost predicate Makes(s: System, r: Outcome<System>, ops: seq<Connections.Op>, id: ConnId)
    requires id in s.conns
  {
    r.Ok? ==> id in r.value.conns && Projects(s.conns[id], ops, r.value.conns[id])
  }

  lemma MakesThen(s: System, s1: System, r: Outcome<System>, first: seq<Connections.Op>, second: seq<Connections.Op>,
                  id: ConnId)
    requires id in s.conns && Makes(s, Ok(s1), first, id) && Makes(s1, r, second, id)
    ensures Makes(s, r, first + second, id)
  {
    if r.Ok? {
      CallsThenCalls(s.conns[id], first, s1.conns[id], second, r.value.conns[id]);
    }
  }

  /** A change to one connection makes one call on it and none on any other. */
  lemma PutMakes(s: System, on: ConnId, l: Link<ConnId>, op: Connections.Op, id: ConnId)
    requires on in s.conns && id in s.conns && l.channel == on && Leads(LinkOf(s, on), op, l.conn)
    ensures Makes(s, Ok(Put(s, l)), if on == id then [op] else [], id)
  {
    NoCall(s.conns[id]);
    OneCall(LinkOf(s, on), op, l.conn);
  }

  lemma ActMakes(s: System, a: Action, id: ConnId)
    requires id in s.conns
    ensures Makes(s, Act(s, a), OpsOfAction(a, id), id)
  {
    match a
    case SendTo(to, message, written) =>
      if to in s.conns && Send(LinkOf(s, to), message, written).Ok? {
        PutMakes(s, to, Send(LinkOf(s, to), message, written).value, SendMessage(message, written), id);
      }
    case ShutdownOf(to) =>
      if to in s.conns {
        PutMakes(s, to, Shutdown(LinkOf(s, to)), ShutdownCalled, id);
      }
    case Queue(_) => NoCall(s.conns[id]);
  }

  lemma {:induction false} ActAllMakes(s: System, actions: seq<Action>, id: ConnId)
    requires id in s.conns
    ensures Makes(s, ActAll(s, actions), ActionOps(actions, id), id)
  {
    if actions == [] {
      NoCall(s.conns[id]);
    } else {
      var front, a := actions[..|actions| - 1], actions[|actions| - 1];
      ActAllMakes(s, front, id);
      var r := ActAll(s, front);
      if r.Ok? {
        ActMakes(r.value, a, id);
        MakesThen(s, r.value, ActAll(s, actions), ActionOps(front, id), OpsOfAction(a, id), id);
      }
    }
  }

  lemma MessageMakes(s: System, ev: Event, env: Env, id: ConnId)
    requires ev.channel in s.conns && id in s.conns && WantsRead(ev.revents)
    requires env.read.Delivered? && env.read.bytes != []
    ensures Makes(s, HandleRead(s, ev.channel, env), ReadOps(ev, env, id), id)
  {
    var on, bytes := ev.channel, env.read.bytes;
    if HandleRead(s, on, env).Ok? {
      var l := LinkOf(s, on).(conn := ReadIn(s.conns[on], bytes, env.taken));
      PutMakes(s, on, l, DataRead(bytes, env.taken), id);
      ActAllMakes(Put(s, l), env.actions, id);
      MakesThen(s, Put(s, l), ActAll(Put(s, l), env.actions),
                if on == id then [DataRead(bytes, env.taken)] else [], ActionOps(env.actions, id), id);
    }
  }

  lemma CloseMakes(s: System, on: ConnId, id: ConnId)
    requires on in s.conns && id in s.conns
    ensures Makes(s, HandleClose(s, on), if on == id then [CloseCalled] else [], id)
  {
    var r := BeginClose(LinkOf(s, on));
    if r.Ok? {
      PutMakes(s, on, r.value, CloseCalled, id);
    }
  }

  lemma ReadMakes(s: System, ev: Event, env: Env, id: ConnId)
    requires ev.channel in s.conns && id in s.conns && WantsRead(ev.revents)
    ensures Makes(s, HandleRead(s, ev.channel, env), ReadOps(ev, env, id), id)
  {
    match env.read
    case Failed(_) => NoCall(s.conns[id]);
    case Delivered(bytes) =>
      if bytes == [] {
        CloseMakes(s, ev.channel, id);
      } else {
        MessageMakes(s, ev, env, id);
      }
  }

  lemma WriteMakes(s: System, ev: Event, env: Env, id: ConnId)
    requires ev.channel in s.conns && id in s.conns && POLLOUT in ev.revents && env.writeCallbackSet
    ensures var r := HandleWrite(LinkOf(s, ev.channel), env.written);
            r.Ok? ==> Makes(s, Ok(Put(s, r.value)), WriteOps(ev, env, id), id)
  {
    var r := HandleWrite(LinkOf(s, ev.channel), env.written);
    if r.Ok? {
      PutMakes(s, ev.channel, r.value, WriteReady(env.written), id);
    }
  }

  lemma ConnEventMakes(s: System, ev: Event, env: Env, id: ConnId)
    requires ev.channel != OWN && id in s.conns
    ensures Makes(s, HandleEvent(s, ev, env), ReadOps(ev, env, id) + WriteOps(ev, env, id), id)
  {
    var r := HandleEvent(s, ev, env);
    if r.Ok? {
      var s1 := if WantsRead(ev.revents) then HandleRead(s, ev.channel, env).value else s;
      if WantsRead(ev.revents) {
        ReadMakes(s, ev, env, id);
      } else {
        NoCall(s.conns[id]);
      }
      if POLLOUT in ev.revents && env.writeCallbackSet {
        WriteMakes(s1, ev, env, id);
      } else {
        NoCall(s1.conns[id]);
      }
      MakesThen(s, s1, r, ReadOps(ev, env, id), WriteOps(ev, env, id), id);
    }
  }

  /** The connection that a step accepts: the call that establishes it, and its callback. */
  lemma AcceptMakes(s: System, fd: nat, actions: seq<Action>)
    requires NewConnection(s, fd, actions).Ok?
    ensures var s', id := NewConnection(s, fd, actions).value, s.nextConnId;
            && id in s'.conns && s'.conns[id].fd == fd
            && Projects(NewConn(fd), [Connections.Established] + ActionOps(actions, id), s'.conns[id])
  {
    var s', id := NewConnection(s, fd, actions).value, s.nextConnId;
    NewConnectionValue(s, fd, actions);
    var s1 := Reactor.Established(s, fd);
    var l := Link(id, NewConn(fd), s.slots, s.channels);
    assert [] + [true] == [true];
    OneCall(l, Connections.Established, s1.conns[id]);
    ActAllMakes(s1, actions, id);
    CallsThenCalls(NewConn(fd), [Connections.Established], s1.conns[id], ActionOps(actions, id), s'.conns[id]);
    FdKept(NewConn(fd), [Connections.Established] + ActionOps(actions, id), s'.conns[id]);
  }

  /** No call changes the descriptor. */
  lemma FdKept(c: Conn, ops: seq<Connections.Op>, d: Conn)
    requires Projects(c, ops, d)
    ensures d.fd == c.fd
  {
    var ls: seq<Link<ConnId>> :| Connections.IsRun(ls, ops) && ls[0].conn == c && ls[|ops|].conn == d;
    RunKeepsFd(ls, ops, |ops|);
  }

  lemma {:induction false} RunKeepsFd(ls: seq<Link<ConnId>>, ops: seq<Connections.Op>, n: nat)
    requires Connections.IsRun(ls, ops) && n <= |ops|
    ensures ls[n].conn.fd == ls[0].conn.fd
  {
    if n == 0 {
    } else {
      RunKeepsFd(ls, ops, n - 1);
      assert LeadsAt(ls, ops, n - 1);
    }
  }

  lemma DestroyMakes(s: System, on: ConnId, actions: seq<Action>, id: ConnId)
    requires on in s.conns && id in s.conns
    ensures Makes(s, ConnectDestroyed(s, on, actions),
                  (if on == id then [DestroyCalled] else []) + ActionOps(actions, id), id)
  {
    var l := BeginDestroy(LinkOf(s, on));
    if l.Ok? {
      var s1 := Put(s, l.value);
      PutMakes(s, on, l.value, DestroyCalled, id);
      ActAllMakes(s1, actions, id);
      MakesThen(s, s1, ActAll(s1, actions), if on == id then [DestroyCalled] else [], ActionOps(actions, id), id);
      if ConnectDestroyed(s, on, actions).Ok? {
        DestroyEnds(s, on, actions, id);
      }
    }
  }

  /** removeChannel touches no connection's own value. */
  lemma DestroyEnds(s: System, on: ConnId, actions: seq<Action>, id: ConnId)
    requires on in s.conns && ConnectDestroyed(s, on, actions).Ok?
    ensures var r := ActAll(Put(s, BeginDestroy(LinkOf(s, on)).value), actions);
            r.Ok? && ConnectDestroyed(s, on, actions).value.conns == r.value.conns
  {
    var s1 := ActAll(Put(s, BeginDestroy(LinkOf(s, on)).value), actions).value;
    assert s1.conns[on := s1.conns[on]] == s1.conns;
  }

  lemma OwnEventMakes(s: System, env: Env, id: ConnId)
    requires s.phase.Dispatch? && s.phase.active != [] && s.phase.active[0].channel == OWN
    requires id in s.conns && id != s.nextConnId
    ensures Makes(s, Reactor.Perform(s, HandleNext(env)), StepOps(s, HandleNext(env), id), id)
  {
    var s1 := s.(phase := Dispatch(s.phase.active[1..]));
    assert [] + ActionOps(env.actions, id) == ActionOps(env.actions, id);
    if Accepts(s, HandleNext(env)) {
      if Reactor.Perform(s, HandleNext(env)).Ok? {
        NewConnectionValue(s1, env.accepted, env.actions);
        ActAllMakes(Reactor.Established(s1, env.accepted), env.actions, id);
      }
    } else {
      ActAllMakes(s1, env.actions, id);
    }
  }

  lemma RunNextMakes(s: System, actions: seq<Action>, id: ConnId)
    requires id in s.conns && s.phase.Batch? && s.phase.rest != []
    ensures Makes(s, Reactor.Perform(s, RunNext(actions)), StepOps(s, RunNext(actions), id), id)
  {
    assert [] + ActionOps(actions, id) == ActionOps(actions, id);
    match s.phase.rest[0]
    case User(_) => ActAllMakes(Taken(s), actions, id);
    case Destroy(on) =>
      if on in s.conns {
        DestroyMakes(Taken(s), on, actions, id);
      }
  }

  /** One step makes exactly its calls on a connection that exists. */
  lemma StepMakes(s: System, step: Reactor.Step, id: ConnId)
    requires id in s.conns && id != s.nextConnId
    ensures Makes(s, Reactor.Perform(s, step), StepOps(s, step, id), id)
  {
    match step
    case HandleNext(env) =>
      if s.phase.Dispatch? && s.phase.active != [] {
        if s.phase.active[0].channel == OWN {
          OwnEventMakes(s, env, id);
        } else {
          ConnEventMakes(s.(phase := Dispatch(s.phase.active[1..])), s.phase.active[0], env, id);
        }
      }
    case RunNext(actions) =>
      if s.phase.Batch? && s.phase.rest != [] {
        RunNextMakes(s, actions, id);
      }
    case _ => NoCall(s.conns[id]);
  }

  // ---------------------------------------------------------------- whole runs

  /** User code only gets at connections that exist. */
  lemma {:induction false} ActAllKnows(s: System, actions: seq<Action>, id: ConnId)
    requires id !in s.conns
    ensures ActAll(s, actions).Ok? ==> ActionOps(actions, id) == []
  {
    if actions == [] {
    } else {
      var front := actions[..|actions| - 1];
      ActAllKnows(s, front, id);
      ActAllAddsNobody(s, front);
    }
  }

  lemma ConnEventKnows(s: System, ev: Event, env: Env, id: ConnId)
    requires ev.channel != OWN && HandleEvent(s, ev, env).Ok? && id !in s.conns
    ensures ReadOps(ev, env, id) + WriteOps(ev, env, id) == []
  {
    if WantsRead(ev.revents) && env.read.Delivered? && env.read.bytes != [] {
      var l := LinkOf(s, ev.channel).(conn := ReadIn(s.conns[ev.channel], env.read.bytes, env.taken));
      ActAllKnows(Put(s, l), env.actions, id);
    }
  }

  lemma OwnEventKnows(s: System, env: Env, id: ConnId)
    requires s.phase.Dispatch? && s.phase.active != [] && s.phase.active[0].channel == OWN && id !in s.conns
    requires Reactor.Perform(s, HandleNext(env)).Ok? && id !in Reactor.Perform(s, HandleNext(env)).value.conns
    ensures StepOps(s, HandleNext(env), id) == []
  {
    var s1 := s.(phase := Dispatch(s.phase.active[1..]));
    if Accepts(s, HandleNext(env)) {
      NewConnectionValue(s1, env.accepted, env.actions);
      ActAllAddsNobody(Reactor.Established(s1, env.accepted), env.actions);
      ActAllKnows(Reactor.Established(s1, env.accepted), env.actions, id);
    } else {
      ActAllKnows(s1, env.actions, id);
    }
  }

  lemma RunNextKnows(s: System, actions: seq<Action>, id: ConnId)
    requires Reactor.Perform(s, RunNext(actions)).Ok? && id !in s.conns
    ensures StepOps(s, RunNext(actions), id) == []
  {
    match s.phase.rest[0]
    case User(_) => ActAllKnows(Taken(s), actions, id);
    case Destroy(on) =>
      ActAllKnows(Put(Taken(s), BeginDestroy(LinkOf(Taken(s), on)).value), actions, id);
  }

  lemma StepKnows(s: System, step: Reactor.Step, id: ConnId)
    requires Reactor.Perform(s, step).Ok? && id !in s.conns && id !in Reactor.Perform(s, step).value.conns
    ensures StepOps(s, step, id) == []
  {
    match step
    case HandleNext(env) =>
      if s.phase.active[0].channel == OWN {
        OwnEventKnows(s, env, id);
      } else {
        ConnEventKnows(s.(phase := Dispatch(s.phase.active[1..])), s.phase.active[0], env, id);
      }
    case RunNext(actions) => RunNextKnows(s, actions, id);
    case _ =>
  }

  lemma StepBegins(s: System, step: Reactor.Step, id: ConnId)
    requires Reactor.Perform(s, step).Ok? && id !in s.conns && id in Reactor.Perform(s, step).value.conns
    ensures var c := Reactor.Perform(s, step).value.conns[id]; Projects(NewConn(c.fd), StepOps(s, step, id), c)
  {
    OnlyAcceptAdds(s, step);
    NewcomerIsNext(s, step.env, id);
    AcceptMakes(s.(phase := Dispatch(s.phase.active[1..])), step.env.accepted, step.env.actions);
  }

  /** The calls `ops` account for all that has happened to connection `id`. */
  ghost predicate Accounts(s: System, id: ConnId, ops: seq<Connections.Op>) {
    if id in s.conns then Projects(NewConn(s.conns[id].fd), ops, s.conns[id]) else ops == []
  }

  lemma StepAccounts(s: System, step: Reactor.Step, id: ConnId, ops: seq<Connections.Op>)
    requires Inv(s) && Reactor.Perform(s, step).Ok? && Accounts(s, id, ops)
    ensures Accounts(Reactor.Perform(s, step).value, id, ops + StepOps(s, step, id))
  {
    var s' := Reactor.Perform(s, step).value;
    if id in s.conns {
      assert ConnOk(s, id, OWN);
      StepMakes(s, step, id);
      FdKept(s.conns[id], StepOps(s, step, id), s'.conns[id]);
      CallsThenCalls(NewConn(s.conns[id].fd), ops, s.conns[id], StepOps(s, step, id), s'.conns[id]);
    } else if id in s'.conns {
      StepBegins(s, step, id);
      assert ops + StepOps(s, step, id) == StepOps(s, step, id);
    } else {
      StepKnows(s, step, id);
    }
  }

  lemma NobodyAtFirst(ss: seq<System>, steps: seq<Reactor.Step>)
    requires Reactor.IsRun(ss, steps)
    ensures ss[0].conns == map[]
  {
  }

  lemma StepOfRunAccounts(ss: seq<System>, steps: seq<Reactor.Step>, m: nat, id: ConnId, ops: seq<Connections.Op>)
    requires Reactor.IsRun(ss, steps) && m < |steps| && Accounts(ss[m], id, ops)
    ensures Accounts(ss[m + 1], id, ops + StepOps(ss[m], steps[m], id))
  {
    RunKeepsInvAt(ss, steps, m);
    assert StepsTo(ss, steps, m);
    StepAccounts(ss[m], steps[m], id, ops);
  }

  ghost predicate AccountsAt(ss: seq<System>, steps: seq<Reactor.Step>, n: nat, id: ConnId)
    requires n <= |steps| < |ss|
  {
    Accounts(ss[n], id, OpsOf(ss, steps, n, id))
  }

  lemma FirstAccounts(ss: seq<System>, steps: seq<Reactor.Step>, id: ConnId)
    requires Reactor.IsRun(ss, steps)
    ensures AccountsAt(ss, steps, 0, id)
  {
    NobodyAtFirst(ss, steps);
  }

  /** If the account was right before step `m`, it is right after it. */
  ghost predicate KeepsAccount(ss: seq<System>, steps: seq<Reactor.Step>, m: nat, id: ConnId)
    requires m < |steps| < |ss|
  {
    AccountsAt(ss, steps, m, id) ==> AccountsAt(ss, steps, m + 1, id)
  }

  lemma StepsKeepAccount(ss: seq<System>, steps: seq<Reactor.Step>, m: nat, id: ConnId)
    requires Reactor.IsRun(ss, steps) && m < |steps|
    ensures KeepsAccount(ss, steps, m, id)
  {
    if AccountsAt(ss, steps, m, id) {
      StepOfRunAccounts(ss, steps, m, id, OpsOf(ss, steps, m, id));
    }
  }

  lemma {:induction false} AccountsUpTo(ss: seq<System>, steps: seq<Reactor.Step>, n: nat, id: ConnId)
    requires n <= |steps| < |ss| && AccountsAt(ss, steps, 0, id)
    requires forall m :: 0 <= m < |steps| ==> KeepsAccount(ss, steps, m, id)
    ensures AccountsAt(ss, steps, n, id)
  {
    if n == 0 {
    } else {
      AccountsUpTo(ss, steps, n - 1, id);
      assert KeepsAccount(ss, steps, n - 1, id);
    }
  }

  /**
   In every run of the reactor each connection is in the state that the calls of the run on it,
   and no others, lead a new connection to.
   */
  lemma RunProjects(ss: seq<System>, steps: seq<Reactor.Step>, n: nat, id: ConnId)
    requires Reactor.IsRun(ss, steps) && n <= |steps|
    ensures AccountsAt(ss, steps, n, id)
  {
    FirstAccounts(ss, steps, id);
    forall m | 0 <= m < |steps| {
      StepsKeepAccount(ss, steps, m, id);
    }
    AccountsUpTo(ss, steps, n, id);
  }

  /** Every law about one connection holds of it inside the reactor. */
  lemma ConnectionFollowsSteps(ss: seq<System>, steps: seq<Reactor.Step>, n: nat, id: ConnId)
    requires Reactor.IsRun(ss, steps) && n <= |steps| && id in ss[n].conns
    ensures var c, ops := ss[n].conns[id], OpsOf(ss, steps, n, id);
            && c.state == ConnectionLaws.StateAfter(ops, |ops|)
            && c.accepted == ConnectionLaws.Accepted(ops, |ops|) == c.wire + c.output
            && c.delivered == ConnectionLaws.Arrived(ops, |ops|) == c.consumed + c.input
            && |c.consumed| == ConnectionLaws.TakenOut(ops, |ops|)
            && (exists ls: seq<Link<ConnId>> ::
                  && Connections.IsRun(ls, ops) && ls[0].conn == NewConn(c.fd) && ls[|ops|].conn == c
                  && |c.wire| == ConnectionLaws.Written(ls, ops, |ops|))
            && ConnectionLaws.HalfClosedIfDone(c)
            && (c.closes == 0 && c.state.Disconnecting? ==> (c.halfCloses == 1 <==> c.output == []))
  {
    var c, ops := ss[n].conns[id], OpsOf(ss, steps, n, id);
    RunProjects(ss, steps, n, id);
    assert AccountsAt(ss, steps, n, id);
    var ls: seq<Link<ConnId>> :| Connections.IsRun(ls, ops) && ls[0].conn == NewConn(c.fd) && ls[|ops|].conn == c;
    Connections.RunKeepsStream(ls, ops, c.fd, |ops|);
    ConnectionLaws.StateFollowsCalls(ls, ops, c.fd, |ops|);
    ConnectionLaws.BytesFollowCalls(ls, ops, c.fd, |ops|);
    ConnectionLaws.HalfClosesExactly(ls, ops, c.fd, |ops|);
    ConnectionLaws.HalfClosesWhenDrained(ls, ops, c.fd, |ops|);
  }

  // ---------------------------------------------------------------- what is read

  /** The step handles a read event of connection `id`, and readFd delivers. */
  predicate Reads(s: System, step: Reactor.Step, id: ConnId) {
    && step.HandleNext? && step.env.read.Delivered? && s.phase.Dispatch? && s.phase.active != []
    && s.phase.active[0].channel == id && WantsRead(s.phase.active[0].revents)
  }

  function ReadInStep(s: System, step: Reactor.Step, id: ConnId): seq<ByteBuffer.Byte> {
    if Reads(s, step, id) then step.env.read.bytes else []
  }

  function TakenInStep(s: System, step: Reactor.Step, id: ConnId): nat {
    if Reads(s, step, id) && step.env.read.bytes != [] then step.env.taken else 0
  }

  function BytesRead(ss: seq<System>, steps: seq<Reactor.Step>, n: nat, id: ConnId): seq<ByteBuffer.Byte>
    requires n <= |steps| < |ss|
  {
    if n == 0 then []
    else BytesRead(ss, steps, n - 1, id) + ReadInStep(ss[n - 1], steps[n - 1], id)
  }

  function BytesTaken(ss: seq<System>, steps: seq<Reactor.Step>, n: nat, id: ConnId): nat
    requires n <= |steps| < |ss|
  {
    if n == 0 then 0
    else BytesTaken(ss, steps, n - 1, id) + TakenInStep(ss[n - 1], steps[n - 1], id)
  }

  lemma {:induction false} ArrivedPrefix(a: seq<Connections.Op>, b: seq<Connections.Op>, n: nat)
    requires n <= |a|
    ensures ConnectionLaws.Arrived(a + b, n) == ConnectionLaws.Arrived(a, n)
  {
    if n == 0 {
    } else {
      ArrivedPrefix(a, b, n - 1);
      assert (a + b)[n - 1] == a[n - 1];
    }
  }

  lemma {:induction false} ArrivedConcat(a: seq<Connections.Op>, b: seq<Connections.Op>, n: nat)
    requires n <= |b|
    ensures ConnectionLaws.Arrived(a + b, |a| + n) == ConnectionLaws.Arrived(a, |a|) + ConnectionLaws.Arrived(b, n)
  {
    var first := ConnectionLaws.Arrived(a, |a|);
    if n == 0 {
      ArrivedPrefix(a, b, |a|);
      assert first + [] == first;
    } else {
      ArrivedConcat(a, b, n - 1);
      var op, second := b[n - 1], ConnectionLaws.Arrived(b, n - 1);
      assert (a + b)[|a| + n - 1] == op;
      if op.DataRead? {
        assert (first + second) + op.bytes == first + (second + op.bytes);
      }
    }
  }

  lemma {:induction false} TakenOutPrefix(a: seq<Connections.Op>, b: seq<Connections.Op>, n: nat)
    requires n <= |a|
    ensures ConnectionLaws.TakenOut(a + b, n) == ConnectionLaws.TakenOut(a, n)
  {
    if n == 0 {
    } else {
      TakenOutPrefix(a, b, n - 1);
      assert (a + b)[n - 1] == a[n - 1];
    }
  }

  lemma {:induction false} TakenOutConcat(a: seq<Connections.Op>, b: seq<Connections.Op>, n: nat)
    requires n <= |b|
    ensures ConnectionLaws.TakenOut(a + b, |a| + n) == ConnectionLaws.TakenOut(a, |a|) + ConnectionLaws.TakenOut(b, n)
  {
    if n == 0 {
      TakenOutPrefix(a, b, |a|);
    } else {
      TakenOutConcat(a, b, n - 1);
      assert (a + b)[|a| + n - 1] == b[n - 1];
    }
  }

  lemma {:induction false} NothingArrives(ops: seq<Connections.Op>, n: nat)
    requires n <= |ops| && forall k :: 0 <= k < |ops| ==> !ops[k].DataRead?
    ensures ConnectionLaws.Arrived(ops, n) == [] && ConnectionLaws.TakenOut(ops, n) == 0
  {
    if n == 0 {
    } else {
      NothingArrives(ops, n - 1);
    }
  }

  lemma {:induction false} UserReadsNothing(actions: seq<Action>, id: ConnId)
    ensures forall k :: 0 <= k < |ActionOps(actions, id)| ==> !ActionOps(actions, id)[k].DataRead?
  {
    if actions == [] {
    } else {
      UserReadsNothing(actions[..|actions| - 1], id);
    }
  }

  /** A read, and then calls that read nothing. */
  lemma ReadComesFirst(bytes: seq<ByteBuffer.Byte>, taken: nat, rest: seq<Connections.Op>)
    requires forall k :: 0 <= k < |rest| ==> !rest[k].DataRead?
    ensures var ops := [DataRead(bytes, taken)] + rest;
            ConnectionLaws.Arrived(ops, |ops|) == bytes && ConnectionLaws.TakenOut(ops, |ops|) == taken
  {
    var read := [DataRead(bytes, taken)];
    NothingArrives(rest, |rest|);
    ArrivedConcat(read, rest, |rest|);
    TakenOutConcat(read, rest, |rest|);
    assert ConnectionLaws.Arrived(read, 0) == [] && ConnectionLaws.TakenOut(read, 0) == 0;
    assert [] + bytes == bytes && bytes + [] == bytes;
  }

  lemma StepArrives(s: System, step: Reactor.Step, id: ConnId)
    requires id != OWN
    ensures var ops := StepOps(s, step, id);
            && ConnectionLaws.Arrived(ops, |ops|) == ReadInStep(s, step, id)
            && ConnectionLaws.TakenOut(ops, |ops|) == TakenInStep(s, step, id)
  {
    var ops := StepOps(s, step, id);
    if Reads(s, step, id) && step.env.read.bytes != [] {
      var env := step.env;
      var rest := ActionOps(env.actions, id) + WriteOps(s.phase.active[0], env, id);
      UserReadsNothing(env.actions, id);
      assert ops == [DataRead(env.read.bytes, env.taken)] + rest;
      ReadComesFirst(env.read.bytes, env.taken, rest);
    } else {
      if step.HandleNext? {
        UserReadsNothing(step.env.actions, id);
      } else if step.RunNext? {
        UserReadsNothing(step.actions, id);
      }
      NothingArrives(ops, |ops|);
    }
  }

  lemma {:induction false} RunDelivers(ls: seq<Link<ConnId>>, ops: seq<Connections.Op>, n: nat)
    requires Connections.IsRun(ls, ops) && n <= |ops|
    ensures ls[n].conn.delivered == ls[0].conn.delivered + ConnectionLaws.Arrived(ops, n)
    ensures |ls[n].conn.consumed| == |ls[0].conn.consumed| + ConnectionLaws.TakenOut(ops, n)
  {
    if n == 0 {
      assert ls[0].conn.delivered + [] == ls[0].conn.delivered;
    } else {
      RunDelivers(ls, ops, n - 1);
      ConnectionLaws.NextReads(ls, ops, n - 1);
      if ops[n - 1].DataRead? {
        var whole, more := ls[0].conn.delivered, ConnectionLaws.Arrived(ops, n - 1);
        assert (whole + more) + ops[n - 1].bytes == whole + (more + ops[n - 1].bytes);
      }
    }
  }

  lemma ProjectsDelivers(c: Conn, ops: seq<Connections.Op>, d: Conn)
    requires Projects(c, ops, d)
    ensures d.delivered == c.delivered + ConnectionLaws.Arrived(ops, |ops|)
    ensures |d.consumed| == |c.consumed| + ConnectionLaws.TakenOut(ops, |ops|)
  {
    var ls: seq<Link<ConnId>> :| Connections.IsRun(ls, ops) && ls[0].conn == c && ls[|ops|].conn == d;
    RunDelivers(ls, ops, |ops|);
  }

  /** Only connections that exist are read. */
  lemma StrangersReadNothing(s: System, step: Reactor.Step, id: ConnId)
    requires Reactor.Perform(s, step).Ok? && id !in s.conns && id != OWN
    ensures !Reads(s, step, id)
  {
  }

  lemma StepReads(s: System, step: Reactor.Step, id: ConnId)
    requires Inv(s) && Reactor.Perform(s, step).Ok? && id != OWN && id in Reactor.Perform(s, step).value.conns
    ensures var d := Reactor.Perform(s, step).value.conns[id];
            && d.delivered == (if id in s.conns then s.conns[id].delivered else []) + ReadInStep(s, step, id)
            && |d.consumed| == (if id in s.conns then |s.conns[id].consumed| else 0) + TakenInStep(s, step, id)
  {
    var d := Reactor.Perform(s, step).value.conns[id];
    StepArrives(s, step, id);
    if id in s.conns {
      assert ConnOk(s, id, OWN);
      StepMakes(s, step, id);
      ProjectsDelivers(s.conns[id], StepOps(s, step, id), d);
    } else {
      StepBegins(s, step, id);
      ProjectsDelivers(NewConn(d.fd), StepOps(s, step, id), d);
    }
  }

  /** What connection `id` has read so far, `bytes`, of which callbacks have taken out `taken`. */
  predicate HasRead(s: System, id: ConnId, bytes: seq<ByteBuffer.Byte>, taken: nat) {
    if id in s.conns then s.conns[id].delivered == bytes && |s.conns[id].consumed| == taken
    else bytes == [] && taken == 0
  }

  lemma StepKeepsHasRead(s: System, step: Reactor.Step, id: ConnId, bytes: seq<ByteBuffer.Byte>, taken: nat)
    requires Inv(s) && Reactor.Perform(s, step).Ok? && id != OWN && HasRead(s, id, bytes, taken)
    ensures HasRead(Reactor.Perform(s, step).value, id,
                    bytes + ReadInStep(s, step, id), taken + TakenInStep(s, step, id))
  {
    StepIsGood(s, step);
    if id !in s.conns {
      StrangersReadNothing(s, step, id);
    }
    if id in Reactor.Perform(s, step).value.conns {
      StepReads(s, step, id);
    }
  }

  lemma NextHasRead(ss: seq<System>, steps: seq<Reactor.Step>, m: nat, id: ConnId,
                    bytes: seq<ByteBuffer.Byte>, taken: nat)
    requires Reactor.IsRun(ss, steps) && m < |steps| && id != OWN && HasRead(ss[m], id, bytes, taken)
    ensures HasRead(ss[m + 1], id, bytes + ReadInStep(ss[m], steps[m], id), taken + TakenInStep(ss[m], steps[m], id))
  {
    RunKeepsInvAt(ss, steps, m);
    assert StepsTo(ss, steps, m);
    StepKeepsHasRead(ss[m], steps[m], id, bytes, taken);
  }

  ghost predicate HasReadAt(ss: seq<System>, steps: seq<Reactor.Step>, n: nat, id: ConnId)
    requires n <= |steps| < |ss|
  {
    HasRead(ss[n], id, BytesRead(ss, steps, n, id), BytesTaken(ss, steps, n, id))
  }

  lemma FirstReads(ss: seq<System>, steps: seq<Reactor.Step>, id: ConnId)
    requires Reactor.IsRun(ss, steps)
    ensures HasReadAt(ss, steps, 0, id)
  {
    NobodyAtFirst(ss, steps);
  }

  ghost predicate KeepsReading(ss: seq<System>, steps: seq<Reactor.Step>, m: nat, id: ConnId)
    requires m < |steps| < |ss|
  {
    HasReadAt(ss, steps, m, id) ==> HasReadAt(ss, steps, m + 1, id)
  }

  lemma StepsKeepReading(ss: seq<System>, steps: seq<Reactor.Step>, m: nat, id: ConnId)
    requires Reactor.IsRun(ss, steps) && m < |steps| && id != OWN
    ensures KeepsReading(ss, steps, m, id)
  {
    if HasReadAt(ss, steps, m, id) {
      NextHasRead(ss, steps, m, id, BytesRead(ss, steps, m, id), BytesTaken(ss, steps, m, id));
    }
  }

  lemma {:induction false} HasReadUpTo(ss: seq<System>, steps: seq<Reactor.Step>, n: nat, id: ConnId)
    requires n <= |steps| < |ss| && HasReadAt(ss, steps, 0, id)
    requires forall m :: 0 <= m < |steps| ==> KeepsReading(ss, steps, m, id)
    ensures HasReadAt(ss, steps, n, id)
  {
    if n == 0 {
    } else {
      HasReadUpTo(ss, steps, n - 1, id);
      assert KeepsReading(ss, steps, n - 1, id);
    }
  }

  lemma RunReads(ss: seq<System>, steps: seq<Reactor.Step>, n: nat, id: ConnId)
    requires Reactor.IsRun(ss, steps) && n <= |steps| && id != OWN
    ensures HasReadAt(ss, steps, n, id)
  {
    FirstReads(ss, steps, id);
    forall m | 0 <= m < |steps| {
      StepsKeepReading(ss, steps, m, id);
    }
    HasReadUpTo(ss, steps, n, id);
  }

  /**
   Over every run, what a connection has read is what readFd delivered in the steps that
   handled its read events, in order; its callbacks have taken out as much as they asked for,
   from the front, and the rest is still in the input buffer.
   */
  lemma InputFollowsSteps(ss: seq<System>, steps: seq<Reactor.Step>, n: nat, id: ConnId)
    requires Reactor.IsRun(ss, steps) && n <= |steps| && id in ss[n].conns
    ensures var c := ss[n].conns[id];
            && c.delivered == BytesRead(ss, steps, n, id)
            && ConnectionLaws.IsCut(c.consumed, c.input, BytesRead(ss, steps, n, id), BytesTaken(ss, steps, n, id))
  {
    var c := ss[n].conns[id];
    RunKeepsInvAt(ss, steps, n);
    assert ConnOk(ss[n], id, OWN);
    RunReads(ss, steps, n, id);
    assert HasReadAt(ss, steps, n, id);
    ConnectionLaws.CutAt(c.consumed, c.input, c.delivered);
  }

  /** A read that fails, as with EAGAIN, changes nothing but that the event is done with. */
  lemma FailedReadChangesNothing(s: System, env: Env)
    requires s.phase.Dispatch? && s.phase.active != [] && env.read.Failed?
    requires s.phase.active[0].channel != OWN && s.phase.active[0].channel in s.conns
    requires POLLOUT !in s.phase.active[0].revents
    ensures Reactor.Perform(s, HandleNext(env)) == Ok(s.(phase := Dispatch(s.phase.active[1..])))
  {
  }

  // ---------------------------------------------------------------- what is queued

  /** The functors that user code queues. */
  function ActionFunctors(actions: seq<Action>): seq<Reactor.Functor> {
    if actions == [] then []
    else
      var a := actions[|actions| - 1];
      ActionFunctors(actions[..|actions| - 1]) + if a.Queue? then [User(a.tag)] else []
  }

  /** The functors a step queues: those of user code, and the teardown after an end of stream. */
  function QueuedIn(s: System, step: Reactor.Step): seq<Reactor.Functor> {
    match step
    case HandleNext(env) =>
      if !s.phase.Dispatch? || s.phase.active == [] then []
      else
        var ev := s.phase.active[0];
        if ev.channel == OWN then ActionFunctors(env.actions)
        else if !WantsRead(ev.revents) || env.read.Failed? then []
        else if env.read.bytes == [] then [Destroy(ev.channel)]
        else ActionFunctors(env.actions)
    case RunNext(actions) => ActionFunctors(actions)
    case QueueFromAnyThread(tag) => [User(tag)]
    case _ => []
  }

  function RanIn(s: System, step: Reactor.Step): seq<Reactor.Functor> {
    if step.RunNext? && s.phase.Batch? && s.phase.rest != [] then [s.phase.rest[0]] else []
  }

  /** `s'` has `more` queued behind what waited in `s`, in the same phase. */
  predicate QueuedBehind(s: System, s': System, more: seq<Reactor.Functor>) {
    s'.phase == s.phase && s'.pending == s.pending + more
  }

  lemma {:induction false} ActAllQueues(s: System, actions: seq<Action>)
    ensures ActAll(s, actions).Ok? ==> QueuedBehind(s, ActAll(s, actions).value, ActionFunctors(actions))
  {
    if actions == [] {
      assert s.pending + [] == s.pending;
    } else {
      var front, a := actions[..|actions| - 1], actions[|actions| - 1];
      ActAllQueues(s, front);
      if a.Queue? {
        var more := ActionFunctors(front);
        assert (s.pending + more) + [User(a.tag)] == s.pending + (more + [User(a.tag)]);
      }
    }
  }

  lemma ReadQueues(s: System, ev: Event, env: Env)
    requires ev.channel in s.conns && HandleRead(s, ev.channel, env).Ok?
    ensures QueuedBehind(s, HandleRead(s, ev.channel, env).value,
                         if env.read.Failed? then []
                         else if env.read.bytes == [] then [Destroy(ev.channel)]
                         else ActionFunctors(env.actions))
  {
    if env.read.Delivered? && env.read.bytes != [] {
      var l := LinkOf(s, ev.channel).(conn := Connections.ReadIn(s.conns[ev.channel], env.read.bytes, env.taken));
      ActAllQueues(Put(s, l), env.actions);
    }
  }

  lemma HandleNextQueues(s: System, env: Env)
    requires s.phase.Dispatch? && s.phase.active != []
    ensures var r := Reactor.Perform(s, HandleNext(env));
            r.Ok? ==> QueuedBehind(s.(phase := Dispatch(s.phase.active[1..])), r.value, QueuedIn(s, HandleNext(env)))
  {
    var s1, ev := s.(phase := Dispatch(s.phase.active[1..])), s.phase.active[0];
    if ev.channel == OWN {
      if Accepts(s, HandleNext(env)) && Free(s1, env.accepted) {
        NewConnectionValue(s1, env.accepted, env.actions);
        ActAllQueues(Reactor.Established(s1, env.accepted), env.actions);
      } else {
        ActAllQueues(s1, env.actions);
      }
    } else if WantsRead(ev.revents) && Reactor.Perform(s, HandleNext(env)).Ok? {
      ReadQueues(s1, ev, env);
    }
  }

  lemma RunNextQueues(s: System, actions: seq<Action>)
    requires s.phase.Batch? && s.phase.rest != []
    ensures var r := Reactor.Perform(s, RunNext(actions));
            r.Ok? ==> QueuedBehind(Taken(s), r.value, ActionFunctors(actions))
  {
    match s.phase.rest[0]
    case User(_) => ActAllQueues(Taken(s), actions);
    case Destroy(on) =>
      if Reactor.Perform(s, RunNext(actions)).Ok? {
        ActAllQueues(Put(Taken(s), BeginDestroy(LinkOf(Taken(s), on)).value), actions);
      }
  }

  lemma RunNextMovesOn(s: System, actions: seq<Action>)
    requires s.phase.Batch? && s.phase.rest != []
    ensures var r := Reactor.Perform(s, RunNext(actions));
            r.Ok? ==> [s.phase.rest[0]] + Waiting(r.value) == Waiting(s) + ActionFunctors(actions)
  {
    RunNextQueues(s, actions);
    assert s.phase.rest == [s.phase.rest[0]] + s.phase.rest[1..];
  }

  lemma HandleNextMovesOn(s: System, env: Env)
    requires s.phase.Dispatch? && s.phase.active != []
    ensures var r := Reactor.Perform(s, HandleNext(env));
            r.Ok? ==> Waiting(r.value) == Waiting(s) + QueuedIn(s, HandleNext(env))
  {
    HandleNextQueues(s, env);
  }

  /** A step runs the first functor that waits or none, and queues its own behind the others. */
  lemma StepQueues(s: System, step: Reactor.Step)
    ensures var r := Reactor.Perform(s, step);
            r.Ok? ==> RanIn(s, step) + Waiting(r.value) == Waiting(s) + QueuedIn(s, step)
  {
    match step
    case HandleNext(env) =>
      if s.phase.Dispatch? && s.phase.active != [] {
        HandleNextMovesOn(s, env);
      }
    case RunNext(actions) =>
      if s.phase.Batch? && s.phase.rest != [] {
        RunNextMovesOn(s, actions);
      }
    case _ =>
  }

  function Queued(ss: seq<System>, steps: seq<Reactor.Step>, n: nat): seq<Reactor.Functor>
    requires n <= |steps| < |ss|
  {
    if n == 0 then [] else Queued(ss, steps, n - 1) + QueuedIn(ss[n - 1], steps[n - 1])
  }

  function Ran(ss: seq<System>, steps: seq<Reactor.Step>, n: nat): seq<Reactor.Functor>
    requires n <= |steps| < |ss|
  {
    if n == 0 then [] else Ran(ss, steps, n - 1) + RanIn(ss[n - 1], steps[n - 1])
  }

  lemma QueueMovesOn<F>(ran: seq<F>, now: seq<F>, waiting: seq<F>, waiting': seq<F>,
                        first: seq<F>, queued: seq<F>, more: seq<F>)
    requires ran + waiting == first + queued && now + waiting' == waiting + more
    ensures (ran + now) + waiting' == first + (queued + more)
  {
    assert (ran + now) + waiting' == ran + (now + waiting');
    assert ran + (waiting + more) == (ran + waiting) + more;
    assert (first + queued) + more == first + (queued + more);
  }

  lemma NextQueues(ss: seq<System>, steps: seq<Reactor.Step>, m: nat)
    requires Reactor.IsRun(ss, steps) && m < |steps|
    ensures RanIn(ss[m], steps[m]) + Waiting(ss[m + 1]) == Waiting(ss[m]) + QueuedIn(ss[m], steps[m])
  {
    assert StepsTo(ss, steps, m);
    StepQueues(ss[m], steps[m]);
  }

  /**
   Over every run of the reactor, the functors that have run, followed by those that wait, are
   the functors queued: by user code, by other threads, and one teardown for each end of
   stream, each run once and in the order of queueing.
   */
  lemma {:induction false} FunctorsRunInOrder(ss: seq<System>, steps: seq<Reactor.Step>, n: nat)
    requires Reactor.IsRun(ss, steps) && n <= |steps|
    ensures Ran(ss, steps, n) + Waiting(ss[n]) == ss[0].pending + Queued(ss, steps, n)
  {
    if n == 0 {
      assert Waiting(ss[0]) == ss[0].pending;
    } else {
      FunctorsRunInOrder(ss, steps, n - 1);
      NextQueues(ss, steps, n - 1);
      QueueMovesOn(Ran(ss, steps, n - 1), RanIn(ss[n - 1], steps[n - 1]), Waiting(ss[n - 1]), Waiting(ss[n]),
                   ss[0].pending, Queued(ss, steps, n - 1), QueuedIn(ss[n - 1], steps[n - 1]));
    }
  }

  // ---------------------------------------------------------------- what poll and accept bring

  /** Event `k` is that of a slot with something to report. */
  predicate Reports(s: System, revents: seq<Mask>, ev: Event) {
    && ev.slot < |s.slots| && |revents| == |s.slots| && revents[ev.slot] != {}
    && ev.revents == revents[ev.slot] && ev.fd == Decode(s.slots[ev.slot].fd)
    && ev.fd in s.channels && ev.channel == s.channels[ev.fd]
  }

  /** One event for each slot that poll reports, and no other, in slot order. */
  ghost predicate ReportsAll(s: System, revents: seq<Mask>, active: seq<Event>) {
    && (forall k :: 0 <= k < |active| ==> Reports(s, revents, active[k]))
    && (forall i, j :: 0 <= i < j < |active| ==> active[i].slot < active[j].slot)
    && (forall i :: 0 <= i < |revents| && revents[i] != {} ==> exists k :: 0 <= k < |active| && active[k].slot == i)
  }

  lemma ReadySlotsReport(s: System, revents: seq<Mask>, t: Slots, k: nat)
    requires |revents| == |s.slots| && t == WithRevents(s.slots, revents) && k < |Ready(t)|
    requires Decode(t[Ready(t)[k]].fd) in s.channels
    ensures Reports(s, revents, ActiveEvents(s, t, Ready(t))[k])
  {
  }

  lemma ActiveReportsAll(s: System, revents: seq<Mask>, t: Slots)
    requires |revents| == |s.slots| && t == WithRevents(s.slots, revents)
    requires forall k :: 0 <= k < |Ready(t)| ==> Decode(t[Ready(t)[k]].fd) in s.channels
    ensures ReportsAll(s, revents, ActiveEvents(s, t, Ready(t)))
  {
    var ready := Ready(t);
    var active := ActiveEvents(s, t, ready);
    ReadyIsExact(t, |t|);
    forall k | 0 <= k < |active| {
      ReadySlotsReport(s, revents, t, k);
    }
    forall i | 0 <= i < |revents| && revents[i] != {}
      ensures exists k :: 0 <= k < |active| && active[k].slot == i
    {
      assert t[i].revents != {};
      var k :| 0 <= k < |ready| && ready[k] == i;
      assert active[k].slot == i;
    }
  }

  /** Dispatch gets exactly the events of the slots that poll reports; else only revents change. */
  lemma PollReportsAll(s: System, revents: seq<Mask>)
    requires Inv(s) && s.phase.AtPoll? && PollContract(s.slots, revents)
    ensures Poll(s, Returned(revents)).Ok?
    ensures var s' := Poll(s, Returned(revents)).value;
            && s'.phase.Dispatch? && ReportsAll(s, revents, s'.phase.active)
            && s' == s.(slots := s'.slots, phase := s'.phase) && |s'.slots| == |s.slots|
            && (forall i :: 0 <= i < |s.slots| ==> s'.slots[i] == s.slots[i].(revents := revents[i]))
  {
    var t := WithRevents(s.slots, revents);
    ActiveEventsAreOk(s, revents);
    assert forall k :: 0 <= k < |Ready(t)| ==> t[Ready(t)[k]].fd >= 0;
    ActiveReportsAll(s, revents, t);
  }

  /** A poll that fails brings nothing and changes nothing. */
  lemma FailedPollBringsNothing(s: System)
    requires s.phase.AtPoll?
    ensures Poll(s, PollOutcome.Failed) == Ok(s.(phase := Dispatch([])))
  {
  }

  /** All but the connections' own values, their slots and the queue. */
  predicate SameShape(s: System, s': System) {
    && s'.conns.Keys == s.conns.Keys && s'.nextConnId == s.nextConnId && s'.connections == s.connections
    && s'.channels == s.channels && s'.own == s.own && s'.listenFd == s.listenFd && s'.phase == s.phase
  }

  lemma ActKeepsShape(s: System, a: Action)
    requires a.SendTo? && a.id in s.conns ==> LinkOk(LinkOf(s, a.id))
    requires Act(s, a).Ok?
    ensures SameShape(s, Act(s, a).value)
  {
    match a
    case SendTo(id, message, written) => SendIsTame(LinkOf(s, id), message, written);
    case _ =>
  }

  /** User code sends, shuts down and queues; it changes nothing else. */
  lemma {:induction false} ActAllKeepsShape(s: System, actions: seq<Action>)
    requires Inv(s) && ActAll(s, actions).Ok?
    ensures SameShape(s, ActAll(s, actions).value)
  {
    if actions == [] {
    } else {
      var front, a := actions[..|actions| - 1], actions[|actions| - 1];
      ActAllKeepsShape(s, front);
      ActAllKeepsInv(s, front, OWN);
      if a.SendTo? && a.id in ActAll(s, front).value.conns {
        InvGivesLinkOk(ActAll(s, front).value, a.id, OWN);
      }
      ActKeepsShape(ActAll(s, front).value, a);
    }
  }

  lemma NextIdIsNew(s: System)
    requires Inv(s)
    ensures s.nextConnId !in s.conns
  {
    assert s.nextConnId in s.conns ==> ConnOk(s, s.nextConnId, OWN);
  }

  lemma AcceptedShape(s: System, fd: nat, actions: seq<Action>)
    requires Inv(s) && NewConnection(s, fd, actions).Ok?
    ensures SameShape(Reactor.Established(s, fd), NewConnection(s, fd, actions).value)
  {
    NewConnectionValue(s, fd, actions);
    EstablishedKeepsInv(s, fd);
    ActAllKeepsShape(Reactor.Established(s, fd), actions);
  }

  /** A step that accepts adds one connection, on the accepted descriptor, and registers it. */
  lemma AcceptAddsOne(s: System, env: Env)
    requires Inv(s) && Accepts(s, HandleNext(env)) && Reactor.Perform(s, HandleNext(env)).Ok?
    ensures var s', id := Reactor.Perform(s, HandleNext(env)).value, s.nextConnId;
            && id !in s.conns && s'.conns.Keys == s.conns.Keys + {id} && s'.nextConnId == id + 1
            && s'.conns[id].fd == env.accepted && s'.connections == s.connections + {id}
            && s'.channels == s.channels[env.accepted as nat := id]
  {
    var s1 := s.(phase := Dispatch(s.phase.active[1..]));
    NextIdIsNew(s);
    FirstIsHandled(s);
    AcceptMakes(s1, env.accepted, env.actions);
    AcceptedShape(s1, env.accepted, env.actions);
  }
}
