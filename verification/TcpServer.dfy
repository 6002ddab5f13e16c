/**
 TcpConnection and TcpServer as the objects they are: fields updated in place, a channel that
 writes through to the Poller, two buffers, a socket.  Every method is proved to do to its
 object exactly what the function of the same name in `Connections` does to a value.
 */
module Tcp {

  import opened ByteBuffer
  import opened Connections
  import opened EventLoops
  import opened Outcomes
  import opened Polling

  datatype Functor = Destroy(conn: TcpConnection) | User(tag: nat)

  /** The kernel's side of a connected socket: the bytes it took, the calls of shutdownWrite. */
  class Socket {
    var wire: seq<Byte>
    var halfCloses: nat

    constructor ()
      ensures wire == [] && halfCloses == 0
    {
      wire, halfCloses := [], 0;
    }

    /** `::write` takes a prefix of the data, or fails. */
    method Write(data: seq<Byte>, outcome: int) returns (n: int)
      requires -1 <= outcome <= |data|
      modifies this`wire
      ensures n == outcome
      ensures wire == old(wire) + if outcome >= 0 then data[..outcome] else []
    {
      n := outcome;
      if outcome >= 0 {
        wire := wire + data[..outcome];
      }
    }

    method ShutdownWrite()
      modifies this`halfCloses
      ensures halfCloses == old(halfCloses) + 1
    {
      halfCloses := halfCloses + 1;
    }
  }

  class TcpConnection {
    const loop: EventLoop<Functor>
    const name: nat
    const channel: Channel
    const socket: Socket
    const inputBuffer: Buffer
    const outputBuffer: Buffer
    var state: ConnState
    ghost var accepted: seq<Byte>
    ghost var delivered: seq<Byte>
    ghost var consumed: seq<Byte>
    ghost var wireAtHalfClose: nat
    ghost var undrainedHalfClose: bool
    ghost var closes: nat
    ghost var destroys: nat
    ghost var callbacks: seq<bool>

    ghost predicate Valid()
      reads this, inputBuffer, outputBuffer
    {
      inputBuffer.storage != outputBuffer.storage && inputBuffer.Valid() && outputBuffer.Valid()
    }

    ghost function View(): Link<Channel>
      requires Valid()
      reads this, channel, socket, inputBuffer, inputBuffer.storage, outputBuffer, outputBuffer.storage, loop.poller
    {
      Link(channel,
           Conn(channel.fd, state, channel.index >= 0, channel.events, inputBuffer.Content(), outputBuffer.Content(),
                socket.wire, accepted, delivered, consumed, socket.halfCloses, wireAtHalfClose, undrainedHalfClose,
                closes, destroys, callbacks),
           loop.poller.pollfds, loop.poller.channels)
    }

    /** In order with the poller: the channel is new to it or known to it. */
    ghost predicate InOrder()
      reads channel, loop.poller, loop.poller.channels.Values`index, loop.poller.channels.Values`events
    {
      channel.loop == loop.poller && loop.poller.Valid() && channel.Updatable()
    }

    constructor (loop: EventLoop<Functor>, name: nat, fd: nat)
      ensures Valid() && fresh(channel) && fresh(socket) && fresh(inputBuffer) && fresh(outputBuffer)
      ensures fresh(inputBuffer.storage) && fresh(outputBuffer.storage)
      ensures this.loop == loop && this.name == name && channel.loop == loop.poller
      ensures View() == Link(channel, NewConn(fd), loop.poller.pollfds, loop.poller.channels)
    {
      this.loop, this.name := loop, name;
      channel := new Channel(loop.poller, fd);
      socket := new Socket();
      inputBuffer := new Buffer();
      outputBuffer := new Buffer();
      state := Connecting;
      accepted, delivered, consumed, callbacks := [], [], [], [];
      wireAtHalfClose, undrainedHalfClose, closes, destroys := 0, false, 0, 0;
    }

    // The four mask operations of the channel, seen from the connection.

    method EnableReading()
      requires Valid() && InOrder()
      modifies channel, loop.poller
      ensures Valid() && InOrder() && SetEvents(old(View()), READ_EVENT) == Ok(View())
    {
      channel.EnableReading();
    }

    method EnableWriting()
      requires Valid() && InOrder()
      modifies channel, loop.poller
      ensures Valid() && InOrder() && SetEvents(old(View()), WRITE_EVENT) == Ok(View())
    {
      channel.EnableWriting();
    }

    method DisableWriting()
      requires Valid() && InOrder()
      modifies channel, loop.poller
      ensures Valid() && InOrder() && SetEvents(old(View()), old(channel.events) - WRITE_EVENT) == Ok(View())
    {
      channel.DisableWriting();
    }

    method DisableAll()
      requires Valid() && InOrder()
      modifies channel, loop.poller
      ensures Valid() && InOrder() && SetEvents(old(View()), NONE_EVENT) == Ok(View())
    {
      channel.DisableAll();
    }

    /** `calls` is what the connection callback does to its connection. */
    method ConnectEstablished(calls: seq<Connections.Op>)
      requires Valid() && InOrder()
      requires state.Connecting? && forall i :: 0 <= i < |calls| ==> UserCall(calls[i])
      modifies this, channel, socket, outputBuffer, outputBuffer.storage, loop.poller
      ensures Valid() && InOrder()
      ensures var l := Connections.ConnectEstablished(old(View())); l.Ok? && UserCalls(l.value, calls) == Ok(View())
    {
      BeginEstablished();
      ConnectionCallback(calls);
    }

    method BeginEstablished()
      requires Valid() && InOrder()
      requires state.Connecting?
      modifies this`state, this`callbacks, channel, loop.poller
      ensures Valid() && InOrder() && channel.index >= 0
      ensures Connections.ConnectEstablished(old(View())) == Ok(View())
    {
      state := Connected;
      EnableReading();
      Announce();
    }

    /** What a callback of the user does to the connection it is given. */
    method ConnectionCallback(calls: seq<Connections.Op>)
      requires Valid() && InOrder() && channel.index >= 0
      requires forall i :: 0 <= i < |calls| ==> UserCall(calls[i])
      modifies this, channel, socket, outputBuffer, outputBuffer.storage, loop.poller
      ensures Valid() && InOrder() && channel.index >= 0
      ensures UserCalls(old(View()), calls) == Ok(View())
    {
      ghost var l := View();
      for i := 0 to |calls|
        invariant Valid() && InOrder() && channel.index >= 0
        invariant outputBuffer.storage == old(outputBuffer.storage) || fresh(outputBuffer.storage)
        invariant UserCalls(l, calls[..i]) == Ok(View())
      {
        assert calls[..i + 1][..i] == calls[..i];
        MakeCall(calls[i]);
      }
      assert calls[..|calls|] == calls;
    }

    method MakeCall(call: Connections.Op)
      requires Valid() && InOrder() && channel.index >= 0 && UserCall(call)
      modifies this, channel, socket, outputBuffer, outputBuffer.storage, loop.poller
      ensures Valid() && InOrder() && channel.index >= 0
      ensures outputBuffer.storage == old(outputBuffer.storage) || fresh(outputBuffer.storage)
      ensures Perform(old(View()), call) == Ok(View())
    {
      match call
      case SendMessage(message, written) => Send(message, written);
      case ShutdownCalled => Shutdown();
    }

    /** The asserts of the source are the requires; the callback finds a connection it cannot use. */
    method ConnectDestroyed(calls: seq<Connections.Op>)
      requires Valid() && InOrder() && channel.index >= 0
      requires state.Connected? || state.Disconnecting?
      requires forall i :: 0 <= i < |calls| ==> UserCall(calls[i])
      modifies this, channel, socket, outputBuffer, outputBuffer.storage, loop.poller, loop.poller.channels.Values
      ensures Valid() && loop.poller.Valid() && channel.fd !in loop.poller.channels
      ensures var l := Connections.BeginDestroy(old(View())); l.Ok? && RemoveChannel(l.value) == Ok(View())
    {
      ghost var l := View();
      assert Linked(l) by { loop.poller.IndexIsPosition({}); }
      DestroyedIsRemovable(l);
      BeginDestroy();
      UserCallsIgnored(View(), calls);
      ConnectionCallback(calls);
      Unregister();
    }

    method Unregister()
      requires Valid() && InOrder() && RemoveChannel(View()).Ok?
      modifies loop.poller, loop.poller.channels.Values
      ensures Valid() && loop.poller.Valid() && channel.fd !in loop.poller.channels
      ensures RemoveChannel(old(View())) == Ok(View())
    {
      assert Find(loop.poller.pollfds, channel.fd) == channel.index by { loop.poller.IndexIsPosition({}); }
      loop.poller.RemoveChannel(channel);
    }

    method BeginDestroy()
      requires Valid() && InOrder() && channel.index >= 0
      requires state.Connected? || state.Disconnecting?
      modifies this`state, this`destroys, this`callbacks, channel, loop.poller
      ensures Valid() && InOrder()
      ensures Connections.BeginDestroy(old(View())) == Ok(View())
    {
      ghost var l := View();
      Disconnect();
      assert Connections.BeginDestroy(l) == Ok(Connections.Announce(View()));
      Announce();
    }

    method Disconnect()
      requires Valid() && InOrder() && channel.index >= 0
      modifies this`state, this`destroys, channel, loop.poller
      ensures Valid() && InOrder()
      ensures var c := old(View()).conn.(state := Disconnected, destroys := old(destroys) + 1);
              SetEvents(old(View()).(conn := c), NONE_EVENT) == Ok(View())
    {
      SetDisconnected();
      DisableAll();
    }

    method SetDisconnected()
      requires Valid()
      modifies this`state, this`destroys
      ensures View() == old(View()).(conn := old(View()).conn.(state := Disconnected, destroys := old(destroys) + 1))
    {
      state, destroys := Disconnected, destroys + 1;
    }

    /** connectionCallback_ is entered: the user sees connected(). */
    method Announce()
      requires Valid()
      modifies this`callbacks
      ensures View() == Connections.Announce(old(View()))
    {
      callbacks := callbacks + [state.Connected?];
    }

    method HandleClose(server: TcpServer)
      requires Valid() && InOrder() && channel.index >= 0
      requires state.Connected? || state.Disconnecting?
      requires server.loop == loop && loop.InUserCode()
      requires name in server.connections
      modifies this`closes, channel, loop.poller, server`connections, loop
      ensures Valid() && InOrder()
      ensures Connections.BeginClose(old(View())) == Ok(View())
      ensures server.connections == old(server.connections) - {name}
      ensures loop.InUserCode() && loop.pendingFunctors == old(loop.pendingFunctors) + [Destroy(this)]
    {
      BeginClose();
      CloseCallback(server);
    }

    /** closeCallback_, which is TcpServer::removeConnection: the connection itself is not touched. */
    method CloseCallback(server: TcpServer)
      requires Valid() && InOrder()
      requires server.loop == loop && loop.InUserCode() && name in server.connections
      modifies server`connections, loop
      ensures Valid() && InOrder() && View() == old(View())
      ensures server.connections == old(server.connections) - {name}
      ensures loop.InUserCode() && loop.pendingFunctors == old(loop.pendingFunctors) + [Destroy(this)]
    {
      server.RemoveConnection(this);
    }

    method BeginClose()
      requires Valid() && InOrder() && channel.index >= 0
      requires state.Connected? || state.Disconnecting?
      modifies this`closes, channel, loop.poller
      ensures Valid() && InOrder()
      ensures Connections.BeginClose(old(View())) == Ok(View())
    {
      CountClose();
      DisableAll();
    }

    /** Only the history changes. */
    ghost method CountClose()
      requires Valid()
      modifies this`closes
      ensures View() == old(View()).(conn := old(View()).conn.(closes := old(closes) + 1))
    {
      closes := closes + 1;
    }

    /**
     handleRead: what readFd returned tells the message callback, the close, and the error
     apart.  The callback takes `taken` bytes out of the input buffer and makes `calls`.
     */
    method HandleRead(result: ReadResult, server: TcpServer, taken: nat, calls: seq<Connections.Op>) returns (n: int)
      requires Valid() && InOrder() && channel.index >= 0
      requires state.Connected? || state.Disconnecting?
      requires server.loop == loop && loop.InUserCode()
      requires name in server.connections
      requires result.Delivered? ==>
                 && |result.bytes| <= inputBuffer.WritableBytes() + EXTRA_SIZE
                 && taken <= inputBuffer.ReadableBytes() + |result.bytes|
      requires forall i :: 0 <= i < |calls| ==> UserCall(calls[i])
      modifies this, channel, socket, loop.poller, server`connections, loop
      modifies inputBuffer, inputBuffer.storage, outputBuffer, outputBuffer.storage
      ensures Valid() && InOrder()
      ensures if result.Delivered? then n == |result.bytes| else n < 0
      ensures n < 0 ==> View() == old(View())
      ensures n == 0 ==> Connections.BeginClose(old(View())) == Ok(View())
      ensures n > 0 ==>
                var l := old(View());
                UserCalls(l.(conn := ReadIn(l.conn, result.bytes, taken)), calls) == Ok(View())
      ensures server.connections == old(server.connections) - if n == 0 then {name} else {}
      ensures loop.pendingFunctors == old(loop.pendingFunctors) + if n == 0 then [Destroy(this)] else []
    {
      n := FillInput(result);
      if n > 0 {
        MessageCallback(taken, calls);
      } else if n == 0 {
        HandleClose(server);
      }
    }

    /** readFd into the input buffer. */
    method FillInput(result: ReadResult) returns (n: int)
      requires Valid()
      requires result.Delivered? ==> |result.bytes| <= inputBuffer.WritableBytes() + EXTRA_SIZE
      modifies this`delivered, inputBuffer, inputBuffer.storage
      ensures Valid()
      ensures if result.Delivered? then n == |result.bytes| else n < 0
      ensures n <= 0 ==> View() == old(View())
      ensures n > 0 ==> View() == old(View()).(conn := Fill(old(View()).conn, result.bytes))
    {
      var savedErrno;
      n, savedErrno := inputBuffer.ReadFd(result);
      if n > 0 {
        delivered := delivered + result.bytes;
      }
      assert n == 0 ==> inputBuffer.Content() == old(inputBuffer.Content());
    }

    method MessageCallback(taken: nat, calls: seq<Connections.Op>)
      requires Valid() && InOrder() && channel.index >= 0 && taken <= inputBuffer.ReadableBytes()
      requires forall i :: 0 <= i < |calls| ==> UserCall(calls[i])
      modifies this, channel, socket, inputBuffer, outputBuffer, outputBuffer.storage, loop.poller
      ensures Valid() && InOrder()
      ensures var l := old(View()); UserCalls(l.(conn := TakeOut(l.conn, taken)), calls) == Ok(View())
    {
      RetrieveInput(taken);
      ConnectionCallback(calls);
    }

    /** The callback retrieves from the buffer it is handed. */
    method RetrieveInput(taken: nat)
      requires Valid() && taken <= inputBuffer.ReadableBytes()
      modifies this`consumed, inputBuffer
      ensures Valid() && View() == old(View()).(conn := TakeOut(old(View()).conn, taken))
    {
      consumed := consumed + inputBuffer.Content()[..taken];
      inputBuffer.Retrieve(taken);
    }

    method Send(message: seq<Byte>, written: int)
      requires Valid() && InOrder() && (state.Connected? ==> channel.index >= 0)
      requires -1 <= written <= |message|
      modifies this, channel, socket, outputBuffer, outputBuffer.storage, loop.poller
      ensures Valid() && InOrder() && (old(channel.index) >= 0 ==> channel.index >= 0)
      ensures outputBuffer.storage == old(outputBuffer.storage) || fresh(outputBuffer.storage)
      ensures Connections.Send(old(View()), message, written) == Ok(View())
    {
      if state.Connected? {
        SendInLoop(message, written);
      }
    }

    method SendInLoop(message: seq<Byte>, written: int)
      requires Valid() && InOrder() && channel.index >= 0
      requires -1 <= written <= |message|
      modifies this, channel, socket, outputBuffer, outputBuffer.storage, loop.poller
      ensures Valid() && InOrder() && (old(channel.index) >= 0 ==> channel.index >= 0)
      ensures outputBuffer.storage == old(outputBuffer.storage) || fresh(outputBuffer.storage)
      ensures Connections.SendInLoop(old(View()), message, written) == Ok(View())
    {
      var nwrote := TakeMessage(message, written);
      if nwrote < |message| && !channel.IsWriting() {
        EnableWriting();
      }
    }

    /** The direct write, if the queue is empty, and the append of what it leaves. */
    method TakeMessage(message: seq<Byte>, written: int) returns (nwrote: int)
      requires Valid() && -1 <= written <= |message|
      modifies this`accepted, socket, outputBuffer, outputBuffer.storage
      ensures outputBuffer.storage == old(outputBuffer.storage) || fresh(outputBuffer.storage)
      ensures Valid() && 0 <= nwrote == DirectlyWritten(old(View()).conn, written) <= |message|
      ensures View() == old(View()).(conn := Take(old(View()).conn, message, nwrote))
    {
      ghost var c := View().conn;
      accepted := accepted + message;
      nwrote := 0;
      if !channel.IsWriting() && outputBuffer.ReadableBytes() == 0 {
        nwrote := socket.Write(message, written);
        if nwrote < 0 {
          nwrote := 0;
        }
      }
      assert socket.wire == c.wire + message[..nwrote];
      if nwrote < |message| {
        outputBuffer.Append(message[nwrote..]);
      } else {
        assert message[nwrote..] == [];
      }
    }

    method Shutdown()
      requires Valid()
      modifies this, socket
      ensures Valid() && View() == Connections.Shutdown(old(View()))
    {
      if state.Connected? {
        state := Disconnecting;
        ShutdownInLoop();
      }
    }

    method ShutdownInLoop()
      requires Valid()
      modifies this, socket
      ensures Valid() && state == old(state)
      ensures View() == old(View()).(conn := Connections.ShutdownInLoop(old(View()).conn))
    {
      if !channel.IsWriting() {
        socket.ShutdownWrite();
        wireAtHalfClose := |socket.wire|;
        undrainedHalfClose := undrainedHalfClose || outputBuffer.Content() != [];
      }
    }

    method HandleWrite(written: int)
      requires Valid() && InOrder() && channel.index >= 0
      requires -1 <= written <= outputBuffer.ReadableBytes()
      modifies this, channel, socket, outputBuffer, loop.poller
      ensures Valid() && InOrder()
      ensures Connections.HandleWrite(old(View()), written) == Ok(View())
    {
      if channel.IsWriting() {
        var n := WriteOutput(written);
        if n > 0 {
          if outputBuffer.ReadableBytes() == 0 {
            AllWritten();
          }
        }
      }
    }

    /** The queue has run empty: stop writing, and shut down if that was waiting for it. */
    method AllWritten()
      requires Valid() && InOrder()
      modifies this, channel, socket, loop.poller
      ensures Valid() && InOrder()
      ensures var r := SetEvents(old(View()), old(channel.events) - WRITE_EVENT);
              && r.Ok?
              && View() == if old(state).Disconnecting?
                           then r.value.(conn := Connections.ShutdownInLoop(r.value.conn)) else r.value
    {
      DisableWriting();
      if state.Disconnecting? {
        ShutdownInLoop();
      }
    }

    /** `::write` from peek(), and the retrieve of what went out. */
    method WriteOutput(written: int) returns (n: int)
      requires Valid() && -1 <= written <= outputBuffer.ReadableBytes()
      modifies socket, outputBuffer
      ensures Valid() && n == written
      ensures n <= 0 ==> View() == old(View())
      ensures n > 0 ==>
                var c := old(View()).conn;
                View() == old(View()).(conn := c.(wire := c.wire + c.output[..n], output := c.output[n..]))
    {
      var data := outputBuffer.storage[outputBuffer.readerIndex..outputBuffer.writerIndex];
      n := socket.Write(data, written);
      if n > 0 {
        outputBuffer.Retrieve(n);
      } else {
        assert socket.wire == old(socket.wire) + [];
      }
    }
  }

  class TcpServer {
    const loop: EventLoop<Functor>
    var nextConnId: nat
    var connections: map<nat, TcpConnection>

    /** Names in use were given out before, so the next one is new. */
    ghost predicate Valid()
      reads this
    {
      forall name :: name in connections ==> name < nextConnId && connections[name].name == name
    }

    constructor (loop: EventLoop<Functor>)
      ensures Valid() && this.loop == loop && nextConnId == 1 && connections == map[]
    {
      this.loop := loop;
      nextConnId, connections := 1, map[];
    }

    method NewConnection(fd: nat, calls: seq<Connections.Op>) returns (conn: TcpConnection)
      requires Valid() && loop.poller.Valid() && fd !in loop.poller.channels
      requires forall i :: 0 <= i < |calls| ==> UserCall(calls[i])
      modifies this, loop.poller
      ensures Valid() && fresh(conn) && conn.Valid() && conn.loop == loop && conn.name == old(nextConnId)
      ensures loop.poller.Valid() && conn.channel.Updatable()
      ensures conn.name !in old(connections)
      ensures nextConnId == old(nextConnId) + 1 && connections == old(connections)[conn.name := conn]
      ensures var l := Connections.ConnectEstablished(
                         Link(conn.channel, NewConn(fd), old(loop.poller.pollfds), old(loop.poller.channels)));
              l.Ok? && UserCalls(l.value, calls) == Ok(conn.View())
    {
      var connName := nextConnId;
      nextConnId := nextConnId + 1;
      conn := new TcpConnection(loop, connName, fd);
      connections := connections[connName := conn];
      conn.ConnectEstablished(calls);
    }

    method RemoveConnection(conn: TcpConnection)
      requires conn.name in connections
      requires loop.InUserCode()
      modifies this`connections, loop
      ensures old(Valid()) ==> Valid()
      ensures connections == old(connections) - {conn.name}
      ensures loop.InUserCode() && loop.protocol == QueueCall(old(loop.protocol), LOOP_THREAD, Destroy(conn))
      ensures loop.pendingFunctors == old(loop.pendingFunctors) + [Destroy(conn)]
    {
      connections := connections - {conn.name};
      loop.QueueInLoop(LOOP_THREAD, Destroy(conn));
    }
  }
}
