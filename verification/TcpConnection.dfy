/** The connection object (muduox/net/tcp/TcpConnection.cpp) over its array buffers, its channel
    and the poller: every method does exactly what the function of the same name says. */
module TcpConnectionModel {
  import opened Prelude
  import opened EpollModel
  import opened BufferModel
  import opened Spec = ConnectionStream

  datatype ReadOutcome = Message | PeerClosed | ReadFailed

  class TcpConnection {
    const channel: Channel
    const inputBuffer: Buffer
    const outputBuffer: Buffer
    var state: State
    var socketOpen: bool
    ghost var wire: seq<Byte>
    ghost var admitted: seq<Byte>
    ghost var finAt: Option<nat>

    ghost predicate Valid()
      reads this, inputBuffer, inputBuffer.store, outputBuffer, outputBuffer.store
    {
      && inputBuffer != outputBuffer && inputBuffer.store != outputBuffer.store
      && inputBuffer.Valid() && outputBuffer.Valid()
    }

    ghost function View(): Conn
      requires Valid()
      reads this, channel, inputBuffer, inputBuffer.store, outputBuffer, outputBuffer.store
    {
      Conn(state, channel.interest, outputBuffer.Contents(), wire, admitted, finAt)
    }

    /** Nothing but the output side of the connection and its registration has changed. */
    twostate predicate OutputOnly()
      reads this, channel, channel.poller, outputBuffer
    {
      && (outputBuffer.store == old(outputBuffer.store) || fresh(outputBuffer.store))
      && socketOpen == old(socketOpen)
      && (old(channel.Registered()) ==> channel.Registered())
    }

    constructor (poller: EpollPoller, fd: Fd)
      ensures Valid() && fresh(channel) && channel.poller == poller && channel.fd == fd && socketOpen
      ensures View() == Conn(Connecting, NO_EVENT, [], [], [], None)
      ensures channel.handlers == {OnRead, OnWrite, OnClose, OnError}
    {
      channel := new Channel(poller, fd);
      inputBuffer := new Buffer();
      outputBuffer := new Buffer();
      state, socketOpen := Connecting, true;
      wire, admitted, finAt := [], [], None;
      new;
      channel.SetCallback(OnRead);
      channel.SetCallback(OnWrite);
      channel.SetCallback(OnClose);
      channel.SetCallback(OnError);
    }

    /** The connection callback runs next, with the connection up. */
    method ConnectEstablished()
      requires Valid()
      modifies this, channel, channel.poller
      ensures Valid() && View() == old(View()).(state := Connected, interest := old(channel.interest).(reading := true))
      ensures old(channel.Free()) ==> channel.Registered()
      ensures socketOpen == old(socketOpen)
    {
      state := Connected;
      channel.EnableReading();
    }

    method ConnectDestroyed()
      requires Valid()
      modifies this, channel, channel.poller
      ensures Valid() && View() == old(View()).(interest := NO_EVENT) && !socketOpen
      ensures old(channel.Registered()) ==> channel.Free() && channel.fd !in channel.poller.channels
    {
      channel.DisableAll();
      channel.Remove();
      socketOpen := false;
    }

    method HandleRead(kernel: ReadResult) returns (r: ReadOutcome)
      requires Valid()
      requires kernel.Received? ==> |kernel.data| <= inputBuffer.WritableBytes() + EXTRA_SIZE
      modifies this, inputBuffer, inputBuffer.store
      ensures Valid()
      ensures inputBuffer.Contents() ==
        old(inputBuffer.Contents()) + (if kernel.Received? then kernel.data else [])
      ensures r == if kernel.Failed? then ReadFailed else if kernel.data == [] then PeerClosed else Message
      ensures View() == if r.Message? then old(View()) else Closed(old(View()))
    {
      var n, errno := inputBuffer.ReadFd(kernel);
      if n > 0 {
        r := Message;
      } else {
        r := if n == 0 then PeerClosed else ReadFailed;
        HandleClose();
      }
    }

    /** The connection callback runs next, with the connection down. */
    method HandleClose()
      requires Valid()
      modifies this`state
      ensures Valid() && View() == Closed(old(View()))
    {
      state := Disconnected;
    }

    /** calls are the public calls that take effect while the write-complete callback runs: its own,
        and stops by other threads. */
    method HandleWrite(n: int, calls: seq<Call>) returns (r: WriteOutcome)
      requires Valid() && n <= outputBuffer.ReadableBytes() && forall call <- calls :: call.Legal()
      modifies this, channel, channel.poller, outputBuffer, outputBuffer.store
      ensures Valid() && OutputOnly()
      ensures (View(), r) == Spec.HandleWrite(old(View()), n, calls)
      ensures old(channel.interest.writing) && n <= 0 ==> state == Disconnected
    {
      r := WriteToSocket(n);
      if r.Drained? {
        RunCallback(calls);
        if state == Disconnecting {
          ShutdownWrite();
        }
      } else if r.SendFailed? {
        HandleClose();
      }
    }

    method WriteToSocket(n: int) returns (r: WriteOutcome)
      requires Valid() && n <= outputBuffer.ReadableBytes()
      modifies this, channel, channel.poller, outputBuffer, outputBuffer.store
      ensures Valid() && OutputOnly() && (View(), r) == WriteSome(old(View()), n)
    {
      if !channel.interest.writing {
        return NotWriting;
      }
      if n <= 0 {
        return SendFailed;
      }
      var bytes := outputBuffer.Peek();
      wire := wire + bytes[..n];
      outputBuffer.Retrieve(n);
      if outputBuffer.ReadableBytes() != 0 {
        return Partial;
      }
      channel.DisableWriting();
      return Drained;
    }

    method RunCallback(calls: seq<Call>)
      requires Valid() && forall call <- calls :: call.Legal()
      modifies this, channel, channel.poller, outputBuffer, outputBuffer.store
      ensures Valid() && OutputOnly() && View() == RunCalls(old(View()), calls)
      decreases |calls|
    {
      if calls == [] {
        return;
      }
      assert calls[0] in calls;
      match calls[0] {
        case CallSend(data, n) => var task := Send(true, data, n);
        case CallSendBuffer(data) => var task := SendBuffer(true, data);
        case CallShutdown(inLoop) => var task := Shutdown(inLoop);
        case CallForceClose => var task := ForceClose();
      }
      RunCallback(calls[1..]);
    }

    method Send(inLoop: bool, data: seq<Byte>, n: int) returns (task: Option<Task>)
      requires Valid() && n <= |data|
      modifies this, channel, channel.poller, outputBuffer, outputBuffer.store
      ensures Valid() && OutputOnly()
      ensures (View(), task) == Spec.Send(old(View()), inLoop, data, n)
      ensures task == if old(state) == Connected && !inLoop then Some(SendTask(data)) else None
    {
      task := None;
      if state == Connected {
        if inLoop {
          var complete := SendInLoop(data, n);
        } else {
          task := Some(SendTask(data));
        }
      }
    }

    method SendBuffer(inLoop: bool, data: seq<Byte>) returns (task: Option<Task>)
      requires Valid()
      modifies this, channel, channel.poller, outputBuffer, outputBuffer.store
      ensures Valid() && OutputOnly()
      ensures (View(), task) == Spec.SendBuffer(old(View()), inLoop, data)
      ensures task == if old(state) == Connected && !inLoop then Some(SendTask(data)) else None
    {
      task := None;
      if state == Connected {
        if inLoop {
          admitted := admitted + data;
          BufferOutput(data);
        } else {
          task := Some(SendTask(data));
        }
      }
    }

    /** complete says that the write-complete callback runs next. */
    method SendInLoop(data: seq<Byte>, n: int) returns (complete: bool)
      requires Valid() && n <= |data|
      modifies this, channel, channel.poller, outputBuffer, outputBuffer.store
      ensures Valid() && OutputOnly()
      ensures View() == Spec.SendInLoop(old(View()), data, n)
      ensures complete <==>
        old(state == Connected && !channel.interest.writing && outputBuffer.Contents() == []) && n == |data|
    {
      complete := false;
      if state != Connected {
        return;
      }
      admitted := admitted + data;
      var rest := data;
      if !channel.interest.writing && outputBuffer.ReadableBytes() == 0 {
        if n >= 0 {
          wire := wire + data[..n];
          if n >= |data| {
            return true;
          }
          rest := data[n..];
        }
      }
      BufferOutput(rest);
    }

    method BufferOutput(data: seq<Byte>)
      requires Valid()
      modifies this, channel, channel.poller, outputBuffer, outputBuffer.store
      ensures Valid() && OutputOnly() && View() == Buffered(old(View()), data)
    {
      outputBuffer.Append(data);
      if !channel.interest.writing {
        channel.EnableWriting();
      }
    }

    method Shutdown(inLoop: bool) returns (task: Option<Task>)
      requires Valid()
      modifies this
      ensures Valid() && OutputOnly()
      ensures (View(), task) == Spec.Shutdown(old(View()), inLoop)
      ensures task == if old(state) == Connected && !inLoop then Some(ShutdownTask) else None
    {
      task := None;
      if state == Connected {
        state := Disconnecting;
        if inLoop {
          ShutdownInLoop();
        } else {
          task := Some(ShutdownTask);
        }
      }
    }

    method ShutdownInLoop()
      requires Valid()
      modifies this
      ensures Valid() && OutputOnly() && View() == Spec.ShutdownInLoop(old(View()))
    {
      if !channel.interest.writing {
        ShutdownWrite();
      }
    }

    method ShutdownWrite()
      requires Valid()
      modifies this`finAt
      ensures Valid() && View() == HalfClose(old(View()))
    {
      if finAt.None? {
        finAt := Some(|wire|);
      }
    }

    method ForceClose() returns (task: Option<Task>)
      requires Valid()
      modifies this
      ensures Valid() && OutputOnly()
      ensures (View(), task) == Spec.ForceClose(old(View()))
      ensures task == if old(state) in {Connected, Disconnecting} then Some(CloseTask) else None
    {
      task := None;
      if state == Connected || state == Disconnecting {
        state := Disconnecting;
        task := Some(CloseTask);
      }
    }
  }
}
