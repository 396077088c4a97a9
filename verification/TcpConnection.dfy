// The class `TcpConnection`: its handlers carry out the steps of `Writer` and `Reader`
// on a message queue, the latch and the socket, all changed in place.

module TcpConnections {
  import opened Messages
  import opened MessageQueues
  import opened Wire
  import R = Reader
  import W = Writer

  class TcpConnection {
    const messagesQueue: MessageQueue<WireMessage>
    var socketOpen: bool
    var sendingInProgress: bool
    var readPending: bool                    // a read was started and has not completed
    var incomingHeader: Option<Header>       // the header of the message whose body is read
    var asyncWrite: W.Write                  // the write handed to the socket and not completed
    ghost var writer: W.State
    ghost var reader: R.State

    ghost predicate Valid()
      reads this, messagesQueue
    {
      && writer.queue == messagesQueue.messagesQueue
      && writer.open == socketOpen
      && writer.sendingInProgress == sendingInProgress
      && writer.outstanding == asyncWrite
      && (!writer.outstanding.Nothing? ==> writer.queue != [])
      && R.Valid(reader)
      && reader.phase ==
        (if !readPending then R.Stopped
         else match incomingHeader case None => R.AwaitHeader case Some(h) => R.AwaitBody(h))
    }

    constructor ()
      ensures Valid() && W.Init(writer) && !socketOpen && fresh(messagesQueue)
    {
      messagesQueue := new MessageQueue();
      socketOpen, sendingInProgress, readPending, incomingHeader := false, false, false, None;
      asyncWrite := W.Nothing;
      writer := W.State([], false, false, W.Nothing, 0, [], [], [], [], []);
      reader := R.State(R.Stopped, [], []);
    }

    // ---------------------------------------------------------------- writing

    method SendMessage(message: WireMessage)
      requires Valid()
      modifies this`sendingInProgress, this`asyncWrite, this`writer, messagesQueue
      ensures Valid() && writer == W.Next(old(writer), W.SendMessage(message))
      ensures messagesQueue.messagesQueue == old(messagesQueue.messagesQueue) + [message]
      ensures asyncWrite == if socketOpen && !old(sendingInProgress) then W.HeaderWrite else old(asyncWrite)
      ensures sendingInProgress == (old(sendingInProgress) || socketOpen)
    {
      var messagesInQueue := messagesQueue.Push(message);
      writer := writer.(queue := writer.queue + [message], pushed := writer.pushed + [message]);
      if socketOpen && !sendingInProgress {
        sendingInProgress := true;
        writer := writer.(sendingInProgress := true);
        WriteMessageHeader();
      }
    }

    method WriteMessageHeader()
      requires Valid() && messagesQueue.messagesQueue != []
      modifies this`asyncWrite, this`writer
      ensures Valid() && writer == W.WriteHeader(old(writer))
    {
      asyncWrite := W.HeaderWrite;
      writer := W.WriteHeader(writer);
    }

    method WriteMessageBody()
      requires Valid() && messagesQueue.messagesQueue != []
      modifies this`asyncWrite, this`writer
      ensures Valid() && writer == W.WriteBody(old(writer))
    {
      asyncWrite := W.BodyWrite;
      writer := W.WriteBody(writer);
    }

    method PostWriteMessageHeader(error: bool)
      requires Valid() && asyncWrite.OfHeader()
      requires W.Enabled(writer, if error then W.WriteFailed else W.WriteDone)
      modifies this`sendingInProgress, this`socketOpen, this`asyncWrite, this`writer, messagesQueue
      ensures Valid() && writer == W.Next(old(writer), if error then W.WriteFailed else W.WriteDone)
      ensures error ==>
        && messagesQueue.messagesQueue == old(messagesQueue.messagesQueue)
        && asyncWrite == W.Nothing && !sendingInProgress && !socketOpen
      ensures !error ==>
        var queue := old(messagesQueue.messagesQueue);
        && sendingInProgress == old(sendingInProgress)
        && messagesQueue.messagesQueue == (if queue[0].body != [] then queue else queue[1..])
        && asyncWrite == if queue[0].body != [] then W.BodyWrite else if |queue| > 1 then W.HeaderWrite else W.Nothing
    {
      if error {
        Disconnect();
        sendingInProgress, asyncWrite := false, W.Nothing;
        writer := writer.(sendingInProgress := false, outstanding := W.Nothing);
      } else {
        var front := messagesQueue.Front();
        if |front.body| > 0 {
          WriteMessageBody();
        } else {
          PopFront();
          var empty := messagesQueue.Empty();
          if !empty {
            WriteMessageHeader();
          }
        }
      }
    }

    method PostWriteMessageBody(error: bool)
      requires Valid() && !asyncWrite.OfHeader()
      requires W.Enabled(writer, if error then W.WriteFailed else W.WriteDone)
      modifies this`sendingInProgress, this`socketOpen, this`asyncWrite, this`writer, messagesQueue
      ensures Valid() && writer == W.Next(old(writer), if error then W.WriteFailed else W.WriteDone)
      ensures error ==>
        && messagesQueue.messagesQueue == old(messagesQueue.messagesQueue)
        && asyncWrite == W.Nothing && !sendingInProgress && !socketOpen
      ensures !error ==>
        var queue := old(messagesQueue.messagesQueue);
        && messagesQueue.messagesQueue == queue[1..]
        && asyncWrite == (if |queue| > 1 then W.HeaderWrite else W.Nothing)
        && sendingInProgress == (|queue| > 1 && old(sendingInProgress))
    {
      if error {
        Disconnect();
        sendingInProgress, asyncWrite := false, W.Nothing;
        writer := writer.(sendingInProgress := false, outstanding := W.Nothing);
      } else {
        PopFront();
        var empty := messagesQueue.Empty();
        if !empty {
          WriteMessageHeader();
        } else {
          sendingInProgress := false;
          writer := writer.(sendingInProgress := false);
        }
      }
    }

    method PopFront()
      requires Valid() && messagesQueue.messagesQueue != []
      modifies this`asyncWrite, this`writer, messagesQueue
      ensures Valid() && writer == W.Pop(old(writer))
    {
      messagesQueue.Pop();
      asyncWrite := W.Nothing;
      writer := W.Pop(writer);
    }

    method Disconnect()
      requires Valid()
      modifies this`socketOpen, this`writer
      ensures Valid() && !socketOpen && writer == W.Next(old(writer), W.CloseSocket)
    {
      if socketOpen {
        socketOpen := false;
      }
      writer := writer.(open := false);
    }

    // makeNewSocket followed by a connect that succeeds. `taken` says whether the old socket
    // had taken all bytes of the write that has not completed.
    method MakeNewSocket(taken: bool)
      requires Valid() && taken == W.Taken(writer)
      modifies this`socketOpen, this`asyncWrite, this`writer
      ensures Valid() && socketOpen && writer == W.Next(old(writer), W.NewSocket)
    {
      socketOpen := true;
      asyncWrite := W.Replaced(asyncWrite, taken);
      writer := W.Next(writer, W.NewSocket);
    }

    // ---------------------------------------------------------------- reading

    method StartReadingSequence()
      requires Valid()
      modifies this`readPending, this`incomingHeader, this`reader
      ensures Valid() && reader == old(reader).(phase := R.AwaitHeader)
    {
      incomingHeader := None;
      readPending := true;
      reader := reader.(phase := R.AwaitHeader);
    }

    // `bytes` are the ones the read asked for.
    method PostReadMessageHeader(error: bool, bytes: seq<Byte>)
      requires Valid() && reader.phase.AwaitHeader?
      requires !error ==> R.CanComplete(reader) && bytes == reader.arrived[..HEADER_SIZE]
      modifies this`readPending, this`incomingHeader, this`reader, this`socketOpen, this`writer
      ensures Valid()
      ensures error ==> reader == old(reader).(phase := R.Stopped) && writer == W.Next(old(writer), W.CloseSocket)
      ensures !error ==> reader == R.Complete(old(reader)) && writer == old(writer)
    {
      readPending := false;
      if error {
        reader := reader.(phase := R.Stopped);
        Disconnect();
      } else {
        var header := DecodeHeader(bytes);
        reader := R.Complete(reader);
        if header.size > 0 {
          incomingHeader := Some(header);
          readPending := true;
        }
      }
    }

    // The message is handed over before the next read starts.
    method PostReadMessageBody(error: bool, bytes: seq<Byte>) returns (handedOver: Option<WireMessage>)
      requires Valid() && reader.phase.AwaitBody?
      requires !error ==> R.CanComplete(reader) && bytes == reader.arrived[..reader.phase.header.size]
      modifies this`readPending, this`incomingHeader, this`reader, this`socketOpen, this`writer
      ensures Valid()
      ensures error ==> reader == old(reader).(phase := R.Stopped) && writer == W.Next(old(writer), W.CloseSocket)
      ensures !error ==> reader == R.Complete(old(reader)) && writer == old(writer)
      ensures handedOver.Some? <==> !error
      ensures !error ==> reader.handedOver == old(reader).handedOver + [handedOver.value]
    {
      if error {
        readPending := false;
        reader := reader.(phase := R.Stopped);
        Disconnect();
        handedOver := None;
      } else {
        ghost var after := R.Complete(reader);
        handedOver := Some(WireMessage(incomingHeader.value, bytes));
        StartReadingSequence();
        reader := after;
      }
    }
  }
}
