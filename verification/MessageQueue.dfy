// `MessageQueue<T>`: the FIFO used by both senders.

module MessageQueues {

  class MessageQueue<T> {
    var messagesQueue: seq<T>

    constructor ()
      ensures messagesQueue == []
    {
      messagesQueue := [];
    }

    method Push(message: T) returns (size: nat)
      modifies this
      ensures messagesQueue == old(messagesQueue) + [message] && size == |messagesQueue|
    {
      messagesQueue := messagesQueue + [message];
      size := |messagesQueue|;
    }

    method Front() returns (message: T)
      requires messagesQueue != []
      ensures message == messagesQueue[0]
    {
      message := messagesQueue[0];
    }

    method Pop()
      requires messagesQueue != []
      modifies this
      ensures [old(messagesQueue)[0]] + messagesQueue == old(messagesQueue)
    {
      messagesQueue := messagesQueue[1..];
    }

    method Size() returns (size: nat)
      ensures size == |messagesQueue|
    {
      size := |messagesQueue|;
    }

    method Empty() returns (empty: bool)
      ensures empty <==> messagesQueue == []
    {
      empty := |messagesQueue| == 0;
    }
  }
}
