// The class `Server`: its methods carry out the steps of `ServerProtocol` on a message
// queue, an index map and a timer cache that are changed in place.

module Servers {
  import opened Messages
  import opened MessageQueues
  import opened Timers
  import opened TimerTable
  import opened TimerIds
  import opened TimersCaches
  import P = ServerProtocol

  class Server {
    const servicesEndpointsMap: map<nat, nat>
    const timersCache: TimersCache
    const messageQueue: MessageQueue<P.Outgoing>
    const timeBetweenMessageResends: int
    var transactionAndTimerID: map<nat, nat>
    var socket: seq<P.Outgoing>     // what was handed to the socket for sending, in order
    ghost var model: P.State        // the protocol state, with its history

    ghost predicate Valid()
      reads this, messageQueue, timersCache, timersCache.Owned
    {
      && timersCache.Valid()
      && model.timers == timersCache.Contents
      && model.queue == messageQueue.messagesQueue
      && model.index == transactionAndTimerID
      && model.delay == timeBetweenMessageResends
      && model.started == socket
    }

    constructor (servicesEndpointsMap: map<nat, nat>, timersCache: TimersCache, timeBetweenMessageResends: int)
      requires timersCache.Valid() && timersCache.Contents == []
      ensures Valid() && P.Init(model)
      ensures this.timersCache == timersCache && this.servicesEndpointsMap == servicesEndpointsMap
      ensures fresh(messageQueue)
    {
      this.servicesEndpointsMap := servicesEndpointsMap;
      this.timersCache := timersCache;
      this.timeBetweenMessageResends := timeBetweenMessageResends;
      messageQueue := new MessageQueue();
      transactionAndTimerID, socket := map[], [];
      model := P.State([], map[], [], timeBetweenMessageResends, 0, 0, [], [], [], [], []);
    }

    // The endpoint a request for a service goes to: the local map first, then what the
    // database answers.
    function EndpointOf(identifier: nat, inDatabase: Option<nat>): Option<nat> {
      if identifier in servicesEndpointsMap then Some(servicesEndpointsMap[identifier]) else inDatabase
    }

    method SendRequest(identifier: nat, message: Message, inDatabase: Option<nat>, now: int) returns (sendRequest: bool)
      requires Valid() && |timersCache.timers| <= MAX_UINT32
      modifies this, messageQueue, timersCache
      ensures Valid()
      ensures model ==
        P.Next(old(model), P.Submit(P.Request(identifier, message), EndpointOf(identifier, inDatabase), now))
      ensures messageQueue.messagesQueue == old(messageQueue.messagesQueue) +
        if identifier in servicesEndpointsMap
        then [P.Outgoing(Destination(identifier, servicesEndpointsMap[identifier]), message)]
        else if inDatabase.Some? then [P.Outgoing(Destination(identifier, inDatabase.value), message)]
        else []
      ensures sendRequest <==>
        (identifier in servicesEndpointsMap || inDatabase.Some?) && old(messageQueue.messagesQueue) == []
    {
      sendRequest := Forward(identifier, message, inDatabase, now);
      if EndpointOf(identifier, inDatabase).Some? {
        model := model.(submitted := model.submitted + [P.Request(identifier, message)]);
      }
      assert old(model).submitted + [] == old(model).submitted;
    }

    // The same path for a submission and for a resend.
    method Forward(identifier: nat, message: Message, inDatabase: Option<nat>, now: int) returns (sendRequest: bool)
      requires Valid() && |timersCache.timers| <= MAX_UINT32
      modifies this, messageQueue, timersCache
      ensures Valid()
      ensures model ==
        P.SendRequest(old(model), P.Request(identifier, message), EndpointOf(identifier, inDatabase), now)
      ensures sendRequest == P.StartsNow(old(model), EndpointOf(identifier, inDatabase))
      ensures forall s | s in old(timersCache.timers) :: s in timersCache.timers
    {
      sendRequest := false;
      var endpoint := EndpointOf(identifier, inDatabase);
      if endpoint.Some? {
        var destination := Destination(identifier, endpoint.value);
        var pushed := messageQueue.Push(P.Outgoing(destination, message));
        model := model.(queue := model.queue + [P.Outgoing(destination, message)],
                        pushed := model.pushed + [P.Outgoing(destination, message)]);
        var size := messageQueue.Size();
        if size <= 1 {
          sendRequest := true;
          Send(now);
        }
      }
    }

    method Send(now: int)
      requires Valid() && messageQueue.messagesQueue != [] && |timersCache.timers| <= MAX_UINT32
      modifies this, timersCache
      ensures Valid() && model == P.Send(old(model), now)
      ensures forall s | s in old(timersCache.timers) :: s in timersCache.timers
    {
      var front := messageQueue.Front();
      StartTimerToResend(front, now);
      SendToDestination(front);
    }

    method StartTimerToResend(o: P.Outgoing, now: int)
      requires Valid() && |timersCache.timers| <= MAX_UINT32
      modifies this, timersCache
      ensures Valid() && model == P.StartTimerToResend(old(model), o, now)
      ensures forall s | s in old(timersCache.timers) :: s in timersCache.timers
    {
      var transactionCode := o.message.transactionCode;
      var resendTimer := MakeResendTimer(o, now);
      var resendTimerID := timersCache.RegisterTimer(resendTimer);
      PutTimerID(transactionCode, resendTimerID);
      model := P.StartTimerToResend(model, o, now);
    }

    method MakeResendTimer(o: P.Outgoing, now: int) returns (resendTimer: Timer)
      ensures fresh(resendTimer)
      ensures resendTimer.Value() == TimerValue(0, now, timeBetweenMessageResends, false, Waiting,
        Resend(ParkedMessage(o.message.transactionCode, o.destination, o.message)))
    {
      var parkedMessage := ParkedMessage(o.message.transactionCode, o.destination, o.message);
      resendTimer := new Timer(Resend(parkedMessage), now);
      resendTimer.SetDuration(timeBetweenMessageResends);
    }

    // `emplace`: an entry that is there stays.
    method PutTimerID(transactionCode: nat, timerID: nat)
      modifies this`transactionAndTimerID
      ensures transactionAndTimerID == P.Emplace(old(transactionAndTimerID), transactionCode, timerID)
    {
      if transactionCode !in transactionAndTimerID {
        transactionAndTimerID := transactionAndTimerID[transactionCode := timerID];
      }
    }

    // Hands the message to the socket; the completion handler runs later.
    method SendToDestination(o: P.Outgoing)
      requires Valid()
      modifies this`model, this`socket
      ensures Valid()
      ensures model == old(model).(inFlight := old(model).inFlight + 1, started := old(model).started + [o])
    {
      socket := socket + [o];
      model := model.(inFlight := model.inFlight + 1, started := model.started + [o]);
    }

    method SendCompleted(error: bool, now: int)
      requires Valid() && model.inFlight > 0 && messageQueue.messagesQueue != []
      requires |timersCache.timers| <= MAX_UINT32
      modifies this, messageQueue, timersCache
      ensures Valid() && model == P.SendCompleted(old(model), !error, now)
    {
      model := model.(inFlight := model.inFlight - 1);
      if error {
        model := model.(failed := model.failed + 1);
      } else {
        messageQueue.Pop();
        model := model.(queue := model.queue[1..]);
        var empty := messageQueue.Empty();
        if !empty {
          Send(now);
        }
      }
    }

    method HandleResponse(success: bool, transactionCode: nat)
      requires Valid()
      modifies this, timersCache
      ensures Valid() && model == P.HandleResponse(old(model), success, transactionCode)
      ensures !success || transactionCode !in old(transactionAndTimerID) ==>
        transactionAndTimerID == old(transactionAndTimerID) && timersCache.Contents == old(timersCache.Contents)
      ensures success && transactionCode in old(transactionAndTimerID) ==>
        && transactionAndTimerID == old(transactionAndTimerID) - {transactionCode}
        && timersCache.Contents == RemoveId(old(timersCache.Contents), old(transactionAndTimerID)[transactionCode])
    {
      if success && transactionCode in transactionAndTimerID {
        model := P.HandleResponse(model, success, transactionCode);
        timersCache.RemoveTimer(transactionAndTimerID[transactionCode]);
        transactionAndTimerID := transactionAndTimerID - {transactionCode};
      }
    }

    // The callback of a resend timer.
    method ResendCallback(message: ParkedMessage, inDatabase: Option<nat>, now: int)
      requires Valid() && |timersCache.timers| <= MAX_UINT32
      modifies this, messageQueue, timersCache
      ensures Valid()
      ensures model ==
        P.ResendCallback(old(model), message, EndpointOf(message.destination.serviceIdentifier, inDatabase), now)
      ensures
        var identifier, again := message.destination.serviceIdentifier, message.message;
        messageQueue.messagesQueue == old(messageQueue.messagesQueue) +
          if identifier in servicesEndpointsMap
          then [P.Outgoing(Destination(identifier, servicesEndpointsMap[identifier]), again)]
          else if inDatabase.Some? then [P.Outgoing(Destination(identifier, inDatabase.value), again)]
          else []
      ensures forall s | s in old(timersCache.timers) :: s in timersCache.timers
    {
      if message.transactionCode in transactionAndTimerID {
        transactionAndTimerID := transactionAndTimerID - {message.transactionCode};
      }
      model := model.(index := model.index - {message.transactionCode});
      var _ := Forward(message.destination.serviceIdentifier, message.message, inDatabase, now);
      if EndpointOf(message.destination.serviceIdentifier, inDatabase).None? {
        model := model.(dropped := model.dropped + [P.ParkedRequest(message)]);
      }
    }

    // One due timer in a trigger pass: running, its callback, ended.
    method FireTimer(timer: Timer, inDatabase: Option<nat>, now: int)
      requires Valid() && timersCache.Holds(timer) && |timersCache.timers| <= MAX_UINT32
      modifies this, messageQueue, timersCache, timer
      ensures Valid()
      ensures
        var fired := old(timer.Value());
        var endpoint := if fired.callback.Resend?
                        then EndpointOf(fired.callback.parked.destination.serviceIdentifier, inDatabase) else None;
        model == P.Fire(old(model), fired, endpoint, now)
    {
      SetTimerStatus(timer, Running);
      if timer.callback.Resend? {
        RunResend(timer, inDatabase, now);
      }
      SetTimerStatus(timer, Ended);
    }

    // The cache still holds the timer when its callback returns.
    method RunResend(timer: Timer, inDatabase: Option<nat>, now: int)
      requires Valid() && timersCache.Holds(timer) && |timersCache.timers| <= MAX_UINT32 && timer.callback.Resend?
      modifies this, messageQueue, timersCache
      ensures Valid() && timersCache.Holds(timer)
      ensures
        var parked := timer.callback.parked;
        model == P.ResendCallback(old(model), parked, EndpointOf(parked.destination.serviceIdentifier, inDatabase), now)
    {
      ghost var slot :| slot in timersCache.timers && slot.timer == timer;
      ResendCallback(timer.callback.parked, inDatabase, now);
      assert slot in timersCache.timers;
    }

    method SetTimerStatus(timer: Timer, status: ActionStatus)
      requires Valid() && timersCache.Holds(timer)
      modifies this`model, timersCache`Contents, timer
      ensures Valid() && timer.Value() == old(timer.Value()).(status := status)
      ensures model == old(model).(timers := SetStatus(old(model).timers, timer.timerID, status))
    {
      timersCache.SetStatusOf(timer, status);
      model := model.(timers := SetStatus(model.timers, timer.timerID, status));
    }
  }
}
