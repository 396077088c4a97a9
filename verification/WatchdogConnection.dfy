// The class `ModuleWatchdogConnection` with the connection-state cell it shares: its
// handlers carry out the steps of `Session`.

module WatchdogConnections {
  import opened Messages
  import S = Session

  class WatchdogConnectionState {
    var connectionState: S.ConnectionState

    constructor ()
      ensures connectionState == S.NotConnected
    {
      connectionState := S.NotConnected;
    }

    method SetConnectionStateAndNotifyAll(connectionState: S.ConnectionState)
      modifies this
      ensures this.connectionState == connectionState
    {
      this.connectionState := connectionState;
    }

    method GetConnectionState() returns (state: S.ConnectionState)
      ensures state == connectionState
    {
      state := connectionState;
    }
  }

  class ModuleWatchdogConnection {
    const watchdogConnectionState: WatchdogConnectionState
    var sequenceCode: nat
    var timerRunning: bool
    ghost var model: S.State

    ghost predicate Valid()
      reads this, watchdogConnectionState
    {
      && model.connection == watchdogConnectionState.connectionState
      && model.sequenceCode == sequenceCode
      && model.armed == timerRunning
    }

    constructor (watchdogConnectionState: WatchdogConnectionState, uninitialised: nat)
      requires watchdogConnectionState.connectionState == S.NotConnected
      ensures Valid() && S.Init(model) && this.watchdogConnectionState == watchdogConnectionState
    {
      this.watchdogConnectionState := watchdogConnectionState;
      sequenceCode, timerRunning := uninitialised, false;
      model := S.State(S.NotConnected, uninitialised, false, 0, [], [], [], [], 0, 0, 0);
    }

    method HandleConnectResponse(responseCode: S.ResponseCode, responseSequenceCode: Option<nat>)
      requires Valid()
      modifies this`sequenceCode, this`model, watchdogConnectionState
      ensures Valid() && model == S.Next(old(model), S.ConnectResponse(responseCode, responseSequenceCode))
      ensures
        var before, after := old(watchdogConnectionState.connectionState), watchdogConnectionState.connectionState;
        var connects := before != S.Connected && responseCode == S.Success && responseSequenceCode.Some?;
        && after == (if before == S.Connected || connects then S.Connected else S.NotConnected)
        && sequenceCode == if connects then responseSequenceCode.value else old(sequenceCode)
    {
      var state := watchdogConnectionState.GetConnectionState();
      if state != S.Connected {
        model := S.Next(model, S.ConnectResponse(responseCode, responseSequenceCode));
        var newConnectionState := S.NotConnected;
        if responseCode == S.Success {
          newConnectionState := OnResponseCodeSuccess(responseSequenceCode);
        }
        watchdogConnectionState.SetConnectionStateAndNotifyAll(newConnectionState);
      }
    }

    method OnResponseCodeSuccess(responseSequenceCode: Option<nat>) returns (connectionState: S.ConnectionState)
      modifies this`sequenceCode
      ensures connectionState == if responseSequenceCode.Some? then S.Connected else S.NotConnected
      ensures sequenceCode == if responseSequenceCode.Some? then responseSequenceCode.value else old(sequenceCode)
    {
      connectionState := S.NotConnected;
      if responseSequenceCode.Some? {
        sequenceCode := responseSequenceCode.value;
        connectionState := S.Connected;
      }
    }

    // `i` says which of the answers on their way has arrived.
    method HandlePingResponse(pingSequenceCode: nat, ghost i: nat)
      requires Valid() && i < |model.answers| && model.answers[i] == pingSequenceCode
      modifies this`timerRunning, this`model
      ensures Valid() && model == S.Next(old(model), S.PingResponse(i))
      ensures timerRunning == (old(timerRunning) || pingSequenceCode == sequenceCode)
      ensures model.armings == old(model.armings) + if pingSequenceCode == sequenceCode then 1 else 0
    {
      model := model.(answers := S.RemoveAt(model.answers, i));
      if pingSequenceCode == sequenceCode {
        SetTimerExpiration();
      } else {
        model := model.(discarded := model.discarded + 1);
      }
    }

    method SetTimerExpiration()
      requires Valid()
      modifies this`timerRunning, this`model
      ensures Valid() && model == S.SetTimer(old(model)) && timerRunning
      ensures model.due == old(model.due) + if old(timerRunning) then 1 else 0
    {
      model := S.SetTimer(model);
      timerRunning := true;
    }

    // The handler of a wait that expired or was cancelled; the ping is queued for sending.
    method OnTimerExpiration() returns (pingCode: nat)
      requires Valid() && model.due > 0
      modifies this`model
      ensures Valid() && model == S.Next(old(model), S.TimerHandler)
      ensures pingCode == sequenceCode && model.pings == old(model).pings + [pingCode]
      ensures model.due == old(model.due) - 1
    {
      pingCode := sequenceCode;
      model := S.Next(model, S.TimerHandler);
    }

    method Disconnect()
      requires Valid()
      modifies this`model, watchdogConnectionState
      ensures Valid() && model == S.Next(old(model), S.Disconnected)
      ensures watchdogConnectionState.connectionState ==
        if old(watchdogConnectionState.connectionState) == S.Connected then S.NotConnected
        else old(watchdogConnectionState.connectionState)
    {
      model := S.Next(model, S.Disconnected);
      var currentState := watchdogConnectionState.GetConnectionState();
      if currentState == S.Connected {
        watchdogConnectionState.SetConnectionStateAndNotifyAll(S.NotConnected);
      }
    }
  }
}
