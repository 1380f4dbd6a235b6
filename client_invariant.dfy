/**
 * Every operation of the connection engine keeps ClientModel.Inv: the sequence counter fits in one
 * octet, the heartbeat failure count stays below the limit, the connection state agrees with the
 * channel id and the transport, every handle field names a timer of its kind, and every pending
 * acknowledgement has a live timer that will report its number.
 */
module ClientInvariant {
  import opened KnxTypes
  import opened ClientModel
  import KnxConnectResponse

  lemma InitialInv(o: Options)
    ensures Inv(Initial(), o)
  {
  }

  // ----- the timer primitives -----

  /** Scheduling under the fresh handle disturbs no handle field and no pending acknowledgement. */
  lemma {:induction false} ScheduleTimers(e: ClientState, cb: Callback)
    requires TimersInv(e)
    ensures TimersInv(Schedule(e, cb))
  {
    var e' := Schedule(e, cb);
    forall s | s in e'.tunnelReqTimer
      ensures e'.tunnelReqTimer[s] in e'.scheduled && e'.scheduled[e'.tunnelReqTimer[s]] == AckTimeout(s)
    {
      assert e.tunnelReqTimer[s] in e.scheduled;
    }
  }

  /** Arming a handle field with a callback of its kind. */
  lemma ArmTimers(e: ClientState, cb: Callback, h: Handle)
    requires TimersInv(e) && Names(h, cb)
    ensures TimersInv(Schedule(e, cb))
    ensures HandleRuns(Timers(Schedule(e, cb)), Some(e.nextTimerId), h)
  {
    ScheduleTimers(e, cb);
  }

  /** Clearing a handle field never cancels a pending acknowledgement. */
  lemma ClearTimers(e: ClientState, id: Option<TimerId>, h: Handle)
    requires TimersInv(e) && HandleRuns(Timers(e), id, h)
    ensures TimersInv(ClearTimeout(e, id))
  {
    if id.Some? {
      forall s | s in e.tunnelReqTimer ensures e.tunnelReqTimer[s] != id.value {
      }
    }
  }

  /** A timer that fires leaves `scheduled`; unless it is an ack timeout no pending entry refers to it. */
  lemma UnscheduleTimers(e: ClientState, id: TimerId)
    requires TimersInv(e) && id in e.scheduled && !e.scheduled[id].AckTimeout?
    ensures TimersInv(e.(scheduled := e.scheduled - {id}))
  {
    forall s | s in e.tunnelReqTimer ensures e.tunnelReqTimer[s] != id {
    }
  }

  // ----- internal helpers -----

  lemma StopHeartBeatInv(e: ClientState, o: Options)
    requires Inv(e, o)
    ensures Inv(StopHeartBeat(e), o)
  {
    ClearTimers(e.(heartbeatRunning := false), e.heartbeatTimer, HeartbeatTimer);
  }

  lemma SetDisconnectedInv(e: ClientState, o: Options)
    requires Inv(e, o)
    ensures Inv(SetDisconnected(e), o)
  {
    var e1 := e.(disconnectTimer := None);
    ClearTimers(e1, e.timer, RequestTimer);
    var e2 := ClearTimeout(e1, e.timer);
    StopHeartBeatInv(e2, o);
    ResetInv(Emit(StopHeartBeat(e2), DisconnectedEvent), o);
  }

  /** The field resets at the end of _setDisconnected. */
  lemma ResetInv(e: ClientState, o: Options)
    requires Inv(e, o)
    ensures Inv(e.(connectionState := Disconnected, seqNumber := 0, channelID := None,
                   tunnelReqTimer := map[], socketClosed := true), o)
  {
  }

  /** Arming _timer with one of its callbacks. */
  lemma AwaitResponseInv(e: ClientState, o: Options, cb: Callback, awaited: nat)
    requires Inv(e, o) && Names(RequestTimer, cb)
    ensures Inv(AwaitResponse(e, cb, awaited), o)
  {
    ArmTimers(e, cb, RequestTimer);
  }

  lemma GetConnectionStatusInv(e: ClientState, o: Options)
    requires Inv(e, o)
    ensures Inv(GetConnectionStatus(e, o).next, o)
  {
    ArmTimers(e, HeartbeatTimeout, HeartbeatTimer);
  }

  lemma RunHeartbeatInv(e: ClientState, o: Options)
    requires Inv(e, o)
    ensures Inv(RunHeartbeat(e, o).next, o)
  {
    if e.heartbeatRunning {
      GetConnectionStatusInv(e, o);
      var probe := GetConnectionStatus(e, o);
      if probe.outcome.Done? {
        ScheduleTimers(probe.next, HeartbeatTick);
      }
    }
  }

  lemma StartHeartBeatInv(e: ClientState, o: Options)
    requires Inv(e, o)
    ensures Inv(StartHeartBeat(e, o).next, o)
  {
    StopHeartBeatInv(e, o);
    RunHeartbeatInv(StopHeartBeat(e).(heartbeatFailures := 0, heartbeatRunning := true), o);
  }

  lemma HeartbeatTimedOutInv(e: ClientState, o: Options)
    requires Inv(e, o)
    ensures Inv(HeartbeatTimedOut(e), o)
  {
    var failed := e.(heartbeatTimer := None, heartbeatFailures := e.heartbeatFailures + 1);
    if failed.heartbeatFailures >= MAX_HEARTBEAT_FAILURES {
      SetDisconnectedInv(Emit(failed.(heartbeatFailures := 0), ErrorEvent(ConnectionDead)), o);
    }
  }

  // ----- public operations -----

  lemma ConnectInv(e: ClientState, o: Options, layer: TunnelLayer)
    requires Inv(e, o)
    ensures Inv(Connect(e, o, layer).next, o)
  {
    if Connect(e, o, layer).outcome.Done? {
      BeginConnectInv(e, o, layer);
    }
  }

  lemma BeginConnectInv(e: ClientState, o: Options, layer: TunnelLayer)
    requires Inv(e, o) && o.HasSocket() && e.connectionState == Disconnected
    ensures Inv(BeginConnect(e, o, layer), o)
  {
    var connecting := Emit(ClearTimeout(e.(connectionState := Connecting), e.timer), ConnectingEvent);
    if o.hostProtocol == Multicast {
      ClearTimers(e, e.timer, RequestTimer);
    } else {
      ConnectingInv(e, o);
      if o.hostProtocol == TunnelUDP {
        AwaitResponseInv(connecting, o, ConnectTimeout, CONNECT_RESPONSE);
      }
    }
  }

  /** The common first step of an accepted Connect: state Connecting, _timer cleared. */
  lemma ConnectingInv(e: ClientState, o: Options)
    requires Inv(e, o) && o.HasSocket() && o.hostProtocol != Multicast
    requires e.connectionState == Disconnected
    ensures Inv(Emit(ClearTimeout(e.(connectionState := Connecting), e.timer), ConnectingEvent), o)
  {
    ClearTimers(e, e.timer, RequestTimer);
  }

  lemma DisconnectInv(e: ClientState, o: Options)
    requires Inv(e, o)
    ensures Inv(Disconnect(e, o).next, o)
  {
    if o.hostProtocol != Unrecognised {
      StopHeartBeatInv(e, o);
      var stopping := StopHeartBeat(e).(connectionState := Disconnecting);
      assert Inv(stopping, o);
      AwaitResponseInv(stopping, o, DisconnectTimeout, DISCONNECT_RESPONSE);
      var sent := Send(AwaitResponse(stopping, DisconnectTimeout, DISCONNECT_RESPONSE),
                       DisconnectRequest(e.channelID));
      ArmFallbackInv(sent, o);
    }
  }

  lemma ArmFallbackInv(e: ClientState, o: Options)
    requires Inv(e, o)
    ensures Inv(ArmFallback(e), o)
  {
    ArmTimers(e, DisconnectFallback, FallbackTimer);
  }

  lemma GetDescriptionInv(e: ClientState, o: Options)
    requires Inv(e, o)
    ensures Inv(GetDescription(e, o).next, o)
  {
    AwaitResponseInv(e, o, DescriptionTimeout, DESCRIPTION_RESPONSE);
  }

  lemma StartDiscoveryInv(e: ClientState, o: Options)
    requires Inv(e, o)
    ensures Inv(StartDiscovery(e).next, o)
  {
    ArmTimers(e, DiscoveryExpiry, DiscoveryTimer);
  }

  lemma StopDiscoveryInv(e: ClientState, o: Options)
    requires Inv(e, o)
    ensures Inv(StopDiscovery(e), o)
  {
    ClearTimers(e, e.discoveryTimer, DiscoveryTimer);
  }

  lemma SendLDataRequestInv(e: ClientState, o: Options, service: GroupService, dst: KnxAddress,
                            data: Option<seq<byte>>, tunnelAck: nat, multicastEcho: bool)
    requires Inv(e, o)
    ensures Inv(SendLDataRequest(e, o, service, dst, data, tunnelAck, multicastEcho), o)
  {
    if o.hostProtocol != Multicast && !o.suppressAckLDataReq {
      SetTimerAndCallbackTimers(e, e.seqNumber);
    }
  }

  /** A new pending entry refers to its own fresh timer; the others keep theirs. */
  lemma SetTimerAndCallbackTimers(e: ClientState, seqCounter: nat)
    requires TimersInv(e) && seqCounter < 256
    ensures TimersInv(SetTimerAndCallback(e, seqCounter))
  {
    ScheduleTimers(e, AckTimeout(seqCounter));
    var e' := SetTimerAndCallback(e, seqCounter);
    forall s | s in e'.tunnelReqTimer
      ensures e'.tunnelReqTimer[s] in e'.scheduled && e'.scheduled[e'.tunnelReqTimer[s]] == AckTimeout(s)
    {
      if s != seqCounter {
        assert e.tunnelReqTimer[s] in e.scheduled;
      }
    }
  }

  lemma WriteInv(e: ClientState, o: Options, dst: KnxAddress, payload: seq<byte>)
    requires Inv(e, o)
    ensures Inv(Write(e, o, dst, payload).next, o)
  {
    SendLDataRequestInv(e, o, GroupWrite, dst, Some(payload), WriteAck(o), true);
  }

  lemma RespondInv(e: ClientState, o: Options, dst: KnxAddress, payload: seq<byte>)
    requires Inv(e, o)
    ensures Inv(Respond(e, o, dst, payload).next, o)
  {
    SendLDataRequestInv(e, o, GroupResponse, dst, Some(payload), WriteAck(o), o.localEchoInTunneling);
  }

  lemma ReadInv(e: ClientState, o: Options, dst: KnxAddress)
    requires Inv(e, o)
    ensures Inv(Read(e, o, dst).next, o)
  {
    SendLDataRequestInv(e, o, GroupRead, dst, None, 0, o.localEchoInTunneling);
  }

  lemma WriteRawInv(e: ClientState, o: Options, dst: KnxAddress, raw: Option<seq<byte>>)
    requires Inv(e, o)
    ensures Inv(WriteRaw(e, o, dst, raw).next, o)
  {
    if raw.Some? {
      SendLDataRequestInv(e, o, GroupWrite, dst, raw, WriteAck(o), true);
    }
  }

  // ----- timers firing -----

  lemma FireInv(e: ClientState, o: Options, id: TimerId)
    requires Inv(e, o) && id in e.scheduled
    ensures Inv(Fire(e, o, id).next, o)
  {
    if e.scheduled[id].AckTimeout? {
      AckTimedOutInv(e, o, id);
    } else {
      UnscheduleTimers(e, id);
      RunCallbackInv(e.(scheduled := e.scheduled - {id}), o, e.scheduled[id]);
    }
  }

  lemma RunCallbackInv(e: ClientState, o: Options, cb: Callback)
    requires Inv(e, o) && !cb.AckTimeout?
    ensures Inv(RunCallback(e, o, cb).next, o)
  {
    match cb
    case DisconnectFallback => SetDisconnectedInv(e, o);
    case HeartbeatTimeout => HeartbeatTimedOutInv(e, o);
    case HeartbeatTick => RunHeartbeatInv(e, o);
    case ConnectTimeout => ClearedHandleInv(e, o);
    case DisconnectTimeout => ClearedHandleInv(e, o);
    case DescriptionTimeout => ClearedHandleInv(e, o);
    case DiscoveryExpiry =>
      assert Timers(e.(discoveryTimer := None)) == Timers(e).(discoveryTimer := None);
      assert Connection(e.(discoveryTimer := None)) == Connection(e);
  }

  /** A request timeout that fires only forgets the _timer handle. */
  lemma ClearedHandleInv(e: ClientState, o: Options)
    requires Inv(e, o)
    ensures Inv(e.(timer := None), o)
    ensures Inv(Emit(e.(timer := None), ErrorEvent(ConnectionTimeout)), o)
  {
    var cleared := e.(timer := None);
    assert Timers(cleared) == Timers(e).(timer := None);
    assert Connection(cleared) == Connection(e);
    var reported := Emit(cleared, ErrorEvent(ConnectionTimeout));
    assert Timers(reported) == Timers(cleared) && Connection(reported) == Connection(cleared);
  }

  lemma AckTimedOutInv(e: ClientState, o: Options, id: TimerId)
    requires Inv(e, o) && id in e.scheduled && e.scheduled[id].AckTimeout?
    ensures Inv(AckTimedOut(e.(scheduled := e.scheduled - {id}), e.scheduled[id].seqCounter), o)
  {
    var s := e.scheduled[id].seqCounter;
    var e1 := AckTimedOut(e.(scheduled := e.scheduled - {id}), s);
    forall s' | s' in e1.tunnelReqTimer
      ensures e1.tunnelReqTimer[s'] in e1.scheduled
    {
      assert e.tunnelReqTimer[s'] != id;
    }
  }

  // ----- inbound frames -----

  lemma ProcessInboundInv(e: ClientState, o: Options, msg: Inbound)
    requires Inv(e, o)
    ensures Inv(ProcessInbound(e, o, msg), o)
  {
    if msg.Parsed? {
      var f := msg.frame;
      var st := f.serviceType;
      if st == SEARCH_RESPONSE {
      } else if st == CONNECT_RESPONSE {
        OnConnectResponseInv(e, o, f);
      } else if st == DISCONNECT_RESPONSE {
        OnDisconnectResponseInv(e, o);
      } else if st == DISCONNECT_REQUEST {
        OnDisconnectRequestInv(e, o, f);
      } else if st == TUNNELING_REQUEST || st == ROUTING_INDICATION || st == ROUTING_LOST_MESSAGE {
      } else if st == TUNNELING_ACK {
        OnTunnelingAckInv(e, o, f);
      } else {
        OnAwaitedResponseInv(e, o, f);
      }
    }
  }

  lemma OnDisconnectResponseInv(e: ClientState, o: Options)
    requires Inv(e, o)
    ensures Inv(OnDisconnectResponse(e), o)
  {
    SetDisconnectedInv(if e.connectionState != Disconnecting
                       then Emit(e, ErrorEvent(UnexpectedDisconnectResponse)) else e, o);
  }

  lemma OnDisconnectRequestInv(e: ClientState, o: Options, f: InboundFrame)
    requires Inv(e, o)
    ensures Inv(OnDisconnectRequest(e, f), o)
  {
    if OnChannel(e, f) {
      SetDisconnectedInv(Send(e.(connectionState := Disconnecting),
                              DisconnectResponse(f.channelID, KnxConnectResponse.E_NO_ERROR)), o);
    }
  }

  lemma OnConnectResponseInv(e: ClientState, o: Options, f: InboundFrame)
    requires Inv(e, o)
    ensures Inv(OnConnectResponse(e, o, f), o)
  {
    if e.connectionState == Connecting {
      ClearTimers(e, e.timer, RequestTimer);
      var answered := ClearTimeout(e, e.timer).(timer := None);
      if f.status != KnxConnectResponse.E_NO_ERROR {
        SetDisconnectedInv(Emit(answered, ErrorEvent(ConnectRefused(KnxConnectResponse.StatusToString(f.status)))), o);
      } else {
        AcceptConnectionInv(answered, o, f.channelID);
      }
    }
  }

  lemma AcceptConnectionInv(e: ClientState, o: Options, channelID: byte)
    requires Inv(e, o) && o.HasSocket() && o.hostProtocol != Multicast
    ensures Inv(AcceptConnection(e, o, channelID), o)
  {
    StartHeartBeatInv(Emit(e.(connectionState := Connected, channelID := Some(channelID)), ConnectedEvent), o);
  }

  lemma OnTunnelingAckInv(e: ClientState, o: Options, f: InboundFrame)
    requires Inv(e, o)
    ensures Inv(OnTunnelingAck(e, f), o)
  {
    if OnChannel(e, f) {
      var advanced := IncSeqNumber(e, f.seqCounter);
      if f.seqCounter as nat in advanced.tunnelReqTimer {
        var handle := advanced.tunnelReqTimer[f.seqCounter];
        var e' := ClearTimeout(advanced, Some(handle)).(tunnelReqTimer := advanced.tunnelReqTimer - {f.seqCounter as nat});
        forall s | s in e'.tunnelReqTimer ensures e'.tunnelReqTimer[s] in e'.scheduled {
          assert e.tunnelReqTimer[s] != handle;
        }
      }
    }
  }

  lemma OnAwaitedResponseInv(e: ClientState, o: Options, f: InboundFrame)
    requires Inv(e, o)
    ensures Inv(OnAwaitedResponse(e, f), o)
  {
    if e.awaitingResponseType == Some(f.serviceType) {
      if f.serviceType == CONNECTIONSTATE_RESPONSE {
        if f.status != KnxConnectResponse.E_NO_ERROR {
          SetDisconnectedInv(Emit(e, ErrorEvent(ConnectionStateRefused(f.status))), o);
        } else {
          ClearTimers(e, e.heartbeatTimer, HeartbeatTimer);
        }
      } else {
        ClearTimers(e, e.timer, RequestTimer);
      }
    }
  }
}
