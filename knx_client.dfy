/**
 * KNXClient as an object whose fields its methods update in place. Every method performs the
 * source's assignments one by one and is proved to leave the fields exactly as the matching
 * function of ClientModel says, and to keep the invariant ClientModel.Inv. The timer queue, the
 * wire and the event listeners are fields too: `scheduled` holds the callbacks armed with
 * setTimeout, `outbox` every packet passed to send and `events` every event emitted.
 */
module KnxClientEngine {
  import opened KnxTypes
  import opened ClientModel
  import KnxConnectResponse
  import ClientInvariant

  class KnxClient {
    const options: Options

    var connectionState: ConnectionState
    var channelID: Option<byte>
    var clientTunnelSeqNumber: nat
    var tunnelReqTimer: map<nat, TimerId>
    var heartbeatFailures: nat
    var heartbeatRunning: bool
    var awaitingResponseType: Option<nat>
    var timer: Option<TimerId>
    var heartbeatTimer: Option<TimerId>
    var discoveryTimer: Option<TimerId>
    var disconnectTimer: Option<TimerId>   // _timerTimeoutSendDisconnectRequestMessage
    var scheduled: map<TimerId, Callback>
    var nextTimerId: TimerId
    var socketClosed: bool
    var outbox: seq<Packet>
    var events: seq<Event>

    /** The fields as one value, to compare with the functions of ClientModel. */
    ghost function Snapshot(): ClientState
      reads this
    {
      ClientState(connectionState, channelID, clientTunnelSeqNumber, tunnelReqTimer, heartbeatFailures,
                  heartbeatRunning, awaitingResponseType, timer, heartbeatTimer, discoveryTimer,
                  disconnectTimer, scheduled, nextTimerId, socketClosed, outbox, events)
    }

    ghost predicate Valid()
      reads this
    {
      Inv(Snapshot(), options)
    }

    /** The constructor: Disconnected, no channel, counter 0, nothing armed. */
    constructor(options: Options)
      ensures this.options == options
      ensures Snapshot() == Initial()
      ensures Valid()
    {
      this.options := options;
      connectionState := Disconnected;
      channelID := None;
      clientTunnelSeqNumber := 0;
      tunnelReqTimer := map[];
      heartbeatFailures := 0;
      heartbeatRunning := false;
      awaitingResponseType := None;
      timer := None;
      heartbeatTimer := None;
      discoveryTimer := None;
      disconnectTimer := None;
      scheduled := map[];
      nextTimerId := 0;
      socketClosed := false;
      outbox := [];
      events := [];
      new;
      ClientInvariant.InitialInv(options);
    }

    // ----- the environment -----

    /** setTimeout: arm `cb` under a fresh handle. */
    method SetTimeout(cb: Callback) returns (id: TimerId)
      modifies this
      ensures id == old(nextTimerId)
      ensures Snapshot() == Schedule(old(Snapshot()), cb)
    {
      id := nextTimerId;
      scheduled := scheduled[id := cb];
      nextTimerId := nextTimerId + 1;
    }

    /** `if (handle !== null) clearTimeout(handle)`. */
    method ClearTimeout(handle: Option<TimerId>)
      modifies this
      ensures Snapshot() == ClientModel.ClearTimeout(old(Snapshot()), handle)
    {
      if handle.Some? {
        scheduled := scheduled - {handle.value};
      }
    }

    method Send(p: Packet)
      modifies this
      ensures Snapshot() == ClientModel.Send(old(Snapshot()), p)
    {
      outbox := outbox + [p];
    }

    method Emit(ev: Event)
      modifies this
      ensures Snapshot() == ClientModel.Emit(old(Snapshot()), ev)
    {
      events := events + [ev];
    }

    // ----- sequence numbers and pending acknowledgements -----

    /** _getSeqNumber. */
    method GetSeqNumber() returns (n: nat)
      ensures n == clientTunnelSeqNumber
      ensures Valid() ==> n < 256
    {
      n := clientTunnelSeqNumber;
    }

    /** _incSeqNumber: returns the new counter. */
    method IncSeqNumber(acked: nat) returns (next: nat)
      modifies this
      ensures Snapshot() == ClientModel.IncSeqNumber(old(Snapshot()), acked)
      ensures next == clientTunnelSeqNumber && next < 256
    {
      clientTunnelSeqNumber := if acked != 0 then acked + 1 else clientTunnelSeqNumber + 1;
      if clientTunnelSeqNumber > 255 {
        clientTunnelSeqNumber := 0;
      }
      next := clientTunnelSeqNumber;
    }

    /** _setTimerAndCallback. */
    method SetTimerAndCallback(seqCounter: nat)
      modifies this
      ensures Snapshot() == ClientModel.SetTimerAndCallback(old(Snapshot()), seqCounter)
    {
      var id := SetTimeout(AckTimeout(seqCounter));
      tunnelReqTimer := tunnelReqTimer[seqCounter := id];
    }

    // ----- heartbeat -----

    /** stopHeartBeat. */
    method StopHeartBeat()
      modifies this
      ensures Snapshot() == ClientModel.StopHeartBeat(old(Snapshot()))
      ensures old(Valid()) ==> Valid()
    {
      ghost var s0 := Snapshot();
      if heartbeatTimer.Some? {
        heartbeatRunning := false;
        ClearTimeout(heartbeatTimer);
      }
      assert Snapshot() == ClientModel.StopHeartBeat(s0);
      if Inv(s0, options) {
        ClientInvariant.StopHeartBeatInv(s0, options);
      }
    }

    /** getConnectionStatus. */
    method GetConnectionStatus() returns (outcome: Outcome)
      modifies this
      ensures Step(Snapshot(), outcome) == ClientModel.GetConnectionStatus(old(Snapshot()), options)
      ensures old(Valid()) ==> Valid()
    {
      ghost var s0 := Snapshot();
      if !options.HasSocket() {
        return Threw(NoSocket);
      }
      var id := SetTimeout(HeartbeatTimeout);
      heartbeatTimer := Some(id);
      awaitingResponseType := Some(CONNECTIONSTATE_RESPONSE);
      Send(ConnectionStateRequest(channelID));
      outcome := Done;
      assert Step(Snapshot(), outcome) == ClientModel.GetConnectionStatus(s0, options);
      if Inv(s0, options) {
        ClientInvariant.GetConnectionStatusInv(s0, options);
      }
    }

    /** _runHeartbeat. */
    method RunHeartbeat() returns (outcome: Outcome)
      modifies this
      ensures Step(Snapshot(), outcome) == ClientModel.RunHeartbeat(old(Snapshot()), options)
      ensures old(Valid()) ==> Valid()
    {
      ghost var s0 := Snapshot();
      if !heartbeatRunning {
        return Done;
      }
      outcome := GetConnectionStatus();
      if outcome.Threw? {
        return;
      }
      var tick := SetTimeout(HeartbeatTick);
      assert Step(Snapshot(), outcome) == ClientModel.RunHeartbeat(s0, options);
      if Inv(s0, options) {
        ClientInvariant.RunHeartbeatInv(s0, options);
      }
    }

    /** startHeartBeat. */
    method StartHeartBeat() returns (outcome: Outcome)
      modifies this
      ensures Step(Snapshot(), outcome) == ClientModel.StartHeartBeat(old(Snapshot()), options)
      ensures old(Valid()) ==> Valid()
    {
      ghost var s0 := Snapshot();
      StopHeartBeat();
      heartbeatFailures := 0;
      heartbeatRunning := true;
      outcome := RunHeartbeat();
      assert Step(Snapshot(), outcome) == ClientModel.StartHeartBeat(s0, options);
      if Inv(s0, options) {
        ClientInvariant.StartHeartBeatInv(s0, options);
      }
    }

    /** The body of the heartbeat timeout. */
    method HeartbeatTimedOut()
      modifies this
      ensures Snapshot() == ClientModel.HeartbeatTimedOut(old(Snapshot()))
    {
      heartbeatTimer := None;
      heartbeatFailures := heartbeatFailures + 1;
      if heartbeatFailures >= MAX_HEARTBEAT_FAILURES {
        heartbeatFailures := 0;
        Emit(ErrorEvent(ConnectionDead));
        SetDisconnected();
      }
    }

    // ----- teardown -----

    /** _setDisconnected. */
    method SetDisconnected()
      modifies this
      ensures Snapshot() == ClientModel.SetDisconnected(old(Snapshot()))
      ensures old(Valid()) ==> Valid()
    {
      ghost var s0 := Snapshot();
      ReleaseTimers();
      connectionState := Disconnected;
      Emit(DisconnectedEvent);
      clientTunnelSeqNumber := 0;
      channelID := None;
      tunnelReqTimer := map[];
      socketClosed := true;
      assert Snapshot() == ClientModel.SetDisconnected(s0);
      if Inv(s0, options) {
        ClientInvariant.SetDisconnectedInv(s0, options);
      }
    }

    /** The timer part of _setDisconnected. */
    method ReleaseTimers()
      modifies this
      ensures Snapshot() ==
        ClientModel.StopHeartBeat(ClientModel.ClearTimeout(old(Snapshot()).(disconnectTimer := None), old(timer)))
    {
      // the misspelt field: nothing is cleared, only the handle is dropped
      disconnectTimer := None;
      ClearTimeout(timer);
      StopHeartBeat();
    }

    // ----- public operations -----

    /** Connect(knxLayer). */
    method Connect(layer: TunnelLayer) returns (outcome: Outcome)
      modifies this
      ensures Step(Snapshot(), outcome) == ClientModel.Connect(old(Snapshot()), options, layer)
      ensures old(Valid()) ==> Valid()
    {
      ghost var s0 := Snapshot();
      if !options.HasSocket() {
        return Threw(NoSocket);
      }
      if connectionState == Disconnecting {
        return Threw(IsDisconnecting);
      }
      if connectionState == Connecting {
        return Threw(IsConnecting);
      }
      if connectionState == Connected {
        return Threw(AlreadyConnected);
      }
      BeginConnect(layer);
      outcome := Done;
      assert Step(Snapshot(), outcome) == ClientModel.Connect(s0, options, layer);
      if Inv(s0, options) {
        ClientInvariant.BeginConnectInv(s0, options, layer);
      }
    }

    /** Connect once its guards have passed. */
    method BeginConnect(layer: TunnelLayer)
      modifies this
      ensures Snapshot() == ClientModel.BeginConnect(old(Snapshot()), options, layer)
    {
      connectionState := Connecting;
      ClearTimeout(timer);
      Emit(ConnectingEvent);
      if options.hostProtocol == TunnelUDP {
        AwaitResponse(ConnectTimeout, CONNECT_RESPONSE);
        clientTunnelSeqNumber := 0;
        Send(ConnectRequest(layer));
      } else if options.hostProtocol == TunnelTCP {
        // the stream's connect callback is not part of this model
      } else {
        connectionState := Connected;
        clientTunnelSeqNumber := 0;
        Emit(ConnectedEvent);
      }
    }

    /** Arm the request timeout under `_timer` and record the awaited response type. */
    method AwaitResponse(cb: Callback, awaited: nat)
      modifies this
      ensures Snapshot() == ClientModel.AwaitResponse(old(Snapshot()), cb, awaited)
    {
      var id := SetTimeout(cb);
      timer := Some(id);
      awaitingResponseType := Some(awaited);
    }

    /** Disconnect(). */
    method Disconnect() returns (outcome: Outcome)
      modifies this
      ensures Step(Snapshot(), outcome) == ClientModel.Disconnect(old(Snapshot()), options)
      ensures old(Valid()) ==> Valid()
    {
      ghost var s0 := Snapshot();
      if !options.HasSocket() {
        return Threw(NoSocket);
      }
      StopHeartBeat();
      connectionState := Disconnecting;
      AwaitResponse(DisconnectTimeout, DISCONNECT_RESPONSE);
      Send(DisconnectRequest(channelID));
      ArmFallback();
      outcome := Done;
      assert Step(Snapshot(), outcome) == ClientModel.Disconnect(s0, options);
      if Inv(s0, options) {
        ClientInvariant.DisconnectInv(s0, options);
      }
    }

    /** The fallback timer of Disconnect, kept in `_timerTimeoutSendDisconnectRequestMessage`. */
    method ArmFallback()
      modifies this
      ensures Snapshot() == ClientModel.ArmFallback(old(Snapshot()))
    {
      var fallback := SetTimeout(DisconnectFallback);
      disconnectTimer := Some(fallback);
    }

    /** getDescription(host, port). */
    method GetDescription() returns (outcome: Outcome)
      modifies this
      ensures Step(Snapshot(), outcome) == ClientModel.GetDescription(old(Snapshot()), options)
      ensures old(Valid()) ==> Valid()
    {
      ghost var s0 := Snapshot();
      if !options.HasSocket() {
        return Threw(NoSocket);
      }
      AwaitResponse(DescriptionTimeout, DESCRIPTION_RESPONSE);
      Send(DescriptionRequest);
      outcome := Done;
      assert Step(Snapshot(), outcome) == ClientModel.GetDescription(s0, options);
      if Inv(s0, options) {
        ClientInvariant.GetDescriptionInv(s0, options);
      }
    }

    /** isConnected. */
    predicate IsConnected()
      reads this
    {
      connectionState == Connected
    }

    /** isDiscoveryRunning. */
    predicate IsDiscoveryRunning()
      reads this
    {
      discoveryTimer.Some?
    }

    /** startDiscovery. */
    method StartDiscovery() returns (outcome: Outcome)
      modifies this
      ensures Step(Snapshot(), outcome) == ClientModel.StartDiscovery(old(Snapshot()))
      ensures old(Valid()) ==> Valid()
    {
      ghost var s0 := Snapshot();
      if IsDiscoveryRunning() {
        return Threw(DiscoveryRunning);
      }
      var id := SetTimeout(DiscoveryExpiry);
      discoveryTimer := Some(id);
      Send(SearchRequest);
      outcome := Done;
      assert Step(Snapshot(), outcome) == ClientModel.StartDiscovery(s0);
      if Inv(s0, options) {
        ClientInvariant.StartDiscoveryInv(s0, options);
      }
    }

    /** stopDiscovery. */
    method StopDiscovery()
      modifies this
      ensures Snapshot() == ClientModel.StopDiscovery(old(Snapshot()))
      ensures old(Valid()) ==> Valid()
    {
      ghost var s0 := Snapshot();
      if !IsDiscoveryRunning() {
        return;
      }
      ClearTimeout(discoveryTimer);
      discoveryTimer := None;
      assert Snapshot() == ClientModel.StopDiscovery(s0);
      if Inv(s0, options) {
        ClientInvariant.StopDiscoveryInv(s0, options);
      }
    }

    /** The send path of write, respond, read and writeRaw once connected. */
    method SendLDataRequest(service: GroupService, dst: KnxAddress, data: Option<seq<byte>>,
                            tunnelAck: nat, multicastEcho: bool)
      modifies this
      ensures Snapshot() ==
        ClientModel.SendLDataRequest(old(Snapshot()), options, service, dst, data, tunnelAck, multicastEcho)
    {
      if options.hostProtocol == Multicast {
        var p := RoutingIndication(LDataRequest(service, options.physAddr, dst, data, RequestControl(0)));
        Send(p);
        if multicastEcho {
          Emit(LocalEchoEvent(p));
        }
      } else {
        var p := TunnelingRequest(channelID, clientTunnelSeqNumber,
                                  LDataRequest(service, options.physAddr, dst, data, RequestControl(tunnelAck)));
        if !options.suppressAckLDataReq {
          SetTimerAndCallback(clientTunnelSeqNumber);
        }
        Send(p);
        if options.localEchoInTunneling {
          Emit(LocalEchoEvent(p));
        }
      }
    }

    /** write(dstAddress, data, dptid), with the datapoint already encoded. */
    method Write(dst: KnxAddress, payload: seq<byte>) returns (outcome: Outcome)
      modifies this
      ensures Step(Snapshot(), outcome) == ClientModel.Write(old(Snapshot()), options, dst, payload)
      ensures old(Valid()) ==> Valid()
    {
      ghost var s0 := Snapshot();
      if connectionState != Connected {
        return Threw(NotConnected);
      }
      SendLDataRequest(GroupWrite, dst, Some(payload), WriteAck(options), true);
      outcome := Done;
      assert Step(Snapshot(), outcome) == ClientModel.Write(s0, options, dst, payload);
      if Inv(s0, options) {
        ClientInvariant.WriteInv(s0, options, dst, payload);
      }
    }

    /** respond(dstAddress, data, dptid). */
    method Respond(dst: KnxAddress, payload: seq<byte>) returns (outcome: Outcome)
      modifies this
      ensures Step(Snapshot(), outcome) == ClientModel.Respond(old(Snapshot()), options, dst, payload)
      ensures old(Valid()) ==> Valid()
    {
      ghost var s0 := Snapshot();
      if connectionState != Connected {
        return Threw(NotConnected);
      }
      SendLDataRequest(GroupResponse, dst, Some(payload), WriteAck(options), options.localEchoInTunneling);
      outcome := Done;
      assert Step(Snapshot(), outcome) == ClientModel.Respond(s0, options, dst, payload);
      if Inv(s0, options) {
        ClientInvariant.RespondInv(s0, options, dst, payload);
      }
    }

    /** read(dstAddress). */
    method Read(dst: KnxAddress) returns (outcome: Outcome)
      modifies this
      ensures Step(Snapshot(), outcome) == ClientModel.Read(old(Snapshot()), options, dst)
      ensures old(Valid()) ==> Valid()
    {
      ghost var s0 := Snapshot();
      if connectionState != Connected {
        return Threw(NotConnected);
      }
      SendLDataRequest(GroupRead, dst, None, 0, options.localEchoInTunneling);
      outcome := Done;
      assert Step(Snapshot(), outcome) == ClientModel.Read(s0, options, dst);
      if Inv(s0, options) {
        ClientInvariant.ReadInv(s0, options, dst);
      }
    }

    /** writeRaw(dstAddress, rawDataBuffer). */
    method WriteRaw(dst: KnxAddress, raw: Option<seq<byte>>) returns (outcome: Outcome)
      modifies this
      ensures Step(Snapshot(), outcome) == ClientModel.WriteRaw(old(Snapshot()), options, dst, raw)
      ensures old(Valid()) ==> Valid()
    {
      ghost var s0 := Snapshot();
      if connectionState != Connected {
        return Threw(NotConnected);
      }
      if raw.None? {
        return Done;
      }
      SendLDataRequest(GroupWrite, dst, raw, WriteAck(options), true);
      outcome := Done;
      assert Step(Snapshot(), outcome) == ClientModel.WriteRaw(s0, options, dst, raw);
      if Inv(s0, options) {
        ClientInvariant.WriteRawInv(s0, options, dst, raw);
      }
    }

    // ----- timers firing -----

    /** The event loop runs the callback armed under `id`. */
    method FireTimer(id: TimerId) returns (outcome: Outcome)
      requires id in scheduled
      modifies this
      ensures Step(Snapshot(), outcome) == Fire(old(Snapshot()), options, id)
      ensures old(Valid()) ==> Valid()
    {
      ghost var s0 := Snapshot();
      var cb := scheduled[id];
      scheduled := scheduled - {id};
      outcome := RunCallback(cb);
      assert Step(Snapshot(), outcome) == Fire(s0, options, id);
      if Inv(s0, options) {
        ClientInvariant.FireInv(s0, options, id);
      }
    }

    /** The body of the callback `cb`. */
    method RunCallback(cb: Callback) returns (outcome: Outcome)
      modifies this
      ensures Step(Snapshot(), outcome) == ClientModel.RunCallback(old(Snapshot()), options, cb)
    {
      outcome := Done;
      match cb
      case ConnectTimeout =>
        timer := None;
        Emit(ErrorEvent(ConnectionTimeout));
      case DisconnectTimeout =>
        timer := None;
      case DescriptionTimeout =>
        timer := None;
      case DisconnectFallback =>
        SetDisconnected();
      case HeartbeatTimeout =>
        HeartbeatTimedOut();
      case HeartbeatTick =>
        outcome := RunHeartbeat();
      case DiscoveryExpiry =>
        discoveryTimer := None;
      case AckTimeout(s) =>
        tunnelReqTimer := tunnelReqTimer - {s};
        Emit(ErrorEvent(RequestTimeout(s)));
    }

    // ----- inbound frames -----

    /** _processInboundMessage. */
    method ProcessInbound(msg: Inbound)
      modifies this
      ensures Snapshot() == ClientModel.ProcessInbound(old(Snapshot()), options, msg)
      ensures old(Valid()) ==> Valid()
    {
      ghost var s0 := Snapshot();
      match msg
      case Unparseable =>
        Emit(ErrorEvent(MalformedFrame));
      case Parsed(f) =>
        var st := f.serviceType;
        if st == SEARCH_RESPONSE {
          OnSearchResponse(f);
        } else if st == CONNECT_RESPONSE {
          OnConnectResponse(f);
        } else if st == DISCONNECT_RESPONSE {
          OnDisconnectResponse();
        } else if st == DISCONNECT_REQUEST {
          OnDisconnectRequest(f);
        } else if st == TUNNELING_REQUEST {
          OnTunnelingRequest(f);
        } else if st == TUNNELING_ACK {
          OnTunnelingAck(f);
        } else if st == ROUTING_INDICATION {
          OnRoutingIndication(f);
        } else if st == ROUTING_LOST_MESSAGE {
        } else {
          OnAwaitedResponse(f);
          Emit(ResponseEvent(f));
        }
      assert Snapshot() == ClientModel.ProcessInbound(s0, options, msg);
      if Inv(s0, options) {
        ClientInvariant.ProcessInboundInv(s0, options, msg);
      }
    }

    /** The SEARCH_RESPONSE branch. */
    method OnSearchResponse(f: InboundFrame)
      modifies this
      ensures Snapshot() == ClientModel.OnSearchResponse(old(Snapshot()), f)
    {
      if IsDiscoveryRunning() {
        Emit(DiscoverEvent(f));
      }
    }

    /** The DISCONNECT_RESPONSE branch. */
    method OnDisconnectResponse()
      modifies this
      ensures Snapshot() == ClientModel.OnDisconnectResponse(old(Snapshot()))
    {
      if connectionState != Disconnecting {
        Emit(ErrorEvent(UnexpectedDisconnectResponse));
      }
      SetDisconnected();
    }

    /** The DISCONNECT_REQUEST branch. */
    method OnDisconnectRequest(f: InboundFrame)
      modifies this
      ensures Snapshot() == ClientModel.OnDisconnectRequest(old(Snapshot()), f)
    {
      if channelID == Some(f.channelID) {
        connectionState := Disconnecting;
        Send(DisconnectResponse(f.channelID, KnxConnectResponse.E_NO_ERROR));
        SetDisconnected();
      }
    }

    /** The TUNNELING_REQUEST branch. */
    method OnTunnelingRequest(f: InboundFrame)
      modifies this
      ensures Snapshot() == ClientModel.OnTunnelingRequest(old(Snapshot()), f)
    {
      if channelID == Some(f.channelID) {
        if f.msgCode == L_DATA_IND {
          Emit(IndicationEvent(f));
        }
        Send(TunnelingAck(f.channelID, f.seqCounter, KnxConnectResponse.E_NO_ERROR));
      }
    }

    /** The ROUTING_INDICATION branch. */
    method OnRoutingIndication(f: InboundFrame)
      modifies this
      ensures Snapshot() == ClientModel.OnRoutingIndication(old(Snapshot()), f)
    {
      if f.msgCode == L_DATA_IND {
        Emit(IndicationEvent(f));
      }
    }

    /** The CONNECT_RESPONSE branch. */
    method OnConnectResponse(f: InboundFrame)
      modifies this
      ensures Snapshot() == ClientModel.OnConnectResponse(old(Snapshot()), options, f)
    {
      if connectionState != Connecting {
        return;
      }
      ClearTimeout(timer);
      timer := None;
      if f.status != KnxConnectResponse.E_NO_ERROR {
        RefuseConnection(f.status);
      } else {
        AcceptConnection(f.channelID);
      }
    }

    /** A refused connect response: report the status text and tear down. */
    method RefuseConnection(status: byte)
      modifies this
      ensures Snapshot() == ClientModel.SetDisconnected(
        ClientModel.Emit(old(Snapshot()), ErrorEvent(ConnectRefused(KnxConnectResponse.StatusToString(status)))))
    {
      Emit(ErrorEvent(ConnectRefused(KnxConnectResponse.StatusToString(status))));
      SetDisconnected();
    }

    /** An accepted connect response opens the channel and starts the heartbeat. */
    method AcceptConnection(id: byte)
      modifies this
      ensures Snapshot() == ClientModel.AcceptConnection(old(Snapshot()), options, id)
    {
      connectionState := Connected;
      channelID := Some(id);
      Emit(ConnectedEvent);
      var heartbeat := StartHeartBeat();
      if heartbeat.Threw? {
        // caught by the handler's try block
        Emit(ErrorEvent(Caught(heartbeat.error)));
      }
    }

    /** The TUNNELING_ACK branch. */
    method OnTunnelingAck(f: InboundFrame)
      modifies this
      ensures Snapshot() == ClientModel.OnTunnelingAck(old(Snapshot()), f)
    {
      if channelID != Some(f.channelID) {
        return;
      }
      var next := IncSeqNumber(f.seqCounter);
      if f.seqCounter as nat in tunnelReqTimer {
        ClearTimeout(Some(tunnelReqTimer[f.seqCounter]));
        tunnelReqTimer := tunnelReqTimer - {f.seqCounter as nat};
      }
    }

    /** The branch for any other service type, before the response is emitted. */
    method OnAwaitedResponse(f: InboundFrame)
      modifies this
      ensures Snapshot() == ClientModel.OnAwaitedResponse(old(Snapshot()), f)
    {
      if awaitingResponseType != Some(f.serviceType) {
        return;
      }
      if f.serviceType == CONNECTIONSTATE_RESPONSE {
        if f.status != KnxConnectResponse.E_NO_ERROR {
          Emit(ErrorEvent(ConnectionStateRefused(f.status)));
          SetDisconnected();
        } else {
          ClearTimeout(heartbeatTimer);
          heartbeatFailures := 0;
        }
      } else {
        ClearTimeout(timer);
      }
    }
  }
}
