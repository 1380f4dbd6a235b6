/**
 * The connection engine of KNXClient as functions over a snapshot of its fields.
 *
 * Each function is the effect of one operation of the client: it takes the fields before the
 * call and gives the fields after it (and, for operations that throw, the exception). The class
 * KnxClientEngine.KnxClient performs the same updates in place and is proved against these
 * functions; the properties of the engine are proved about them in ClientProperties.
 *
 * Timers: every setTimeout allocates a fresh handle and records the callback it will run in
 * `scheduled`; clearTimeout removes the handle from `scheduled`; Fire runs a scheduled callback.
 * A handle field (timer, heartbeatTimer, ...) only remembers a handle, which may already have
 * fired or been cleared, exactly like the JavaScript timer objects it stands for.
 */
module ClientModel {
  import opened KnxTypes
  import KnxConnectResponse

  // KNXnet/IP service type identifiers (KNXnet/IP Core, KNX Standard 03.08.02).
  const SEARCH_REQUEST: nat := 0x0201
  const SEARCH_RESPONSE: nat := 0x0202
  const DESCRIPTION_REQUEST: nat := 0x0203
  const DESCRIPTION_RESPONSE: nat := 0x0204
  const CONNECT_REQUEST: nat := 0x0205
  const CONNECT_RESPONSE: nat := 0x0206
  const CONNECTIONSTATE_REQUEST: nat := 0x0207
  const CONNECTIONSTATE_RESPONSE: nat := 0x0208
  const DISCONNECT_REQUEST: nat := 0x0209
  const DISCONNECT_RESPONSE: nat := 0x020A
  const TUNNELING_REQUEST: nat := 0x0420
  const TUNNELING_ACK: nat := 0x0421
  const ROUTING_INDICATION: nat := 0x0530
  const ROUTING_LOST_MESSAGE: nat := 0x0531

  // cEMI message codes.
  const L_DATA_REQ: byte := 0x11
  const L_DATA_IND: byte := 0x29
  const L_DATA_CON: byte := 0x2E

  /** Consecutive heartbeat timeouts after which the connection is declared dead. */
  const MAX_HEARTBEAT_FAILURES: nat := 3

  type TimerId = nat

  /** STATE of the client. The constructor starts in Disconnected; Started is never entered. */
  datatype ConnectionState = Started | Connecting | Connected | Disconnecting | Disconnected

  /** The transport named by options.hostProtocol; any other string is Unrecognised. */
  datatype HostProtocol = TunnelUDP | TunnelTCP | Multicast | Unrecognised

  /** A KNX individual or group address, as produced by KNXAddress.createFromString. */
  datatype KnxAddress = KnxAddress(raw: nat)

  /** The options the engine reads; they do not change after construction. */
  datatype Options = Options(
    physAddr: KnxAddress,
    hostProtocol: HostProtocol,
    suppressAckLDataReq: bool,
    localEchoInTunneling: bool)
  {
    /** The constructor creates a socket for the three known transports only. */
    predicate HasSocket()
    {
      hostProtocol != Unrecognised
    }
  }

  /** The tunnel layer requested in the connect request's CRI. */
  datatype TunnelLayer = LinkLayer | RawLayer | BusMonitorLayer

  /** The group-object service an L_Data.req carries. */
  datatype GroupService = GroupWrite | GroupResponse | GroupRead

  /** cEMI control field values set on every outgoing L_Data.req. */
  datatype Control = Control(ack: nat, broadcast: nat, priority: nat, addressType: nat, hopCount: nat)

  /** An L_Data.req as built by CEMIFactory.newLDataRequestMessage; `data` is null for a read. */
  datatype LDataRequest = LDataRequest(
    service: GroupService,
    src: KnxAddress,
    dst: KnxAddress,
    data: Option<seq<byte>>,
    control: Control)

  /** Everything the client passes to send. */
  datatype Packet =
    | SearchRequest
    | DescriptionRequest
    | ConnectRequest(layer: TunnelLayer)
    | ConnectionStateRequest(channelID: Option<byte>)
    | DisconnectRequest(channelID: Option<byte>)
    | DisconnectResponse(respondedChannel: byte, respondedStatus: byte)
    | TunnelingRequest(channelID: Option<byte>, seqCounter: nat, cemi: LDataRequest)
    | TunnelingAck(ackedChannel: byte, ackedSeqCounter: byte, ackStatus: byte)
    | RoutingIndication(cemi: LDataRequest)

  /** An inbound frame as KNXProtocol.parseMessage delivers it, reduced to the fields the engine reads. */
  datatype InboundFrame = InboundFrame(
    serviceType: nat,
    channelID: byte,
    seqCounter: byte,
    status: byte,
    msgCode: byte)

  /** An inbound datagram: either it parses, or parseMessage throws. */
  datatype Inbound = Parsed(frame: InboundFrame) | Unparseable

  /** The exceptions the public operations throw synchronously. */
  datatype ClientError =
    | NoSocket          // 'No client socket defined'
    | IsDisconnecting   // 'Socket is disconnecting. Please wait until disconnected.'
    | IsConnecting      // 'Socket is connecting. Please wait until connected.'
    | AlreadyConnected  // 'Socket is already connected. Disconnect first.'
    | NotConnected      // 'The socket is not connected. Unable to access the KNX BUS'
    | DiscoveryRunning  // 'Discovery already running'

  /** The payload of an `error` event. */
  datatype ErrorReport =
    | ConnectionTimeout                    // no connect response in time
    | ConnectRefused(reason: string)       // statusToString of a failed connect response
    | ConnectionStateRefused(status: byte) // a failed connection-state response
    | UnexpectedDisconnectResponse
    | ConnectionDead                       // the third consecutive heartbeat timeout
    | RequestTimeout(seqCounter: nat)      // no tunnelling ack in time
    | MalformedFrame                       // parseMessage threw
    | Caught(error: ClientError)           // an exception caught by the inbound handler

  /** Everything the client passes to emit. */
  datatype Event =
    | ConnectingEvent
    | ConnectedEvent
    | DisconnectedEvent
    | IndicationEvent(frame: InboundFrame)  // indication with isLocalEcho = false
    | LocalEchoEvent(packet: Packet)        // indication with isLocalEcho = true
    | ResponseEvent(frame: InboundFrame)
    | DiscoverEvent(frame: InboundFrame)
    | ErrorEvent(error: ErrorReport)

  /** The body of each setTimeout callback the client schedules. */
  datatype Callback =
    | ConnectTimeout      // Connect: clear _timer, emit a connection timeout error
    | DisconnectTimeout   // Disconnect: clear _timer
    | DescriptionTimeout  // getDescription: clear _timer
    | DisconnectFallback  // Disconnect: force _setDisconnected
    | HeartbeatTimeout    // getConnectionStatus: count a heartbeat failure
    | HeartbeatTick       // _runHeartbeat: probe again
    | DiscoveryExpiry     // startDiscovery: clear _discovery_timer
    | AckTimeout(seqCounter: nat)  // _setTimerAndCallback: forget the request, report a timeout

  /** Whether a synchronous call returned or threw. */
  datatype Outcome = Done | Threw(error: ClientError)

  /** The mutable fields of a KNXClient, plus what it has sent and emitted so far. */
  datatype ClientState = ClientState(
    connectionState: ConnectionState,
    channelID: Option<byte>,
    seqNumber: nat,                        // _clientTunnelSeqNumber
    tunnelReqTimer: map<nat, TimerId>,     // pending acknowledgements, by sequence number
    heartbeatFailures: nat,
    heartbeatRunning: bool,
    awaitingResponseType: Option<nat>,
    timer: Option<TimerId>,
    heartbeatTimer: Option<TimerId>,
    discoveryTimer: Option<TimerId>,
    disconnectTimer: Option<TimerId>,      // _timerTimeoutSendDisconnectRequestMessage
    scheduled: map<TimerId, Callback>,     // callbacks still to run
    nextTimerId: TimerId,
    socketClosed: bool,
    outbox: seq<Packet>,
    events: seq<Event>)

  /** The state after an operation that may throw, and whether it did. */
  datatype Step = Step(next: ClientState, outcome: Outcome)

  /** The fields as the constructor leaves them. */
  function Initial(): ClientState
  {
    ClientState(Disconnected, None, 0, map[], 0, false, None, None, None, None, None,
                map[], 0, false, [], [])
  }

  // ----- invariant -----

  /** The four handle fields, by the callbacks each may name. */
  datatype Handle = RequestTimer | HeartbeatTimer | DiscoveryTimer | FallbackTimer

  /** Which callbacks a handle field may name: _timer is armed by Connect, Disconnect and getDescription. */
  predicate Names(h: Handle, cb: Callback)
  {
    match h
    case RequestTimer => cb.ConnectTimeout? || cb.DisconnectTimeout? || cb.DescriptionTimeout?
    case HeartbeatTimer => cb.HeartbeatTimeout?
    case DiscoveryTimer => cb.DiscoveryExpiry?
    case FallbackTimer => cb.DisconnectFallback?
  }

  /** The fields that hold timers. */
  datatype TimerFields = TimerFields(
    scheduled: map<TimerId, Callback>,
    nextTimerId: TimerId,
    timer: Option<TimerId>,
    heartbeatTimer: Option<TimerId>,
    discoveryTimer: Option<TimerId>,
    disconnectTimer: Option<TimerId>,
    tunnelReqTimer: map<nat, TimerId>)

  function Timers(e: ClientState): TimerFields
  {
    TimerFields(e.scheduled, e.nextTimerId, e.timer, e.heartbeatTimer, e.discoveryTimer,
                e.disconnectTimer, e.tunnelReqTimer)
  }

  /** A handle field names an allocated timer, and if that timer is still scheduled it is of its kind. */
  predicate HandleRuns(t: TimerFields, id: Option<TimerId>, h: Handle)
  {
    id.Some? ==> id.value < t.nextTimerId && (id.value in t.scheduled ==> Names(h, t.scheduled[id.value]))
  }

  /** Every pending acknowledgement is a one-octet number whose timer is scheduled and reports that number. */
  predicate PendingAcksLive(t: TimerFields)
  {
    forall s :: s in t.tunnelReqTimer ==>
      s < 256 && t.tunnelReqTimer[s] in t.scheduled && t.scheduled[t.tunnelReqTimer[s]] == AckTimeout(s)
  }

  /** The timers: fresh handles are never reused, handle fields name timers of their kind, acks are live. */
  predicate TimersOk(t: TimerFields)
  {
    && (forall id :: id in t.scheduled ==> id < t.nextTimerId)
    && HandleRuns(t, t.timer, RequestTimer)
    && HandleRuns(t, t.heartbeatTimer, HeartbeatTimer)
    && HandleRuns(t, t.discoveryTimer, DiscoveryTimer)
    && HandleRuns(t, t.disconnectTimer, FallbackTimer)
    && PendingAcksLive(t)
  }

  predicate TimersInv(e: ClientState)
  {
    TimersOk(Timers(e))
  }

  /** The fields that describe the connection. */
  datatype ConnectionFields = ConnectionFields(
    connectionState: ConnectionState,
    channelID: Option<byte>,
    seqNumber: nat,
    heartbeatFailures: nat,
    tunnelReqTimer: map<nat, TimerId>)

  function Connection(e: ClientState): ConnectionFields
  {
    ConnectionFields(e.connectionState, e.channelID, e.seqNumber, e.heartbeatFailures, e.tunnelReqTimer)
  }

  /** The connection: the counter fits in one octet and the state agrees with the channel id and transport. */
  predicate ConnectionOk(c: ConnectionFields, o: Options)
  {
    && c.connectionState != Started
    && c.seqNumber < 256
    && c.heartbeatFailures < MAX_HEARTBEAT_FAILURES
    // routing and suppressed acknowledgements never wait for a tunnelling ack
    && (o.hostProtocol == Multicast || o.suppressAckLDataReq ==> c.tunnelReqTimer == map[])
    && (c.connectionState == Connecting || c.connectionState == Disconnected ==> c.channelID.None?)
    && (o.hostProtocol == Multicast ==> c.channelID.None? && c.connectionState != Connecting)
    && (c.connectionState == Connected && o.hostProtocol != Multicast ==> c.channelID.Some?)
    && (!o.HasSocket() ==> c.connectionState == Disconnected)
  }

  predicate ConnectionInv(e: ClientState, o: Options)
  {
    ConnectionOk(Connection(e), o)
  }

  /** What holds of the fields of every client between two operations. */
  predicate Inv(e: ClientState, o: Options)
  {
    TimersInv(e) && ConnectionInv(e, o)
  }

  // ----- primitives -----

  /** setTimeout: the callback is scheduled under the fresh handle e.nextTimerId. */
  function Schedule(e: ClientState, cb: Callback): ClientState
  {
    e.(scheduled := e.scheduled[e.nextTimerId := cb], nextTimerId := e.nextTimerId + 1)
  }

  /** `if (handle !== null) clearTimeout(handle)`. */
  function ClearTimeout(e: ClientState, handle: Option<TimerId>): ClientState
  {
    if handle.Some? then e.(scheduled := e.scheduled - {handle.value}) else e
  }

  function Send(e: ClientState, p: Packet): ClientState
  {
    e.(outbox := e.outbox + [p])
  }

  function Emit(e: ClientState, ev: Event): ClientState
  {
    e.(events := e.events + [ev])
  }

  // ----- sequence numbers and pending acknowledgements -----

  /**
   * _incSeqNumber: an acknowledged number of 0 is falsy in JavaScript, so the current counter is
   * incremented instead; anything above 255 wraps to 0.
   */
  function NextSeq(current: nat, acked: nat): (next: nat)
    ensures next < 256
    ensures 1 <= acked <= 255 ==> next == (acked + 1) % 256
    ensures acked == 0 && current < 256 ==> next == (current + 1) % 256
  {
    var n := if acked != 0 then acked + 1 else current + 1;
    if n > 255 then 0 else n
  }

  function IncSeqNumber(e: ClientState, acked: nat): ClientState
  {
    e.(seqNumber := NextSeq(e.seqNumber, acked))
  }

  /** _setTimerAndCallback: arm an acknowledgement timeout, replacing any entry for that number. */
  function SetTimerAndCallback(e: ClientState, seqCounter: nat): ClientState
  {
    Schedule(e, AckTimeout(seqCounter)).(tunnelReqTimer := e.tunnelReqTimer[seqCounter := e.nextTimerId])
  }

  // ----- heartbeat -----

  /** stopHeartBeat: acts only when a heartbeat timer handle is set. */
  function StopHeartBeat(e: ClientState): ClientState
  {
    if e.heartbeatTimer.Some? then ClearTimeout(e.(heartbeatRunning := false), e.heartbeatTimer)
    else e
  }

  /** getConnectionStatus: arm the heartbeat timeout and send a connection-state request. */
  function GetConnectionStatus(e: ClientState, o: Options): Step
  {
    if !o.HasSocket() then Step(e, Threw(NoSocket))
    else
      var armed := Schedule(e, HeartbeatTimeout).(
        heartbeatTimer := Some(e.nextTimerId),
        awaitingResponseType := Some(CONNECTIONSTATE_RESPONSE));
      Step(Send(armed, ConnectionStateRequest(e.channelID)), Done)
  }

  /** _runHeartbeat: while running, probe now and schedule the next probe. */
  function RunHeartbeat(e: ClientState, o: Options): Step
  {
    if !e.heartbeatRunning then Step(e, Done)
    else
      var probe := GetConnectionStatus(e, o);
      if probe.outcome.Threw? then probe else Step(Schedule(probe.next, HeartbeatTick), Done)
  }

  /** startHeartBeat. */
  function StartHeartBeat(e: ClientState, o: Options): Step
  {
    RunHeartbeat(StopHeartBeat(e).(heartbeatFailures := 0, heartbeatRunning := true), o)
  }

  /** The body of the heartbeat timeout: the third consecutive failure tears the connection down. */
  function HeartbeatTimedOut(e: ClientState): ClientState
  {
    var failed := e.(heartbeatTimer := None, heartbeatFailures := e.heartbeatFailures + 1);
    if failed.heartbeatFailures >= MAX_HEARTBEAT_FAILURES then
      SetDisconnected(Emit(failed.(heartbeatFailures := 0), ErrorEvent(ConnectionDead)))
    else failed
  }

  // ----- teardown -----

  /**
   * _setDisconnected. The fallback timer is cleared through a misspelt field, so only the handle
   * is forgotten and the callback stays scheduled; the pending-acknowledgement table is replaced
   * without clearing its timers; `disconnected` is emitted on every call.
   */
  function SetDisconnected(e: ClientState): ClientState
  {
    var stopped := StopHeartBeat(ClearTimeout(e.(disconnectTimer := None), e.timer));
    Emit(stopped, DisconnectedEvent).(
      connectionState := Disconnected,
      seqNumber := 0,
      channelID := None,
      tunnelReqTimer := map[],
      socketClosed := true)
  }

  // ----- public operations -----

  /**
   * `_timer = setTimeout(cb)` followed by `_awaitingResponseType = awaited`: the request timeout that
   * Connect, Disconnect and getDescription arm. A previous _timer is not cleared here.
   */
  function AwaitResponse(e: ClientState, cb: Callback, awaited: nat): ClientState
  {
    Schedule(e, cb).(timer := Some(e.nextTimerId), awaitingResponseType := Some(awaited))
  }

  /** Connect(knxLayer). */
  function Connect(e: ClientState, o: Options, layer: TunnelLayer): Step
  {
    if !o.HasSocket() then Step(e, Threw(NoSocket))
    else if e.connectionState == Disconnecting then Step(e, Threw(IsDisconnecting))
    else if e.connectionState == Connecting then Step(e, Threw(IsConnecting))
    else if e.connectionState == Connected then Step(e, Threw(AlreadyConnected))
    else Step(BeginConnect(e, o, layer), Done)
  }

  /** Connect once its guards have passed: announce `connecting`, then open the transport. */
  function BeginConnect(e: ClientState, o: Options, layer: TunnelLayer): ClientState
  {
    var connecting := Emit(ClearTimeout(e.(connectionState := Connecting), e.timer), ConnectingEvent);
    if o.hostProtocol == TunnelUDP then
      var armed := AwaitResponse(connecting, ConnectTimeout, CONNECT_RESPONSE).(seqNumber := 0);
      Send(armed, ConnectRequest(layer))
    else if o.hostProtocol == TunnelTCP then
      // the rest happens in the stream's connect callback
      connecting
    else
      Emit(connecting.(connectionState := Connected, seqNumber := 0), ConnectedEvent)
  }

  /** Disconnect(): no state precondition; a fallback timer forces the teardown later. */
  function Disconnect(e: ClientState, o: Options): Step
  {
    if !o.HasSocket() then Step(e, Threw(NoSocket))
    else
      var stopping := StopHeartBeat(e).(connectionState := Disconnecting);
      var sent := Send(AwaitResponse(stopping, DisconnectTimeout, DISCONNECT_RESPONSE),
                       DisconnectRequest(e.channelID));
      Step(ArmFallback(sent), Done)
  }

  /**
   * The fallback of Disconnect: a timer that forces _setDisconnected if no DISCONNECT_RESPONSE
   * arrives. Its handle is `_disconnectTimer`.
   */
  function ArmFallback(e: ClientState): ClientState
  {
    Schedule(e, DisconnectFallback).(disconnectTimer := Some(e.nextTimerId))
  }

  /** getDescription: a fresh _timer handle replaces the old one, which is not cleared. */
  function GetDescription(e: ClientState, o: Options): Step
  {
    if !o.HasSocket() then Step(e, Threw(NoSocket))
    else
      Step(Send(AwaitResponse(e, DescriptionTimeout, DESCRIPTION_RESPONSE), DescriptionRequest), Done)
  }

  /** isDiscoveryRunning. */
  predicate IsDiscoveryRunning(e: ClientState)
  {
    e.discoveryTimer.Some?
  }

  /** startDiscovery. */
  function StartDiscovery(e: ClientState): Step
  {
    if IsDiscoveryRunning(e) then Step(e, Threw(DiscoveryRunning))
    else
      var armed := Schedule(e, DiscoveryExpiry).(discoveryTimer := Some(e.nextTimerId));
      Step(Send(armed, SearchRequest), Done)
  }

  /** stopDiscovery. */
  function StopDiscovery(e: ClientState): ClientState
  {
    if !IsDiscoveryRunning(e) then e
    else ClearTimeout(e, e.discoveryTimer).(discoveryTimer := None)
  }

  /** The cEMI control fields of every L_Data.req the client builds. */
  function RequestControl(ack: nat): Control
  {
    Control(ack, 1, 3, 1, 6)
  }

  /**
   * The send path shared by write, respond, read and writeRaw once the client is connected.
   * Multicast wraps the frame in a routing indication with ack 0; tunnelling tags it with the
   * current counter, arms an acknowledgement timeout unless acknowledgements are suppressed, and
   * echoes it when localEchoInTunneling is set.
   */
  function SendLDataRequest(e: ClientState, o: Options, service: GroupService, dst: KnxAddress,
                            data: Option<seq<byte>>, tunnelAck: nat, multicastEcho: bool): ClientState
  {
    if o.hostProtocol == Multicast then
      var p := RoutingIndication(LDataRequest(service, o.physAddr, dst, data, RequestControl(0)));
      var sent := Send(e, p);
      if multicastEcho then Emit(sent, LocalEchoEvent(p)) else sent
    else
      var p := TunnelingRequest(e.channelID, e.seqNumber,
                                LDataRequest(service, o.physAddr, dst, data, RequestControl(tunnelAck)));
      var armed := if !o.suppressAckLDataReq then SetTimerAndCallback(e, e.seqNumber) else e;
      var sent := Send(armed, p);
      if o.localEchoInTunneling then Emit(sent, LocalEchoEvent(p)) else sent
  }

  /** The ack flag of a tunnelled write or response. */
  function WriteAck(o: Options): nat
  {
    if o.suppressAckLDataReq then 0 else 1
  }

  /** write(dst, value, dpt): `payload` is what the datapoint encoder made of the value. */
  function Write(e: ClientState, o: Options, dst: KnxAddress, payload: seq<byte>): Step
  {
    if e.connectionState != Connected then Step(e, Threw(NotConnected))
    else Step(SendLDataRequest(e, o, GroupWrite, dst, Some(payload), WriteAck(o), true), Done)
  }

  /** respond(dst, value, dpt). */
  function Respond(e: ClientState, o: Options, dst: KnxAddress, payload: seq<byte>): Step
  {
    if e.connectionState != Connected then Step(e, Threw(NotConnected))
    else Step(SendLDataRequest(e, o, GroupResponse, dst, Some(payload), WriteAck(o),
                               o.localEchoInTunneling), Done)
  }

  /** read(dst): ack 0 like ETS, yet a tunnelled read still arms an acknowledgement timeout. */
  function Read(e: ClientState, o: Options, dst: KnxAddress): Step
  {
    if e.connectionState != Connected then Step(e, Threw(NotConnected))
    else Step(SendLDataRequest(e, o, GroupRead, dst, None, 0, o.localEchoInTunneling), Done)
  }

  /** writeRaw(dst, raw): a value that is not a Buffer (None) is logged and dropped. */
  function WriteRaw(e: ClientState, o: Options, dst: KnxAddress, raw: Option<seq<byte>>): Step
  {
    if e.connectionState != Connected then Step(e, Threw(NotConnected))
    else if raw.None? then Step(e, Done)
    else Step(SendLDataRequest(e, o, GroupWrite, dst, raw, WriteAck(o), true), Done)
  }

  // ----- timers firing -----

  /** The callback behind a scheduled handle runs: the handle leaves `scheduled`, then its body. */
  function Fire(e: ClientState, o: Options, id: TimerId): Step
    requires id in e.scheduled
  {
    RunCallback(e.(scheduled := e.scheduled - {id}), o, e.scheduled[id])
  }

  /** The body of each callback. Only the heartbeat tick can throw (through getConnectionStatus). */
  function RunCallback(e: ClientState, o: Options, cb: Callback): Step
  {
    match cb
    case ConnectTimeout => Step(Emit(e.(timer := None), ErrorEvent(ConnectionTimeout)), Done)
    case DisconnectTimeout => Step(e.(timer := None), Done)
    case DescriptionTimeout => Step(e.(timer := None), Done)
    case DisconnectFallback => Step(SetDisconnected(e), Done)
    case HeartbeatTimeout => Step(HeartbeatTimedOut(e), Done)
    case HeartbeatTick => RunHeartbeat(e, o)
    case DiscoveryExpiry => Step(e.(discoveryTimer := None), Done)
    case AckTimeout(s) => Step(AckTimedOut(e, s), Done)
  }

  /** The body of an acknowledgement timeout: forget the request and report it. */
  function AckTimedOut(e: ClientState, seqCounter: nat): ClientState
  {
    Emit(e.(tunnelReqTimer := e.tunnelReqTimer - {seqCounter}), ErrorEvent(RequestTimeout(seqCounter)))
  }

  // ----- inbound frames -----

  /** Whether an inbound channel id is the client's (a null channel id matches nothing). */
  predicate OnChannel(e: ClientState, f: InboundFrame)
  {
    e.channelID == Some(f.channelID)
  }

  /** _processInboundMessage: dispatch on the service type; a frame that does not parse is reported. */
  function ProcessInbound(e: ClientState, o: Options, msg: Inbound): ClientState
  {
    match msg
    case Unparseable => Emit(e, ErrorEvent(MalformedFrame))
    case Parsed(f) =>
      var st := f.serviceType;
      if st == SEARCH_RESPONSE then OnSearchResponse(e, f)
      else if st == CONNECT_RESPONSE then OnConnectResponse(e, o, f)
      else if st == DISCONNECT_RESPONSE then OnDisconnectResponse(e)
      else if st == DISCONNECT_REQUEST then OnDisconnectRequest(e, f)
      else if st == TUNNELING_REQUEST then OnTunnelingRequest(e, f)
      else if st == TUNNELING_ACK then OnTunnelingAck(e, f)
      else if st == ROUTING_INDICATION then OnRoutingIndication(e, f)
      else if st == ROUTING_LOST_MESSAGE then e
      else Emit(OnAwaitedResponse(e, f), ResponseEvent(f))
  }

  /** The SEARCH_RESPONSE branch: reported only while a discovery runs. */
  function OnSearchResponse(e: ClientState, f: InboundFrame): ClientState
  {
    if !IsDiscoveryRunning(e) then e else Emit(e, DiscoverEvent(f))
  }

  /** The DISCONNECT_RESPONSE branch: always tears down, complaining unless a disconnect was pending. */
  function OnDisconnectResponse(e: ClientState): ClientState
  {
    var reported := if e.connectionState != Disconnecting
                    then Emit(e, ErrorEvent(UnexpectedDisconnectResponse)) else e;
    SetDisconnected(reported)
  }

  /** The DISCONNECT_REQUEST branch: on the client's channel, answer and tear down. */
  function OnDisconnectRequest(e: ClientState, f: InboundFrame): ClientState
  {
    if !OnChannel(e, f) then e
    else SetDisconnected(Send(e.(connectionState := Disconnecting),
                              DisconnectResponse(f.channelID, KnxConnectResponse.E_NO_ERROR)))
  }

  /** The TUNNELING_REQUEST branch: on the client's channel, report an indication and always acknowledge. */
  function OnTunnelingRequest(e: ClientState, f: InboundFrame): ClientState
  {
    if !OnChannel(e, f) then e
    else
      var indicated := if f.msgCode == L_DATA_IND then Emit(e, IndicationEvent(f)) else e;
      Send(indicated, TunnelingAck(f.channelID, f.seqCounter, KnxConnectResponse.E_NO_ERROR))
  }

  /** The ROUTING_INDICATION branch: only an L_Data.ind is reported. */
  function OnRoutingIndication(e: ClientState, f: InboundFrame): ClientState
  {
    if f.msgCode == L_DATA_IND then Emit(e, IndicationEvent(f)) else e
  }

  /** The CONNECT_RESPONSE branch. */
  function OnConnectResponse(e: ClientState, o: Options, f: InboundFrame): ClientState
  {
    if e.connectionState != Connecting then e
    else
      var answered := ClearTimeout(e, e.timer).(timer := None);
      if f.status != KnxConnectResponse.E_NO_ERROR then
        var reason := KnxConnectResponse.StatusToString(f.status);
        SetDisconnected(Emit(answered, ErrorEvent(ConnectRefused(reason))))
      else AcceptConnection(answered, o, f.channelID)
  }

  /**
   * An accepted connect response: the channel opens and the heartbeat starts; an exception from
   * the heartbeat is caught by the inbound handler and reported.
   */
  function AcceptConnection(e: ClientState, o: Options, channelID: byte): ClientState
  {
    var connected := Emit(e.(connectionState := Connected, channelID := Some(channelID)), ConnectedEvent);
    var heartbeat := StartHeartBeat(connected, o);
    if heartbeat.outcome.Threw? then Emit(heartbeat.next, ErrorEvent(Caught(heartbeat.outcome.error)))
    else heartbeat.next
  }

  /** The TUNNELING_ACK branch. */
  function OnTunnelingAck(e: ClientState, f: InboundFrame): ClientState
  {
    if !OnChannel(e, f) then e
    else
      var advanced := IncSeqNumber(e, f.seqCounter);
      if f.seqCounter as nat in advanced.tunnelReqTimer then
        var handle := advanced.tunnelReqTimer[f.seqCounter];
        ClearTimeout(advanced, Some(handle)).(tunnelReqTimer := advanced.tunnelReqTimer - {f.seqCounter as nat})
      else advanced
  }

  /** The branch for any other service type: settle the awaited response, if this is it. */
  function OnAwaitedResponse(e: ClientState, f: InboundFrame): ClientState
  {
    if e.awaitingResponseType != Some(f.serviceType) then e
    else if f.serviceType == CONNECTIONSTATE_RESPONSE then
      if f.status != KnxConnectResponse.E_NO_ERROR then
        SetDisconnected(Emit(e, ErrorEvent(ConnectionStateRefused(f.status))))
      else ClearTimeout(e, e.heartbeatTimer).(heartbeatFailures := 0)
    else ClearTimeout(e, e.timer)
  }
}
