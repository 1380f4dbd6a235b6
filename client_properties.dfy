/**
 * What the connection engine of KNXClient does, proved about the functions of ClientModel:
 * the guards of the public operations, the send path of group requests, the bookkeeping of
 * tunnelling sequence numbers and acknowledgement timers, the handling of inbound frames, the
 * heartbeat and the teardown, including the places where a timer outlives the handle that
 * named it.
 */
module ClientProperties {
  import opened KnxTypes
  import opened ClientModel
  import KnxConnectResponse
  import ClientInvariant

  // ----- Connect -----

  /** Connect throws exactly without a socket or while connecting, connected or disconnecting, and then changes nothing. */
  lemma ConnectGuard(e: ClientState, o: Options, layer: TunnelLayer)
    ensures Connect(e, o, layer).outcome.Threw? <==>
      !o.HasSocket() || e.connectionState in {Disconnecting, Connecting, Connected}
    ensures Connect(e, o, layer).outcome.Threw? ==> Connect(e, o, layer).next == e
    ensures Inv(e, o) ==>
      (Connect(e, o, layer).outcome.Done? <==> o.HasSocket() && e.connectionState == Disconnected)
    ensures o.HasSocket() && e.connectionState == Disconnecting ==>
      Connect(e, o, layer).outcome == Threw(IsDisconnecting)
    ensures o.HasSocket() && e.connectionState == Connecting ==>
      Connect(e, o, layer).outcome == Threw(IsConnecting)
    ensures o.HasSocket() && e.connectionState == Connected ==>
      Connect(e, o, layer).outcome == Threw(AlreadyConnected)
  {
  }

  /**
   * Over UDP an accepted Connect announces `connecting`, restarts the counter at 0, clears the old
   * request timer, arms the connect timeout and sends one connect request.
   */
  lemma ConnectUdp(e: ClientState, o: Options, layer: TunnelLayer)
    requires o.hostProtocol == TunnelUDP && e.connectionState == Disconnected
    ensures var r := Connect(e, o, layer);
      && r.outcome.Done?
      && r.next.connectionState == Connecting
      && r.next.seqNumber == 0
      && r.next.events == e.events + [ConnectingEvent]
      && r.next.outbox == e.outbox + [ConnectRequest(layer)]
      && r.next.awaitingResponseType == Some(CONNECT_RESPONSE)
      && r.next.timer == Some(e.nextTimerId)
      && r.next.scheduled[e.nextTimerId] == ConnectTimeout
      && (e.timer.Some? && e.timer.value != e.nextTimerId ==> e.timer.value !in r.next.scheduled)
  {
  }

  /** Over TCP Connect only announces `connecting`: the request is left to the stream's connect callback. */
  lemma ConnectTcp(e: ClientState, o: Options, layer: TunnelLayer)
    requires o.hostProtocol == TunnelTCP && e.connectionState == Disconnected
    ensures var r := Connect(e, o, layer);
      && r.outcome.Done?
      && r.next.connectionState == Connecting
      && r.next.events == e.events + [ConnectingEvent]
      && r.next.outbox == e.outbox
      && r.next.nextTimerId == e.nextTimerId
  {
  }

  /** Routing needs no connection: Connect goes straight to Connected without sending anything. */
  lemma ConnectMulticast(e: ClientState, o: Options, layer: TunnelLayer)
    requires o.hostProtocol == Multicast && e.connectionState == Disconnected
    ensures var r := Connect(e, o, layer);
      && r.outcome.Done?
      && r.next.connectionState == Connected
      && r.next.seqNumber == 0
      && r.next.events == e.events + [ConnectingEvent, ConnectedEvent]
      && r.next.outbox == e.outbox
  {
  }

  /**
   * The connect timeout reports the error and forgets the handle but leaves the client in
   * Connecting, so a later Connect is refused until something tears the connection down.
   */
  lemma ConnectTimeoutLeavesConnecting(e: ClientState, o: Options, layer: TunnelLayer)
    requires o.hostProtocol == TunnelUDP && e.connectionState == Disconnected
    ensures var c := Connect(e, o, layer).next;
      && e.nextTimerId in c.scheduled
      && var t := Fire(c, o, e.nextTimerId).next;
      && t.connectionState == Connecting
      && t.timer.None?
      && t.events == c.events + [ErrorEvent(ConnectionTimeout)]
      && Connect(t, o, layer) == Step(t, Threw(IsConnecting))
  {
  }

  // ----- Disconnect -----

  /**
   * Disconnect works from every state: it stops the heartbeat if a heartbeat handle is set, enters
   * Disconnecting, sends one disconnect request on the current channel, and arms a request timeout
   * followed by a fallback that will force the teardown.
   */
  lemma DisconnectEffects(e: ClientState, o: Options)
    requires o.HasSocket()
    ensures var r := Disconnect(e, o);
      && r.outcome.Done?
      && r.next.connectionState == Disconnecting
      && r.next.outbox == e.outbox + [DisconnectRequest(e.channelID)]
      && r.next.events == e.events
      && r.next.awaitingResponseType == Some(DISCONNECT_RESPONSE)
      && r.next.timer == Some(e.nextTimerId)
      && r.next.scheduled[e.nextTimerId] == DisconnectTimeout
      && r.next.disconnectTimer == Some(e.nextTimerId + 1)
      && r.next.scheduled[e.nextTimerId + 1] == DisconnectFallback
      && (e.heartbeatTimer.Some? ==> !r.next.heartbeatRunning)
      && (e.heartbeatTimer.Some? && e.heartbeatTimer.value < e.nextTimerId ==>
            e.heartbeatTimer.value !in r.next.scheduled)
  {
  }

  /** Without a socket Disconnect, getDescription and getConnectionStatus throw and change nothing. */
  lemma NoSocketThrows(e: ClientState, o: Options, layer: TunnelLayer)
    requires !o.HasSocket()
    ensures Disconnect(e, o) == Step(e, Threw(NoSocket))
    ensures GetDescription(e, o) == Step(e, Threw(NoSocket))
    ensures GetConnectionStatus(e, o) == Step(e, Threw(NoSocket))
    ensures Connect(e, o, layer) == Step(e, Threw(NoSocket))
  {
  }

  // ----- teardown -----

  /**
   * _setDisconnected from any state: Disconnected, counter 0, no channel, an empty
   * acknowledgement table, the socket closed and `disconnected` announced.
   */
  lemma SetDisconnectedResets(e: ClientState)
    ensures var r := SetDisconnected(e);
      && r.connectionState == Disconnected
      && r.seqNumber == 0
      && r.channelID.None?
      && r.tunnelReqTimer == map[]
      && r.socketClosed
      && r.disconnectTimer.None?
      && r.events == e.events + [DisconnectedEvent]
      && r.outbox == e.outbox
  {
  }

  /**
   * What _setDisconnected does not cancel: the fallback timer (cleared through a field that does
   * not exist) and the acknowledgement timers of the table it replaces stay scheduled, and the
   * request-timer handle is cleared but not forgotten.
   */
  lemma SetDisconnectedLeavesTimers(e: ClientState)
    requires TimersInv(e)
    ensures var r := SetDisconnected(e);
      && (e.disconnectTimer.Some? && e.disconnectTimer.value in e.scheduled ==>
            e.disconnectTimer.value in r.scheduled)
      && (forall s :: s in e.tunnelReqTimer ==> e.tunnelReqTimer[s] in r.scheduled)
      && r.timer == e.timer
      && (e.timer.Some? ==> e.timer.value !in r.scheduled)
  {
    var t := e.timer;
    var h := e.heartbeatTimer;
    var r := SetDisconnected(e);
    TeardownUnschedules(e);
    if e.disconnectTimer.Some? && e.disconnectTimer.value in e.scheduled {
      var d := e.disconnectTimer.value;
      assert e.scheduled[d] == DisconnectFallback;
      assert t.Some? ==> t.value != d;
      assert h.Some? ==> h.value != d;
    }
    forall s | s in e.tunnelReqTimer
      ensures e.tunnelReqTimer[s] in r.scheduled
    {
      var id := e.tunnelReqTimer[s];
      assert e.scheduled[id] == AckTimeout(s);
      assert t.Some? ==> t.value != id;
      assert h.Some? ==> h.value != id;
    }
  }

  /** _setDisconnected unschedules the _timer and heartbeat timers and nothing else. */
  lemma TeardownUnschedules(e: ClientState)
    ensures var r := SetDisconnected(e);
      && r.timer == e.timer
      && (e.timer.Some? ==> e.timer.value !in r.scheduled)
      && (forall id :: id in e.scheduled && e.timer != Some(id) && e.heartbeatTimer != Some(id) ==>
            id in r.scheduled && r.scheduled[id] == e.scheduled[id])
  {
    var cleared := ClearTimeout(e.(disconnectTimer := None), e.timer);
    assert SetDisconnected(e).scheduled == StopHeartBeat(cleared).scheduled;
  }

  /** _setDisconnected does not check whether it already ran: a second call announces `disconnected` again. */
  lemma SetDisconnectedTwice(e: ClientState)
    ensures SetDisconnected(SetDisconnected(e)).events == e.events + [DisconnectedEvent, DisconnectedEvent]
  {
    SetDisconnectedResets(e);
    SetDisconnectedResets(SetDisconnected(e));
  }

  /**
   * The fallback armed by Disconnect survives the teardown: when the gateway answers, the client
   * reconnects, and the fallback fires afterwards, it tears the new connection down.
   */
  lemma StaleFallbackTearsDownNewConnection(e: ClientState, o: Options, layer: TunnelLayer, f: InboundFrame)
    requires Inv(e, o) && o.hostProtocol == TunnelUDP
    requires f.serviceType == DISCONNECT_RESPONSE
    ensures var d := Disconnect(e, o).next;
      var fallback := e.nextTimerId + 1;
      var answered := ProcessInbound(d, o, Parsed(f));
      var c := Connect(answered, o, layer).next;
      && d.disconnectTimer == Some(fallback)
      && answered.connectionState == Disconnected
      && c.connectionState == Connecting
      && fallback in c.scheduled
      && Fire(c, o, fallback).next.connectionState == Disconnected
  {
    var d := Disconnect(e, o).next;
    var fallback := e.nextTimerId + 1;
    DisconnectEffects(e, o);
    ClientInvariant.DisconnectInv(e, o);
    var answered := ProcessInbound(d, o, Parsed(f));
    FallbackSurvivesResponse(d, o, f);
    ConnectKeepsTimer(answered, o, layer, fallback);
    FallbackFires(Connect(answered, o, layer).next, o, fallback);
  }

  /** A DISCONNECT_RESPONSE tears down but leaves the fallback timer scheduled. */
  lemma FallbackSurvivesResponse(d: ClientState, o: Options, f: InboundFrame)
    requires TimersInv(d) && f.serviceType == DISCONNECT_RESPONSE
    requires d.disconnectTimer.Some? && d.disconnectTimer.value in d.scheduled
    ensures var a := ProcessInbound(d, o, Parsed(f));
      var id := d.disconnectTimer.value;
      && a.connectionState == Disconnected
      && a.timer == d.timer
      && id < a.nextTimerId
      && id in a.scheduled && a.scheduled[id] == d.scheduled[id]
  {
    var reported := if d.connectionState != Disconnecting
                    then Emit(d, ErrorEvent(UnexpectedDisconnectResponse)) else d;
    assert ProcessInbound(d, o, Parsed(f)) == SetDisconnected(reported);
    assert Timers(reported) == Timers(d);
    SetDisconnectedLeavesTimers(reported);
  }

  /** Connect over UDP leaves every other scheduled timer in place. */
  lemma ConnectKeepsTimer(a: ClientState, o: Options, layer: TunnelLayer, id: TimerId)
    requires o.hostProtocol == TunnelUDP && a.connectionState == Disconnected
    requires id in a.scheduled && id < a.nextTimerId && a.timer != Some(id)
    ensures var c := Connect(a, o, layer).next;
      c.connectionState == Connecting && id in c.scheduled && c.scheduled[id] == a.scheduled[id]
  {
  }

  /** The disconnect fallback, whenever it fires, leaves the client Disconnected. */
  lemma FallbackFires(c: ClientState, o: Options, id: TimerId)
    requires id in c.scheduled && c.scheduled[id] == DisconnectFallback
    ensures Fire(c, o, id).next.connectionState == Disconnected
    ensures Fire(c, o, id).next.events == c.events + [DisconnectedEvent]
  {
  }

  // ----- group requests -----

  /** write, respond, read and writeRaw throw unless connected, and then change nothing. */
  lemma GroupRequestsRequireConnected(e: ClientState, o: Options, dst: KnxAddress, payload: seq<byte>,
                                      raw: Option<seq<byte>>)
    requires e.connectionState != Connected
    ensures Write(e, o, dst, payload) == Step(e, Threw(NotConnected))
    ensures Respond(e, o, dst, payload) == Step(e, Threw(NotConnected))
    ensures Read(e, o, dst) == Step(e, Threw(NotConnected))
    ensures WriteRaw(e, o, dst, raw) == Step(e, Threw(NotConnected))
  {
  }

  /** writeRaw with a value that is not a buffer returns without sending anything. */
  lemma WriteRawDropsNonBuffer(e: ClientState, o: Options, dst: KnxAddress)
    requires e.connectionState == Connected
    ensures WriteRaw(e, o, dst, None) == Step(e, Done)
  {
  }

  /**
   * What a tunnelled send leaves behind: one tunnelling request on the client's channel tagged
   * with the current counter, the counter unchanged, and an acknowledgement timeout filed under
   * that counter exactly when acknowledgements are not suppressed.
   */
  predicate TunnelledSend(before: ClientState, after: ClientState, o: Options, cemi: LDataRequest)
  {
    && after.outbox == before.outbox + [TunnelingRequest(before.channelID, before.seqNumber, cemi)]
    && after.seqNumber == before.seqNumber
    && (o.suppressAckLDataReq ==>
          after.tunnelReqTimer == before.tunnelReqTimer && after.scheduled == before.scheduled)
    && (!o.suppressAckLDataReq ==>
          && after.tunnelReqTimer == before.tunnelReqTimer[before.seqNumber := before.nextTimerId]
          && after.scheduled == before.scheduled[before.nextTimerId := AckTimeout(before.seqNumber)])
  }

  /** The shared send path over a tunnel, for every service, ack flag and echo choice. */
  lemma TunnelledSendTagsCurrentCounter(e: ClientState, o: Options, service: GroupService, dst: KnxAddress,
                                        data: Option<seq<byte>>, tunnelAck: nat, echo: bool)
    requires o.hostProtocol != Multicast
    ensures TunnelledSend(e, SendLDataRequest(e, o, service, dst, data, tunnelAck, echo), o,
                          LDataRequest(service, o.physAddr, dst, data, RequestControl(tunnelAck)))
  {
  }

  /** A tunnelled write is tagged with the current counter, which it does not advance. */
  lemma TunnelledWriteTagsCurrentCounter(e: ClientState, o: Options, dst: KnxAddress, payload: seq<byte>)
    requires e.connectionState == Connected && o.hostProtocol != Multicast
    ensures var r := Write(e, o, dst, payload);
      && r.outcome.Done?
      && TunnelledSend(e, r.next, o,
                       LDataRequest(GroupWrite, o.physAddr, dst, Some(payload), RequestControl(WriteAck(o))))
  {
    TunnelledSendTagsCurrentCounter(e, o, GroupWrite, dst, Some(payload), WriteAck(o), true);
  }

  /** respond, read and writeRaw (with a buffer) follow the same rule over a tunnel. */
  lemma TunnelledRequestsTagCurrentCounter(e: ClientState, o: Options, dst: KnxAddress,
                                           payload: seq<byte>)
    requires e.connectionState == Connected && o.hostProtocol != Multicast
    ensures var r := Respond(e, o, dst, payload);
      && r.outcome.Done?
      && TunnelledSend(e, r.next, o,
                       LDataRequest(GroupResponse, o.physAddr, dst, Some(payload), RequestControl(WriteAck(o))))
    ensures var r := Read(e, o, dst);
      && r.outcome.Done?
      && TunnelledSend(e, r.next, o, LDataRequest(GroupRead, o.physAddr, dst, None, RequestControl(0)))
    ensures var r := WriteRaw(e, o, dst, Some(payload));
      && r.outcome.Done?
      && TunnelledSend(e, r.next, o,
                       LDataRequest(GroupWrite, o.physAddr, dst, Some(payload), RequestControl(WriteAck(o))))
  {
    TunnelledSendTagsCurrentCounter(e, o, GroupResponse, dst, Some(payload), WriteAck(o), o.localEchoInTunneling);
    TunnelledSendTagsCurrentCounter(e, o, GroupRead, dst, None, 0, o.localEchoInTunneling);
    TunnelledSendTagsCurrentCounter(e, o, GroupWrite, dst, Some(payload), WriteAck(o), true);
  }

  /** A routed request is a routing indication with ack 0; it never waits for an acknowledgement. */
  lemma MulticastNeverArms(e: ClientState, o: Options, service: GroupService, dst: KnxAddress,
                           data: Option<seq<byte>>, tunnelAck: nat, echo: bool)
    requires o.hostProtocol == Multicast
    ensures var r := SendLDataRequest(e, o, service, dst, data, tunnelAck, echo);
      && r.outbox == e.outbox + [RoutingIndication(LDataRequest(service, o.physAddr, dst, data, RequestControl(0)))]
      && r.tunnelReqTimer == e.tunnelReqTimer
      && r.scheduled == e.scheduled
      && r.seqNumber == e.seqNumber
  {
  }

  /** The request just sent was announced as a local echo. */
  predicate Echoed(before: ClientState, after: ClientState)
  {
    |after.outbox| > 0 && after.events == before.events + [LocalEchoEvent(after.outbox[|after.outbox| - 1])]
  }

  /**
   * Local echo: over routing, write and writeRaw always echo while respond and read echo only
   * with localEchoInTunneling; over a tunnel all four echo exactly with localEchoInTunneling.
   */
  lemma EchoRules(e: ClientState, o: Options, dst: KnxAddress, payload: seq<byte>)
    requires e.connectionState == Connected
    ensures var w := Write(e, o, dst, payload).next;
      Echoed(e, w) <==> o.hostProtocol == Multicast || o.localEchoInTunneling
    ensures var w := WriteRaw(e, o, dst, Some(payload)).next;
      Echoed(e, w) <==> o.hostProtocol == Multicast || o.localEchoInTunneling
    ensures Echoed(e, Respond(e, o, dst, payload).next) <==> o.localEchoInTunneling
    ensures Echoed(e, Read(e, o, dst).next) <==> o.localEchoInTunneling
    ensures !Echoed(e, Write(e, o, dst, payload).next) ==> Write(e, o, dst, payload).next.events == e.events
    ensures !Echoed(e, Read(e, o, dst).next) ==> Read(e, o, dst).next.events == e.events
  {
  }

  /** A tunnelled read asks for no acknowledgement (ack 0) yet arms an acknowledgement timeout. */
  lemma ReadAckZeroButArmed(e: ClientState, o: Options, dst: KnxAddress)
    requires e.connectionState == Connected && o.hostProtocol != Multicast && !o.suppressAckLDataReq
    ensures var r := Read(e, o, dst).next;
      && r.outbox == e.outbox + [TunnelingRequest(e.channelID, e.seqNumber,
                                   LDataRequest(GroupRead, o.physAddr, dst, None, RequestControl(0)))]
      && r.tunnelReqTimer == e.tunnelReqTimer[e.seqNumber := e.nextTimerId]
      && r.scheduled[e.nextTimerId] == AckTimeout(e.seqNumber)
  {
  }

  /**
   * Two requests sent under the same counter (the counter moves only on an acknowledgement): the
   * second replaces the first table entry, and the first timer stays scheduled with nothing
   * pointing at it.
   */
  lemma OverwriteOrphansTimer(e: ClientState, o: Options, dst: KnxAddress, payload: seq<byte>)
    requires TimersInv(e) && e.connectionState == Connected
    requires o.hostProtocol != Multicast && !o.suppressAckLDataReq
    requires e.seqNumber in e.tunnelReqTimer
    ensures var r := Write(e, o, dst, payload).next;
      var orphan := e.tunnelReqTimer[e.seqNumber];
      && orphan in r.scheduled
      && r.scheduled[orphan] == AckTimeout(e.seqNumber)
      && r.tunnelReqTimer[e.seqNumber] != orphan
      && (forall s :: s in r.tunnelReqTimer ==> r.tunnelReqTimer[s] != orphan)
  {
    var orphan := e.tunnelReqTimer[e.seqNumber];
    assert orphan in e.scheduled;
    assert orphan < e.nextTimerId;
  }

  // ----- acknowledgements -----

  /** An acknowledgement on another channel (or with no channel open) changes nothing. */
  lemma AckOnOtherChannel(e: ClientState, o: Options, f: InboundFrame)
    requires f.serviceType == TUNNELING_ACK && !OnChannel(e, f)
    ensures ProcessInbound(e, o, Parsed(f)) == e
  {
  }

  /**
   * An acknowledgement on the client's channel moves the counter past the acknowledged number
   * (past the current counter when that number is 0) and settles that number's pending request:
   * its entry leaves the table and its timer is cancelled; nothing is emitted.
   */
  lemma AckOnChannel(e: ClientState, o: Options, f: InboundFrame)
    requires f.serviceType == TUNNELING_ACK && OnChannel(e, f)
    ensures var r := ProcessInbound(e, o, Parsed(f));
      && r.seqNumber == NextSeq(e.seqNumber, f.seqCounter)
      && r.tunnelReqTimer == e.tunnelReqTimer - {f.seqCounter as nat}
      && (f.seqCounter as nat in e.tunnelReqTimer ==>
            r.scheduled == e.scheduled - {e.tunnelReqTimer[f.seqCounter as nat]})
      && (f.seqCounter as nat !in e.tunnelReqTimer ==> r.scheduled == e.scheduled)
      && r.events == e.events
      && r.outbox == e.outbox
  {
  }

  /** An acknowledged number 0 counts as absent: the counter is incremented instead of set to 1. */
  lemma AckZeroAdvancesCurrent(e: ClientState, o: Options, f: InboundFrame)
    requires f.serviceType == TUNNELING_ACK && OnChannel(e, f) && f.seqCounter == 0
    requires e.seqNumber < 256
    ensures ProcessInbound(e, o, Parsed(f)).seqNumber == (e.seqNumber + 1) % 256
  {
  }

  /** Send a tunnelled write, then receive its acknowledgement: counter + 1, entry gone, timer cancelled. */
  lemma WriteThenAck(e: ClientState, o: Options, dst: KnxAddress, payload: seq<byte>, f: InboundFrame)
    requires Inv(e, o) && e.connectionState == Connected
    requires o.hostProtocol != Multicast && !o.suppressAckLDataReq
    requires f.serviceType == TUNNELING_ACK && OnChannel(e, f) && f.seqCounter == e.seqNumber
    ensures var sent := Write(e, o, dst, payload).next;
      var acked := ProcessInbound(sent, o, Parsed(f));
      && acked.seqNumber == (e.seqNumber + 1) % 256
      && acked.tunnelReqTimer == e.tunnelReqTimer - {e.seqNumber}
      && e.nextTimerId !in acked.scheduled
  {
    var sent := Write(e, o, dst, payload).next;
    assert sent.tunnelReqTimer[e.seqNumber] == e.nextTimerId;
    AckOnChannel(sent, o, f);
    assert sent.tunnelReqTimer - {e.seqNumber} == e.tunnelReqTimer - {e.seqNumber};
  }

  /** Send a tunnelled write and let its timeout fire: the request is reported and forgotten, the counter stays. */
  lemma WriteThenTimeout(e: ClientState, o: Options, dst: KnxAddress, payload: seq<byte>)
    requires e.connectionState == Connected
    requires o.hostProtocol != Multicast && !o.suppressAckLDataReq
    ensures var sent := Write(e, o, dst, payload).next;
      && e.nextTimerId in sent.scheduled
      && var fired := Fire(sent, o, e.nextTimerId).next;
      && fired.seqNumber == e.seqNumber
      && fired.tunnelReqTimer == e.tunnelReqTimer - {e.seqNumber}
      && fired.events == sent.events + [ErrorEvent(RequestTimeout(e.seqNumber))]
      && e.nextTimerId !in fired.scheduled
  {
    var sent := Write(e, o, dst, payload).next;
    assert sent.tunnelReqTimer - {e.seqNumber} == e.tunnelReqTimer - {e.seqNumber};
  }

  /**
   * An orphaned acknowledgement timer (see OverwriteOrphansTimer) still removes the table entry
   * for its number when it fires, so the later request it shares the number with is forgotten too.
   */
  lemma OrphanTimeoutForgetsLaterRequest(e: ClientState, o: Options, dst: KnxAddress, payload: seq<byte>)
    requires TimersInv(e) && e.connectionState == Connected
    requires o.hostProtocol != Multicast && !o.suppressAckLDataReq
    requires e.seqNumber in e.tunnelReqTimer
    ensures var sent := Write(e, o, dst, payload).next;
      var orphan := e.tunnelReqTimer[e.seqNumber];
      && orphan in sent.scheduled
      && var fired := Fire(sent, o, orphan).next;
      && e.seqNumber !in fired.tunnelReqTimer
      && e.nextTimerId in fired.scheduled
  {
    OverwriteOrphansTimer(e, o, dst, payload);
  }

  // ----- inbound frames -----

  /**
   * A tunnelling request on the client's channel is acknowledged exactly once with its own
   * sequence counter, and reported only when it carries an L_Data.ind; off the channel it is ignored.
   */
  lemma TunnelingRequestAcked(e: ClientState, o: Options, f: InboundFrame)
    requires f.serviceType == TUNNELING_REQUEST
    ensures var r := ProcessInbound(e, o, Parsed(f));
      && (!OnChannel(e, f) ==> r == e)
      && (OnChannel(e, f) ==>
            && r.outbox == e.outbox + [TunnelingAck(f.channelID, f.seqCounter, KnxConnectResponse.E_NO_ERROR)]
            && r.events == (if f.msgCode == L_DATA_IND then e.events + [IndicationEvent(f)] else e.events)
            && r.seqNumber == e.seqNumber
            && r.(outbox := e.outbox, events := e.events) == e)
  {
  }

  /** A routing indication is reported exactly when it carries an L_Data.ind; nothing is sent. */
  lemma RoutingIndicationReported(e: ClientState, o: Options, f: InboundFrame)
    requires f.serviceType == ROUTING_INDICATION
    ensures var r := ProcessInbound(e, o, Parsed(f));
      && r.outbox == e.outbox
      && (r.events == e.events + [IndicationEvent(f)] <==> f.msgCode == L_DATA_IND)
      && (f.msgCode != L_DATA_IND ==> r == e)
  {
  }

  /** A datagram that does not parse is reported as an error and changes nothing else. */
  lemma MalformedReported(e: ClientState, o: Options)
    ensures ProcessInbound(e, o, Unparseable) == Emit(e, ErrorEvent(MalformedFrame))
  {
  }

  /** A routing-lost message is ignored. */
  lemma RoutingLostIgnored(e: ClientState, o: Options, f: InboundFrame)
    requires f.serviceType == ROUTING_LOST_MESSAGE
    ensures ProcessInbound(e, o, Parsed(f)) == e
  {
  }

  /** Outside Connecting a connect response changes nothing. */
  lemma ConnectResponseIgnored(e: ClientState, o: Options, f: InboundFrame)
    requires f.serviceType == CONNECT_RESPONSE && e.connectionState != Connecting
    ensures ProcessInbound(e, o, Parsed(f)) == e
  {
  }

  /** A refused connect response reports the status text, then tears down. */
  lemma ConnectResponseRefused(e: ClientState, o: Options, f: InboundFrame)
    requires f.serviceType == CONNECT_RESPONSE && e.connectionState == Connecting
    requires f.status != KnxConnectResponse.E_NO_ERROR
    ensures var r := ProcessInbound(e, o, Parsed(f));
      && r.connectionState == Disconnected
      && r.channelID.None?
      && r.events == e.events + [ErrorEvent(ConnectRefused(KnxConnectResponse.StatusToString(f.status))),
                                 DisconnectedEvent]
      && (e.timer.Some? ==> e.timer.value !in r.scheduled)
  {
  }

  /**
   * An accepted connect response opens the response's channel, announces `connected` and starts
   * the heartbeat: failures reset, one connection-state request sent on the new channel, and the
   * heartbeat timeout and the next tick scheduled.
   */
  lemma ConnectResponseAccepted(e: ClientState, o: Options, f: InboundFrame)
    requires o.HasSocket() && f.serviceType == CONNECT_RESPONSE && e.connectionState == Connecting
    requires f.status == KnxConnectResponse.E_NO_ERROR
    ensures var r := ProcessInbound(e, o, Parsed(f));
      && r.connectionState == Connected
      && r.channelID == Some(f.channelID)
      && r.timer.None?
      && r.events == e.events + [ConnectedEvent]
      && r.outbox == e.outbox + [ConnectionStateRequest(Some(f.channelID))]
      && r.heartbeatRunning
      && r.heartbeatFailures == 0
      && r.heartbeatTimer == Some(e.nextTimerId)
      && e.nextTimerId in r.scheduled && r.scheduled[e.nextTimerId] == HeartbeatTimeout
      && e.nextTimerId + 1 in r.scheduled && r.scheduled[e.nextTimerId + 1] == HeartbeatTick
      && r.awaitingResponseType == Some(CONNECTIONSTATE_RESPONSE)
  {
    var answered := ClearTimeout(e, e.timer).(timer := None);
    var connected := Emit(answered.(connectionState := Connected, channelID := Some(f.channelID)), ConnectedEvent);
    assert ProcessInbound(e, o, Parsed(f)) == OnConnectResponse(e, o, f) == AcceptConnection(answered, o, f.channelID);
    StartHeartBeatEffects(connected, o);
    assert AcceptConnection(answered, o, f.channelID) == StartHeartBeat(connected, o).next;
  }

  /**
   * A disconnect response always tears down; it is reported as unexpected unless a disconnect
   * was under way.
   */
  lemma DisconnectResponseTearsDown(e: ClientState, o: Options, f: InboundFrame)
    requires f.serviceType == DISCONNECT_RESPONSE
    ensures var r := ProcessInbound(e, o, Parsed(f));
      && r.connectionState == Disconnected
      && r.events == e.events +
           (if e.connectionState == Disconnecting then [] else [ErrorEvent(UnexpectedDisconnectResponse)])
           + [DisconnectedEvent]
  {
  }

  /** A disconnect request on the client's channel is answered with E_NO_ERROR, then the client tears down. */
  lemma DisconnectRequestAnswered(e: ClientState, o: Options, f: InboundFrame)
    requires f.serviceType == DISCONNECT_REQUEST
    ensures var r := ProcessInbound(e, o, Parsed(f));
      && (!OnChannel(e, f) ==> r == e)
      && (OnChannel(e, f) ==>
            && r.outbox == e.outbox + [DisconnectResponse(f.channelID, KnxConnectResponse.E_NO_ERROR)]
            && r.connectionState == Disconnected
            && r.events == e.events + [DisconnectedEvent])
  {
  }

  /** A search response is reported exactly while a discovery runs. */
  lemma SearchResponseReported(e: ClientState, o: Options, f: InboundFrame)
    requires f.serviceType == SEARCH_RESPONSE
    ensures var r := ProcessInbound(e, o, Parsed(f));
      && (IsDiscoveryRunning(e) ==> r == Emit(e, DiscoverEvent(f)))
      && (!IsDiscoveryRunning(e) ==> r == e)
  {
  }

  /** Any other service type is passed on as a response; only the awaited type settles its timer. */
  lemma OtherResponsePassedOn(e: ClientState, o: Options, f: InboundFrame)
    requires f.serviceType !in {SEARCH_RESPONSE, CONNECT_RESPONSE, DISCONNECT_RESPONSE, DISCONNECT_REQUEST,
                                TUNNELING_REQUEST, TUNNELING_ACK, ROUTING_INDICATION, ROUTING_LOST_MESSAGE}
    ensures var r := ProcessInbound(e, o, Parsed(f));
      && |r.events| > 0 && r.events[|r.events| - 1] == ResponseEvent(f)
      && (e.awaitingResponseType != Some(f.serviceType) ==> r == Emit(e, ResponseEvent(f)))
      && (e.awaitingResponseType == Some(f.serviceType) && f.serviceType != CONNECTIONSTATE_RESPONSE ==>
            r == Emit(ClearTimeout(e, e.timer), ResponseEvent(f)))
  {
  }

  // ----- heartbeat -----

  /** A successful connection-state response resets the failure count and cancels the heartbeat timeout. */
  lemma ConnectionStateOk(e: ClientState, o: Options, f: InboundFrame)
    requires f.serviceType == CONNECTIONSTATE_RESPONSE && e.awaitingResponseType == Some(CONNECTIONSTATE_RESPONSE)
    requires f.status == KnxConnectResponse.E_NO_ERROR
    ensures var r := ProcessInbound(e, o, Parsed(f));
      && r.heartbeatFailures == 0
      && (e.heartbeatTimer.Some? ==> e.heartbeatTimer.value !in r.scheduled)
      && r.connectionState == e.connectionState
      && r.events == e.events + [ResponseEvent(f)]
  {
  }

  /** A failed connection-state response reports the status and tears down. */
  lemma ConnectionStateRefusedTearsDown(e: ClientState, o: Options, f: InboundFrame)
    requires f.serviceType == CONNECTIONSTATE_RESPONSE && e.awaitingResponseType == Some(CONNECTIONSTATE_RESPONSE)
    requires f.status != KnxConnectResponse.E_NO_ERROR
    ensures var r := ProcessInbound(e, o, Parsed(f));
      && r.connectionState == Disconnected
      && r.events == e.events + [ErrorEvent(ConnectionStateRefused(f.status)), DisconnectedEvent, ResponseEvent(f)]
  {
  }

  /** startHeartBeat: failures reset, running, one probe sent, its timeout and the next tick scheduled. */
  lemma StartHeartBeatEffects(e: ClientState, o: Options)
    requires o.HasSocket()
    ensures var r := StartHeartBeat(e, o);
      var first := e.nextTimerId;
      && r.outcome.Done?
      && r.next.heartbeatRunning
      && r.next.heartbeatFailures == 0
      && r.next.outbox == e.outbox + [ConnectionStateRequest(e.channelID)]
      && r.next.heartbeatTimer == Some(first)
      && r.next.scheduled[first] == HeartbeatTimeout
      && r.next.scheduled[first + 1] == HeartbeatTick
      && r.next.nextTimerId == first + 2
      && r.next.awaitingResponseType == Some(CONNECTIONSTATE_RESPONSE)
      && r.next.connectionState == e.connectionState
      && r.next.channelID == e.channelID
      && r.next.timer == e.timer
      && r.next.events == e.events
  {
  }

  /** A heartbeat timeout below the limit only counts the failure and forgets the handle. */
  lemma HeartbeatTimeoutCounts(e: ClientState)
    requires e.heartbeatFailures + 1 < MAX_HEARTBEAT_FAILURES
    ensures HeartbeatTimedOut(e) == e.(heartbeatTimer := None, heartbeatFailures := e.heartbeatFailures + 1)
  {
  }

  /**
   * Three consecutive heartbeat timeouts declare the connection dead: an error, then the teardown,
   * with the failure count back at 0.
   */
  lemma ThreeStrikes(e: ClientState)
    requires e.heartbeatFailures == 0
    ensures var r := HeartbeatTimedOut(HeartbeatTimedOut(HeartbeatTimedOut(e)));
      && r.connectionState == Disconnected
      && r.heartbeatFailures == 0
      && r.events == e.events + [ErrorEvent(ConnectionDead), DisconnectedEvent]
  {
    HeartbeatTimeoutCounts(e);
    HeartbeatTimeoutCounts(HeartbeatTimedOut(e));
  }

  /**
   * stopHeartBeat acts only through the handle: after a heartbeat timeout has forgotten it, the
   * heartbeat keeps running, and the next tick probes again.
   */
  lemma StopHeartBeatAfterTimeout(e: ClientState, o: Options)
    requires e.heartbeatRunning && e.heartbeatFailures + 1 < MAX_HEARTBEAT_FAILURES && o.HasSocket()
    ensures var stopped := StopHeartBeat(HeartbeatTimedOut(e));
      && stopped.heartbeatRunning
      && RunHeartbeat(stopped, o).next.outbox == e.outbox + [ConnectionStateRequest(e.channelID)]
  {
  }

  /** stopHeartBeat with a handle stops the heartbeat: a later tick does nothing. */
  lemma StopHeartBeatStops(e: ClientState, o: Options)
    requires e.heartbeatTimer.Some?
    ensures !StopHeartBeat(e).heartbeatRunning
    ensures RunHeartbeat(StopHeartBeat(e), o) == Step(StopHeartBeat(e), Done)
    ensures e.heartbeatTimer.value !in StopHeartBeat(e).scheduled
  {
  }

  // ----- discovery -----

  /** startDiscovery throws exactly while a discovery runs; otherwise it arms the expiry and sends a search request. */
  lemma StartDiscoveryEffects(e: ClientState)
    ensures StartDiscovery(e).outcome.Threw? <==> IsDiscoveryRunning(e)
    ensures IsDiscoveryRunning(e) ==> StartDiscovery(e) == Step(e, Threw(DiscoveryRunning))
    ensures !IsDiscoveryRunning(e) ==>
      var r := StartDiscovery(e).next;
      && IsDiscoveryRunning(r)
      && r.scheduled[e.nextTimerId] == DiscoveryExpiry
      && r.outbox == e.outbox + [SearchRequest]
  {
  }

  /** A discovery ends either by stopDiscovery, which cancels its timer, or when that timer fires. */
  lemma DiscoveryEnds(e: ClientState, o: Options)
    requires !IsDiscoveryRunning(e)
    ensures var r := StartDiscovery(e).next;
      && !IsDiscoveryRunning(StopDiscovery(r))
      && e.nextTimerId !in StopDiscovery(r).scheduled
      && e.nextTimerId in r.scheduled
      && !IsDiscoveryRunning(Fire(r, o, e.nextTimerId).next)
  {
  }

  /** stopDiscovery while no discovery runs changes nothing. */
  lemma StopDiscoveryIdle(e: ClientState)
    requires !IsDiscoveryRunning(e)
    ensures StopDiscovery(e) == e
  {
  }

  // ----- getDescription -----

  /** getDescription arms a fresh request timer without clearing the old one and sends a description request. */
  lemma GetDescriptionEffects(e: ClientState, o: Options)
    requires o.HasSocket()
    ensures var r := GetDescription(e, o);
      && r.outcome.Done?
      && r.next.outbox == e.outbox + [DescriptionRequest]
      && r.next.timer == Some(e.nextTimerId)
      && r.next.scheduled == e.scheduled[e.nextTimerId := DescriptionTimeout]
      && r.next.awaitingResponseType == Some(DESCRIPTION_RESPONSE)
  {
  }
}
