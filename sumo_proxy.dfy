/**
 * sumo-proxy.py: the proxy that leaves the handshake untouched. It runs on its
 * own address, lets both peers keep the ports they announced, listens on those
 * same ports and relays between the peers, mirroring every datagram to the
 * local printer.
 */
module SumoProxy {
  import opened Wire
  import opened Json
  import opened Relay
  import Liveness

  const RequestKey := "d2c_port"
  const ResponseKey := "c2d_port"

  /** `(REPEAT_HOST, REPEAT_PORT)`: where every mirror copy goes. */
  const RepeatTarget := Endpoint("127.0.0.1", 65432)

  /** An entry of the handler's `return_data` list. */
  datatype InitItem = ClientIp(ip: Address) | Port(value: Value)

  /**
   * `proxy_init`: a TCP server on the device's handshake port whose handler
   * forwards the request and the response unchanged, reading one port from
   * each. As in proxy.py, a handler that raises leaves the server serving.
   */
  class InitServer {
    const codec: Codec
    /** `(sumo_ip, init_port)`, where the handshake request is forwarded. */
    const sumo: Endpoint
    var returnData: seq<InitItem>
    var serving: bool

    ghost predicate Valid()
      reads this
    {
      && (serving <==> returnData == [])
      && (!serving ==> |returnData| == 3 && returnData[0].ClientIp? && returnData[1].Port? && returnData[2].Port?)
    }

    constructor (codec: Codec, sumoIp: Address, initPort: int)
      ensures Valid() && serving && returnData == []
      ensures this.codec == codec && sumo == Endpoint(sumoIp, initPort)
    {
      this.codec := codec;
      sumo := Endpoint(sumoIp, initPort);
      returnData := [];
      serving := true;
    }

    /**
     * `InitHandler.handle`: the request goes to the device byte for byte once its
     * `d2c_port` has been read, and the device's response goes back byte for byte
     * once its `c2d_port` has been read.
     */
    method Handle(clientIp: Address, request: Bytes, device: Bytes -> Bytes)
      returns (toSumo: Option<Send>, toClient: Option<Bytes>)
      requires Valid() && serving
      modifies this
      ensures Valid()
      ensures toSumo == (if Lookup(codec, request, RequestKey).Ok? then Some(Send(sumo, request)) else None)
      ensures toClient.Some? ==> toSumo == Some(Send(sumo, request)) && toClient == Some(device(request))
      ensures var d2c := Lookup(codec, request, RequestKey);
              var c2d := if d2c.Ok? then Lookup(codec, device(request), ResponseKey) else Err(d2c.error);
              if c2d.Ok? then
                && toClient == Some(device(request))
                && returnData == [ClientIp(clientIp), Port(c2d.value), Port(d2c.value)]
                && !serving
              else
                toClient == None && returnData == [] && serving
    {
      toSumo, toClient := None, None;
      var d2c := Lookup(codec, request, RequestKey);
      if d2c.Err? {
        return;
      }
      toSumo := Some(Send(sumo, request));
      var response := device(request);
      var c2d := Lookup(codec, response, ResponseKey);
      if c2d.Err? {
        return;
      }
      toClient := Some(response);
      returnData := returnData + [ClientIp(clientIp), Port(c2d.value), Port(d2c.value)];
      serving := false;
    }

    /** What `proxy_init` returns once its wait is over: `(client_ip, c2d_port,
        d2c_port)`, or 'No init within 30 seconds of announce'. */
    function Outcome(): (r: Result<(Address, Value, Value)>)
      reads this
      requires Valid()
      ensures r.Err? <==> serving
      ensures r.Err? ==> r.error == NoInit
      ensures r.Ok? ==> returnData == [ClientIp(r.value.0), Port(r.value.1), Port(r.value.2)]
    {
      if serving then Err(NoInit)
      else Ok((returnData[0].ip, returnData[1].value, returnData[2].value))
    }
  }

  /** The arguments of `proxy_session(client_ip, sumo_ip, c2d_port, d2c_port)`,
      once both ports are integers a socket can be given. */
  datatype SessionPlan = SessionPlan(clientIp: Address, sumoIp: Address, c2d: int, d2c: int)

  /**
   * `start` after the handshake: `c2d_port == 0` means the device already has a
   * client and the session ends before `proxy_session`. A port that is not an
   * integer passes that test but makes the listener's bind raise.
   */
  function Start(sumoIp: Address, init: Result<(Address, Value, Value)>): (r: Result<SessionPlan>)
    ensures init.Err? ==> r == Err(init.error)
    ensures init.Ok? && AsInt(init.value.1) == Some(0) ==> r == Err(DeviceBusy)
    ensures init.Ok? ==>
              (r.Ok? <==> AsInt(init.value.1).Some? && AsInt(init.value.2).Some? && AsInt(init.value.1) != Some(0))
    ensures r.Ok? ==> r.value.c2d != 0
    ensures r.Ok? ==> r.value == SessionPlan(init.value.0, sumoIp, AsInt(init.value.1).value, AsInt(init.value.2).value)
  {
    match init
    case Err(e) => Err(e)
    case Ok((clientIp, c2d, d2c)) =>
      if AsInt(c2d) == Some(0) then Err(DeviceBusy)
      else if AsInt(c2d).None? || AsInt(d2c).None? then Err(BadPort)
      else Ok(SessionPlan(clientIp, sumoIp, AsInt(c2d).value, AsInt(d2c).value))
  }

  /** The listeners `proxy_session` creates: one shared listener when the two
      negotiated ports coincide, otherwise one per direction, on exactly the
      negotiated ports. */
  function SessionListeners(plan: SessionPlan): seq<Listener> {
    if plan.c2d == plan.d2c then [Listener(plan.c2d, SharedHandler)]
    else [Listener(plan.c2d, ClientToSumoHandler), Listener(plan.d2c, SumoToClientHandler)]
  }

  /** Both modes listen on exactly the two negotiated ports, with no offset, and
      there is a single listener exactly when the ports coincide. */
  lemma ListensOnNegotiatedPorts(plan: SessionPlan)
    ensures Ports(SessionListeners(plan)) == {plan.c2d, plan.d2c}
    ensures ListeningPorts(SessionListeners(plan)) ==
              if 0 <= plan.c2d <= MaxPort && 0 <= plan.d2c <= MaxPort then {plan.c2d, plan.d2c} - {0} else {}
    ensures |SessionListeners(plan)| == 1 <==> plan.c2d == plan.d2c
    ensures |SessionListeners(plan)| == 2 <==> plan.c2d != plan.d2c
    ensures plan.c2d != plan.d2c ==> SessionListeners(plan)[0].handler == ClientToSumoHandler &&
                                     SessionListeners(plan)[1].handler == SumoToClientHandler
  {
    var ls := SessionListeners(plan);
    SessionListenersBind(plan);
    if plan.c2d == plan.d2c {
      assert Ports(ls) == {ls[0].port};
    } else {
      assert ls[0].port in Ports(ls) && ls[1].port in Ports(ls);
    }
  }

  /** Merging equal ports is what keeps sumo-proxy's listeners from clashing:
      binding them fails exactly when a negotiated port is outside 0..65535. */
  lemma SessionListenersBind(plan: SessionPlan)
    ensures Bind(SessionListeners(plan)).Ok? <==> 0 <= plan.c2d <= MaxPort && 0 <= plan.d2c <= MaxPort
    ensures Bind(SessionListeners(plan)).Err? ==> Bind(SessionListeners(plan)).error == BadPort
  {
    var ls := SessionListeners(plan);
    if plan.c2d != plan.d2c {
      assert ls[0].port == plan.c2d && ls[1].port == plan.d2c;
    } else {
      assert ls[0].port == plan.d2c;
    }
  }

  /** Shared-port `Handler.handle`: a datagram from the client goes to the device,
      any other goes to the client; either way one '>' or '<' mirror follows. */
  function SharedRoute(plan: SessionPlan, source: Address, data: Bytes): seq<Send> {
    if source == plan.clientIp then
      [Send(Endpoint(plan.sumoIp, plan.c2d), data), Send(RepeatTarget, Mirror(ClientToSumo, data))]
    else
      [Send(Endpoint(plan.clientIp, plan.c2d), data), Send(RepeatTarget, Mirror(SumoToClient, data))]
  }

  /** Distinct-port `C2DHandler.handle`. */
  function ClientToSumoRoute(plan: SessionPlan, data: Bytes): seq<Send> {
    [Send(Endpoint(plan.sumoIp, plan.c2d), data), Send(RepeatTarget, Mirror(ClientToSumo, data))]
  }

  /** Distinct-port `D2CHandler.handle`. */
  function SumoToClientRoute(plan: SessionPlan, data: Bytes): seq<Send> {
    [Send(Endpoint(plan.clientIp, plan.d2c), data), Send(RepeatTarget, Mirror(SumoToClient, data))]
  }

  /** The direction the shared listener assigns to a datagram from `source`. */
  function Classify(plan: SessionPlan, source: Address): (dir: Direction)
    ensures dir == ClientToSumo <==> source == plan.clientIp
  {
    if source == plan.clientIp then ClientToSumo else SumoToClient
  }

  /** The peer a datagram travelling in `dir` is forwarded to: the device at the
      port it announced, or the client at the port it announced. */
  function Counterpart(plan: SessionPlan, dir: Direction): Endpoint {
    match dir
    case ClientToSumo => Endpoint(plan.sumoIp, plan.c2d)
    case SumoToClient => Endpoint(plan.clientIp, plan.d2c)
  }

  /** Every datagram on the shared listener is forwarded exactly one way, to the
      counterpart of its direction, unchanged, and mirrored once to the printer
      with that direction's tag. */
  lemma SharedRouteOneWay(plan: SessionPlan, source: Address, data: Bytes)
    requires plan.c2d == plan.d2c
    ensures var dir := Classify(plan, source);
            IsFanout(SharedRoute(plan, source, data), Counterpart(plan, dir), data, dir, [RepeatTarget])
    ensures |SharedRoute(plan, source, data)| == 2
    ensures SharedRoute(plan, source, data)[0].payload == data
  {
  }

  /** In distinct-port mode each listener forwards to its direction's counterpart
      and mirrors with its direction's tag. */
  lemma DistinctRoutes(plan: SessionPlan, data: Bytes)
    ensures IsFanout(ClientToSumoRoute(plan, data), Counterpart(plan, ClientToSumo), data,
                     ClientToSumo, [RepeatTarget])
    ensures IsFanout(SumoToClientRoute(plan, data), Counterpart(plan, SumoToClient), data,
                     SumoToClient, [RepeatTarget])
  {
  }

  /** A running `proxy_session`. */
  class Session {
    const plan: SessionPlan
    const flag: Liveness.ActivityFlag

    constructor (plan: SessionPlan)
      ensures this.plan == plan
      ensures fresh(flag) && flag.Valid() && flag.queue == [true]
    {
      this.plan := plan;
      flag := new Liveness.ActivityFlag();
    }

    /** The shared listener's handler; it exists only when the ports coincide. */
    method HandleShared(source: Address, data: Bytes) returns (sends: seq<Send>)
      requires plan.c2d == plan.d2c
      requires flag.Valid()
      modifies flag
      ensures flag.Valid() && flag.queue == [true]
      ensures sends == SharedRoute(plan, source, data)
    {
      flag.OnDatagram();
      sends := SharedRoute(plan, source, data);
    }

    /** The C2D listener's handler in distinct-port mode. */
    method HandleC2D(data: Bytes) returns (sends: seq<Send>)
      requires plan.c2d != plan.d2c
      requires flag.Valid()
      modifies flag
      ensures flag.Valid() && flag.queue == [true]
      ensures sends == ClientToSumoRoute(plan, data)
    {
      flag.OnDatagram();
      sends := ClientToSumoRoute(plan, data);
    }

    /** The D2C listener's handler in distinct-port mode. */
    method HandleD2C(data: Bytes) returns (sends: seq<Send>)
      requires plan.c2d != plan.d2c
      requires flag.Valid()
      modifies flag
      ensures flag.Valid() && flag.queue == [true]
      ensures sends == SumoToClientRoute(plan, data)
    {
      flag.OnDatagram();
      sends := SumoToClientRoute(plan, data);
    }
  }

  /**
   * The handshake end to end: both peers keep the ports they announced, and the
   * proxy creates its listeners on exactly those ports, so whatever the client and
   * the device send lands on a listener of the session, unless the client
   * announced `d2c_port` 0, which passes `start` and leaves nothing listening on
   * the port the device sends to, or either port is outside 0..65535, which makes
   * the bind raise so that nothing listens at all.
   */
  lemma ListensOnAnnouncedPorts(codec: Codec, clientIp: Address, sumoIp: Address,
                                request: Bytes, response: Bytes)
    requires Lookup(codec, request, RequestKey).Ok? && Lookup(codec, response, ResponseKey).Ok?
    requires var r := Start(sumoIp, Ok((clientIp, Lookup(codec, response, ResponseKey).value,
                                        Lookup(codec, request, RequestKey).value)));
             r.Ok?
    ensures var r := Start(sumoIp, Ok((clientIp, Lookup(codec, response, ResponseKey).value,
                                       Lookup(codec, request, RequestKey).value)));
            && AsInt(Decode(codec, response).value[ResponseKey]) == Some(r.value.c2d)
            && AsInt(Decode(codec, request).value[RequestKey]) == Some(r.value.d2c)
            && Ports(SessionListeners(r.value)) == {r.value.c2d, r.value.d2c}
            && (r.value.c2d in ListeningPorts(SessionListeners(r.value)) <==>
                  0 <= r.value.c2d <= MaxPort && 0 <= r.value.d2c <= MaxPort)
            && (r.value.d2c in ListeningPorts(SessionListeners(r.value)) <==>
                  0 <= r.value.c2d <= MaxPort && 0 <= r.value.d2c <= MaxPort && r.value.d2c != 0)
  {
    var r := Start(sumoIp, Ok((clientIp, Lookup(codec, response, ResponseKey).value,
                               Lookup(codec, request, RequestKey).value)));
    ListensOnNegotiatedPorts(r.value);
  }
}
