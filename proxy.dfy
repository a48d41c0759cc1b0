/**
 * proxy.py: the proxy that rewrites the handshake. It tells the device to send
 * its datagrams to `d2c_port + 1` and tells the client to send its datagrams to
 * `c2d_port - 1`, listens on both, and relays between the two sides, copying
 * every datagram to a list of repeaters.
 */
module Proxy {
  import opened Wire
  import opened Json
  import opened Relay
  import Liveness

  /** The port the client listens on, announced in its request. */
  const RequestKey := "d2c_port"
  /** The port the device listens on, announced in its response. */
  const ResponseKey := "c2d_port"

  /** A handshake message with one port shifted: the frame to emit, the port
      value read and the value written in its place. */
  datatype Rewritten = Rewritten(frame: Bytes, original: int, rewritten: int)

  /**
   * Parse a received frame, read `key`, replace it by its value plus `delta`
   * and emit the object again with its terminator. The request uses
   * (`d2c_port`, +1) and the response (`c2d_port`, -1).
   */
  function RewritePort(codec: Codec, frame: Bytes, key: string, delta: int): (r: Result<Rewritten>)
    ensures r.Ok? <==> Lookup(codec, frame, key).Ok? && AsInt(Lookup(codec, frame, key).value).Some?
    ensures Lookup(codec, frame, key).Err? ==> r == Err(Lookup(codec, frame, key).error)
    ensures Lookup(codec, frame, key).Ok? && AsInt(Lookup(codec, frame, key).value).None? ==>
              r == Err(NotNumeric(key))
    ensures r.Ok? ==> AsInt(Decode(codec, frame).value[key]) == Some(r.value.original)
    ensures r.Ok? ==> r.value.rewritten == r.value.original + delta
    ensures r.Ok? ==> Frame(Body(r.value.frame)) == r.value.frame
    ensures r.Ok? && RoundTrips(codec) ==>
              var before := Decode(codec, frame).value;
              var after := Decode(codec, r.value.frame);
              && after.Some?
              && after.value.Keys == before.Keys
              && after.value[key] == Number(r.value.rewritten)
              && forall k :: k in before && k != key ==> after.value[k] == before[k]
  {
    match Lookup(codec, frame, key)
    case Err(e) => Err(e)
    case Ok(v) =>
      match AsInt(v)
      case None => Err(NotNumeric(key))
      case Some(port) =>
        var obj := Decode(codec, frame).value[key := Number(port + delta)];
        BodyOfFrame(codec.serialize(obj));
        Ok(Rewritten(Encode(codec, obj), port, port + delta))
  }

  /** The request forwarded to the device has `d2c_port + 1`. */
  const RequestDelta := 1
  /** The response returned to the client has `c2d_port - 1`. */
  const ResponseDelta := -1

  /** `(sumo_c2d_port, client_d2c_port, prox_c2d_port, prox_d2c_port)`. */
  type PortQuad = (int, int, int, int)

  /** The quadruple the handshake hands on, in the order `proxy_session` takes it. */
  function Negotiated(request: Rewritten, response: Rewritten): (q: PortQuad)
    ensures q.0 == response.original && q.1 == request.original
    ensures q.2 == response.rewritten && q.3 == request.rewritten
  {
    (response.original, request.original, response.rewritten, request.rewritten)
  }

  /** An entry of the handler's `return_data` list. */
  datatype InitItem = ClientIp(ip: Address) | Ports(ports: PortQuad)

  /**
   * `proxy_init`: a TCP server on the device's handshake port whose handler
   * relays one handshake. The handler stops the server (`tidy`) once it has
   * answered the client. A handler that raises is reported by the server, which
   * keeps serving, so a later connection can still complete the handshake.
   */
  class InitServer {
    const codec: Codec
    /** `(sumo_ip, init_port)`, where the real handshake goes. */
    const sumo: Endpoint
    var returnData: seq<InitItem>
    var serving: bool

    ghost predicate Valid()
      reads this
    {
      && (serving <==> returnData == [])
      && (!serving ==> |returnData| == 2 && returnData[0].ClientIp? && returnData[1].Ports?)
    }

    constructor (codec: Codec, sumoIp: Address, initPort: int)
      ensures Valid() && serving && returnData == []
      ensures this.codec == codec && sumo == Endpoint(sumoIp, initPort)
    {
      this.codec := codec;
      sumo := Endpoint(sumoIp, initPort);
      returnData := [];
      serving := true;
    }

    /**
     * `InitHandler.handle` for a client at `clientIp` sending `request`; `device`
     * is the device's answer to the frame it receives. Returns what is sent to
     * the device and to the client (None: the handler raised before that send).
     */
    method Handle(clientIp: Address, request: Bytes, device: Bytes -> Bytes)
      returns (toSumo: Option<Send>, toClient: Option<Bytes>)
      requires Valid() && serving
      modifies this
      ensures Valid()
      ensures var req := RewritePort(codec, request, RequestKey, RequestDelta);
              toSumo == (if req.Ok? then Some(Send(sumo, req.value.frame)) else None)
      ensures var req := RewritePort(codec, request, RequestKey, RequestDelta);
              var resp := if req.Ok? then RewritePort(codec, device(req.value.frame), ResponseKey, ResponseDelta) else Err(req.error);
              if resp.Ok? then
                && toClient == Some(resp.value.frame)
                && returnData == [ClientIp(clientIp), Ports(Negotiated(req.value, resp.value))]
                && !serving
              else
                toClient == None && returnData == [] && serving
    {
      toSumo, toClient := None, None;
      var req := RewritePort(codec, request, RequestKey, RequestDelta);
      if req.Err? {
        return;
      }
      toSumo := Some(Send(sumo, req.value.frame));
      var resp := RewritePort(codec, device(req.value.frame), ResponseKey, ResponseDelta);
      if resp.Err? {
        return;
      }
      toClient := Some(resp.value.frame);
      returnData := returnData + [ClientIp(clientIp), Ports(Negotiated(req.value, resp.value))];
      serving := false;
    }

    /** What `proxy_init` returns once its wait is over: the client's address and
        the port quadruple, or 'No init within 30 seconds of announce'. */
    function Outcome(): (r: Result<(Address, PortQuad)>)
      reads this
      requires Valid()
      ensures r.Err? <==> serving
      ensures r.Err? ==> r.error == NoInit
      ensures r.Ok? ==> returnData == [ClientIp(r.value.0), Ports(r.value.1)]
    {
      if serving then Err(NoInit) else Ok((returnData[0].ip, returnData[1].ports))
    }
  }

  /** The arguments of `proxy_session(client_ip, sumo_ip, *ports)`. */
  datatype SessionPlan = SessionPlan(clientIp: Address, sumoIp: Address,
                                     sumoC2d: int, clientD2c: int, proxC2d: int, proxD2c: int)

  /**
   * `start` after the handshake: a device that answered with `c2d_port` 0 already
   * has a client, and the session ends before any relay listener exists.
   */
  function Start(sumoIp: Address, init: Result<(Address, PortQuad)>): (r: Result<SessionPlan>)
    ensures init.Err? ==> r == Err(init.error)
    ensures init.Ok? ==> (r.Ok? <==> init.value.1.0 != 0)
    ensures init.Ok? && init.value.1.0 == 0 ==> r == Err(DeviceBusy)
    ensures r.Ok? ==> r.value.sumoC2d != 0
    ensures r.Ok? ==> var (ip, q) := init.value;
                      r.value == SessionPlan(ip, sumoIp, q.0, q.1, q.2, q.3)
  {
    match init
    case Err(e) => Err(e)
    case Ok((clientIp, ports)) =>
      if ports.0 == 0 then Err(DeviceBusy)
      else Ok(SessionPlan(clientIp, sumoIp, ports.0, ports.1, ports.2, ports.3))
  }

  /** The two listeners of `proxy_session`: C2D on the proxy's c2d port, D2C on
      its d2c port. */
  function SessionListeners(plan: SessionPlan): (ls: seq<Listener>)
    ensures |ls| == 2
    ensures ls[0] == Listener(plan.proxC2d, ClientToSumoHandler)
    ensures ls[1] == Listener(plan.proxD2c, SumoToClientHandler)
  {
    [Listener(plan.proxC2d, ClientToSumoHandler), Listener(plan.proxD2c, SumoToClientHandler)]
  }

  /** `for target in repeaters: send_socket.sendto(tag + data, target)`, after the
      unchanged datagram went to `forward`. */
  method Tee(forward: Endpoint, data: Bytes, dir: Direction, repeaters: seq<Endpoint>)
    returns (sends: seq<Send>)
    ensures IsFanout(sends, forward, data, dir, repeaters)
  {
    sends := [Send(forward, data)];
    for i := 0 to |repeaters|
      invariant |sends| == 1 + i && sends[0] == Send(forward, data)
      invariant forall j :: 0 <= j < i ==> sends[j + 1] == Send(repeaters[j], Mirror(dir, data))
    {
      sends := sends + [Send(repeaters[i], Mirror(dir, data))];
    }
  }

  /** A running `proxy_session`. */
  class Session {
    const plan: SessionPlan
    /** `self._repeaters`, fixed for the whole session. */
    const repeaters: seq<Endpoint>
    const flag: Liveness.ActivityFlag

    /** `SumoProxy(repeaters)` turns a missing list into the empty one. */
    constructor (plan: SessionPlan, repeaters: Option<seq<Endpoint>>)
      ensures this.plan == plan
      ensures this.repeaters == if repeaters.None? then [] else repeaters.value
      ensures fresh(flag) && flag.Valid() && flag.queue == [true]
    {
      this.plan := plan;
      this.repeaters := if repeaters.None? then [] else repeaters.value;
      flag := new Liveness.ActivityFlag();
    }

    /** `C2DHandler.handle`: mark activity, pass the datagram to the device, then
        mirror it with '>' to every repeater. */
    method HandleC2D(data: Bytes) returns (sends: seq<Send>)
      requires flag.Valid()
      modifies flag
      ensures flag.Valid() && flag.queue == [true]
      ensures IsFanout(sends, Endpoint(plan.sumoIp, plan.sumoC2d), data, ClientToSumo, repeaters)
    {
      flag.OnDatagram();
      sends := Tee(Endpoint(plan.sumoIp, plan.sumoC2d), data, ClientToSumo, repeaters);
    }

    /** `D2CHandler.handle`: mark activity, pass the datagram to the client, then
        mirror it with '<' to every repeater. */
    method HandleD2C(data: Bytes) returns (sends: seq<Send>)
      requires flag.Valid()
      modifies flag
      ensures flag.Valid() && flag.queue == [true]
      ensures IsFanout(sends, Endpoint(plan.clientIp, plan.clientD2c), data, SumoToClient, repeaters)
    {
      flag.OnDatagram();
      sends := Tee(Endpoint(plan.clientIp, plan.clientD2c), data, SumoToClient, repeaters);
    }
  }

  /**
   * The whole interception, end to end: after a successful handshake with a
   * device that is not busy, the client is told to send to the port the C2D
   * listener is created on and the device is told to send to the port the D2C
   * listener is created on, while the relay forwards to the ports the two peers
   * announced. A told port really is listened on exactly when both binds succeed
   * and the port is not 0, that is, unless the device announced c2d_port 1 or the
   * client announced d2c_port -1.
   */
  lemma PromisedPortsAreListened(codec: Codec, clientIp: Address, sumoIp: Address,
                                 request: Bytes, response: Bytes)
    requires RoundTrips(codec)
    requires RewritePort(codec, request, RequestKey, RequestDelta).Ok? && RewritePort(codec, response, ResponseKey, ResponseDelta).Ok?
    requires RewritePort(codec, response, ResponseKey, ResponseDelta).value.original != 0
    ensures var req := RewritePort(codec, request, RequestKey, RequestDelta).value;
            var resp := RewritePort(codec, response, ResponseKey, ResponseDelta).value;
            var r := Start(sumoIp, Ok((clientIp, Negotiated(req, resp))));
            && r.Ok?
            && Decode(codec, resp.frame).value[ResponseKey] == Number(SessionListeners(r.value)[0].port)
            && Decode(codec, req.frame).value[RequestKey] == Number(SessionListeners(r.value)[1].port)
            && AsInt(Decode(codec, response).value[ResponseKey]) == Some(r.value.sumoC2d)
            && AsInt(Decode(codec, request).value[RequestKey]) == Some(r.value.clientD2c)
            && r.value.proxC2d == r.value.sumoC2d - 1
            && r.value.proxD2c == r.value.clientD2c + 1
            && (resp.rewritten in ListeningPorts(SessionListeners(r.value)) <==>
                  Bind(SessionListeners(r.value)).Ok? && r.value.sumoC2d != 1)
            && (req.rewritten in ListeningPorts(SessionListeners(r.value)) <==>
                  Bind(SessionListeners(r.value)).Ok? && r.value.clientD2c != -1)
  {
    var req := RewritePort(codec, request, RequestKey, RequestDelta).value;
    var resp := RewritePort(codec, response, ResponseKey, ResponseDelta).value;
    var ls := SessionListeners(Start(sumoIp, Ok((clientIp, Negotiated(req, resp)))).value);
    assert Relay.Ports(ls) == {ls[0].port, ls[1].port};
  }

  /** When the relay's two binds succeed, in terms of the ports the peers
      announced: both offset ports must lie in 0..65535 and must not collide,
      unless both are 0. */
  lemma SessionListenersBind(plan: SessionPlan)
    requires plan.proxC2d == plan.sumoC2d - 1 && plan.proxD2c == plan.clientD2c + 1
    ensures Bind(SessionListeners(plan)).Ok? <==>
              && 1 <= plan.sumoC2d <= MaxPort + 1
              && -1 <= plan.clientD2c <= MaxPort - 1
              && (plan.sumoC2d != plan.clientD2c + 2 || plan.clientD2c == -1)
  {
    var ls := SessionListeners(plan);
    assert ls[0].port == plan.proxC2d && ls[1].port == plan.proxD2c;
  }

  /** The two offsets collide when the device's port is the client's plus two:
      both proxy ports are the same number, so the second bind fails and the
      session ends, unless that number is 0, which binds two free ports. */
  lemma OffsetCollision(plan: SessionPlan)
    requires plan.proxC2d == plan.sumoC2d - 1 && plan.proxD2c == plan.clientD2c + 1
    ensures Bind(SessionListeners(plan)).Ok? ==> plan.sumoC2d != plan.clientD2c + 2 || plan.clientD2c == -1
    ensures plan.sumoC2d == plan.clientD2c + 2 && plan.clientD2c != -1 ==> Bind(SessionListeners(plan)) == Err(BadPort)
    ensures plan.sumoC2d == plan.clientD2c + 2 && plan.clientD2c == -1 ==> Bind(SessionListeners(plan)).Ok?
  {
    var ls := SessionListeners(plan);
    if plan.sumoC2d == plan.clientD2c + 2 {
      assert ls[0].port == ls[1].port;
    }
  }
}
