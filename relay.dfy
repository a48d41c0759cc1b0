/**
 * What a relay handler emits for one received datagram: the datagram itself,
 * unchanged, to the counterpart, followed by one direction-tagged mirror copy
 * per observer, in observer order.
 */
module Relay {
  import opened Wire

  ghost predicate IsFanout(sends: seq<Send>, forward: Endpoint, data: Bytes, dir: Direction,
                           observers: seq<Endpoint>)
  {
    && |sends| == 1 + |observers|
    && sends[0] == Send(forward, data)
    && forall i :: 0 <= i < |observers| ==> sends[i + 1] == Send(observers[i], Mirror(dir, data))
  }

  /** A fan-out is determined by its inputs: there is one way to relay a datagram. */
  lemma FanoutUnique(s1: seq<Send>, s2: seq<Send>, forward: Endpoint, data: Bytes, dir: Direction,
                     observers: seq<Endpoint>)
    requires IsFanout(s1, forward, data, dir, observers)
    requires IsFanout(s2, forward, data, dir, observers)
    ensures s1 == s2
  {
    forall k | 0 <= k < |s1|
      ensures s1[k] == s2[k]
    {
      if k > 0 {
        var j := k - 1;
        assert s1[j + 1] == Send(observers[j], Mirror(dir, data)) == s2[j + 1];
      }
    }
  }

  /** Only the first send carries the datagram untagged; every later send is
      one byte longer and starts with the direction tag. */
  lemma FanoutTagsOnlyMirrors(sends: seq<Send>, forward: Endpoint, data: Bytes, dir: Direction,
                              observers: seq<Endpoint>, k: nat)
    requires IsFanout(sends, forward, data, dir, observers)
    requires 0 < k < |sends|
    ensures |sends[k].payload| == |data| + 1
    ensures sends[k].payload[0] == TagOf(dir) && sends[k].payload[1..] == data
    ensures sends[k].payload != sends[0].payload
  {
    var j := k - 1;
    assert sends[j + 1] == Send(observers[j], Mirror(dir, data));
  }

  /** The handler class a UDP listener dispatches to. */
  datatype Handler = ClientToSumoHandler | SumoToClientHandler | SharedHandler

  /** `SocketServer.UDPServer(('', port), handler)`. */
  datatype Listener = Listener(port: int, handler: Handler)

  /** The largest UDP port a socket can bind. */
  const MaxPort := 65535

  /** Binding the listeners in order: a port outside 0..65535 raises, and so does
      a second bind to a port an earlier listener of the session already holds.
      Port 0 asks the system for a free port, so listeners on port 0 never clash. */
  function Bind(listeners: seq<Listener>): (r: Result<seq<Listener>>)
    ensures r.Ok? <==>
              (forall i :: 0 <= i < |listeners| ==> 0 <= listeners[i].port <= MaxPort) &&
              (forall i, j :: 0 <= i < j < |listeners| && listeners[i].port == listeners[j].port ==>
                 listeners[j].port == 0)
    ensures r.Ok? ==> r.value == listeners
    ensures r.Err? ==> r.error == BadPort
  {
    if |listeners| == 0 then Ok([])
    else
      var init := listeners[..|listeners| - 1];
      var last := listeners[|listeners| - 1];
      match Bind(init)
      case Err(e) => Err(e)
      case Ok(_) =>
        if 0 <= last.port <= MaxPort && (last.port == 0 || forall i :: 0 <= i < |init| ==> init[i].port != last.port)
        then Ok(listeners)
        else Err(BadPort)
  }

  /** The ports the listeners are created on. */
  function Ports(listeners: seq<Listener>): set<int> {
    set i | 0 <= i < |listeners| :: listeners[i].port
  }

  /** The ports datagrams can be sent to and reach a listener. When a bind raises
      the session ends and nothing listens; a listener created on port 0 holds a
      port the system picks, so nothing listens on port 0 itself. */
  function ListeningPorts(listeners: seq<Listener>): set<int> {
    if Bind(listeners).Ok? then Ports(listeners) - {0} else {}
  }
}
