/**
 * Tagging in the proxies against untagging in the printer: every mirror copy a
 * relay handler sends reads back, at the printer, as the direction it was
 * relayed in and the datagram exactly as it was forwarded.
 */
module RoundTrip {
  import opened Wire
  import opened Relay
  import Printer
  import SumoProxy

  /** proxy.py: each repeater copy of a fan-out untags to the direction and the
      datagram; the forwarded copy itself is the datagram, untagged. */
  lemma FanoutMirrorsUntag(sends: seq<Send>, forward: Endpoint, data: Bytes, dir: Direction,
                           observers: seq<Endpoint>, k: nat)
    requires IsFanout(sends, forward, data, dir, observers)
    requires 0 < k < |sends|
    ensures sends[k].to == observers[k - 1]
    ensures Printer.Untag(sends[k].payload) == Ok(Some((dir, data)))
    ensures sends[0].payload == data
  {
    var j := k - 1;
    assert sends[j + 1] == Send(observers[j], Mirror(dir, data));
    Printer.UntagMirror(dir, data);
  }

  /** sumo-proxy.py: the mirror of every datagram goes to the address the printer
      listens on and untags there to the direction the shared listener chose. */
  lemma SharedMirrorReachesPrinter(plan: SumoProxy.SessionPlan, source: Address, data: Bytes)
    requires plan.c2d == plan.d2c
    ensures var sends := SumoProxy.SharedRoute(plan, source, data);
            && sends[1].to == Printer.ListenAddress
            && Printer.Untag(sends[1].payload) == Ok(Some((SumoProxy.Classify(plan, source), data)))
            && (Printer.Untag(sends[1].payload).value.value.0 == ClientToSumo <==> source == plan.clientIp)
  {
    var dir := SumoProxy.Classify(plan, source);
    SumoProxy.SharedRouteOneWay(plan, source, data);
    FanoutMirrorsUntag(SumoProxy.SharedRoute(plan, source, data), SumoProxy.Counterpart(plan, dir),
                       data, dir, [SumoProxy.RepeatTarget], 1);
  }
}
