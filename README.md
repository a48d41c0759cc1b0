# sumo-proxy session model

A Dafny model of the decision logic inside sumo-proxy. The proxy places itself between a
controller client and a Parrot Jumping Sumo ("the sumo", the device). It re-announces the device
under its own address. It relays the TCP handshake in which both sides name the UDP ports they
listen on. Then it relays the UDP session in both directions and mirrors every datagram to
observers. The model covers three programs:

- `proxy.py` rewrites the handshake. The device is told to send to the client's `d2c_port + 1`.
  The client is told to send to the device's `c2d_port - 1`. The proxy listens on both ports and
  copies every datagram, tagged, to a list of repeaters.
- `sumo-proxy.py` runs on its own address and forwards the handshake unchanged. It listens on the
  negotiated ports themselves: one shared listener when the two ports coincide, otherwise one per
  direction. It mirrors every datagram, tagged, to `127.0.0.1:65432`.
- `sumo-proxy-printer.py` receives those mirrors. It decodes the direction tag and renders the
  payload as `\xNN` escapes.

Modules:

- `Wire` (wire.dfy): bytes, endpoints, sends, directions, the tags `>` (0x3E) and `<` (0x3C),
  and the session errors.
- `Json` (json.dfy): the handshake frame, a JSON object (RFC 8259) followed by one NUL byte. The
  JSON library is a parameter `Codec`. Its one assumed property, that parsing a serialized object
  gives the object back, is the predicate `RoundTrips`. Every lemma that needs it takes it as a
  hypothesis. Serialization may reorder keys, so preservation is stated on objects, never on bytes.
- `Liveness` (liveness.dfy): the `deque([True], maxlen=1)` activity flag as a class, and the
  watchdog loop run over an interleaving of handler calls and checks.
- `Relay` (relay.dfy): what a handler sends for one datagram, and how listeners bind.
- `Proxy` (proxy.dfy), `SumoProxy` (sumo_proxy.dfy), `Printer` (printer.dfy): the three programs.
- `Announce` (announce.dfy): `ip_addresses` and `announce_proxy_sumo`. The code is identical in
  both proxies.
- `RoundTrip` (roundtrip.dfy): tagging in the proxies against untagging in the printer.

Behaviour of the code that the model keeps:

- A handshake handler that raises does not end the handshake stage. `SocketServer` reports the
  exception and keeps serving, so only a completed handshake stops the server, and a later
  connection can still complete it within the wait.
- `proxy.py` re-serializes both handshake messages with `json.dumps`. So the other fields are
  preserved as JSON values, not byte for byte. `sumo-proxy.py` forwards both messages byte for
  byte.
- Liveness is a single-slot queue that starts holding `True`. Every handled datagram puts `True`
  in it, and each watchdog check takes one out. A check fails exactly when no datagram was handled
  since the previous check, so the first check always passes.
- The proxy ports are `c2d - 1` and `d2c + 1` in `proxy.py` and the negotiated ports themselves
  in `sumo-proxy.py`. A listener on port 0 gets a free port from the system, so two listeners on
  port 0 never clash, and a peer told to send to port 0 reaches no listener. A bind that raises ends the session,
  so nothing listens at all (`Relay.ListeningPorts`).
- Python semantics kept: a JSON `true`/`false` port counts as 1/0, since `bool` is a subclass of
  `int`. `data[:-1]` of an empty frame is empty. `repr_bytes`'s `maximum` follows slice rules, so
  a negative value counts from the end.

## Model

| member | source | states |
|---|---|---|
| `Wire.TagOf` | proxy.py:212-227 | the tag byte is '>' exactly for client-to-sumo traffic and '<' exactly for sumo-to-client traffic |
| `Wire.Mirror` | sumo-proxy.py:174-181 | a mirror copy is one byte longer than the datagram, starts with the direction's tag and carries the datagram unchanged after it |
| `Json.Body` | proxy.py:119-120 | the parsed body is the received frame minus its last byte; an empty frame gives an empty body |
| `Json.Frame` | proxy.py:134 | an emitted frame is the serialized body followed by exactly one NUL |
| `Json.BodyOfFrame` | proxy.py:134 | stripping the final byte of an emitted frame yields the serialized body |
| `Json.FrameOfBody` | proxy.py:143-144 | a NUL-terminated frame is its body plus the terminator |
| `Json.Decode` | proxy.py:120 | reading a handshake frame parses its body; `Json.DecodeEncode` proves it inverts `Json.Encode` |
| `Json.Encode` | proxy.py:134 | an emitted frame is the serialized object plus one NUL; `Json.BodyOfFrame` and `Json.DecodeEncode` carry its contract |
| `Json.DecodeEncode` | proxy.py:160 | given parse/serialize round trips, decoding an emitted frame gives back the object exactly |
| `Json.AsInt` | proxy.py:128 | a port value supports the arithmetic exactly when it is an integer or a boolean (True is 1, False is 0) |
| `Json.Lookup` | sumo-proxy.py:117 | reading a key succeeds exactly when the frame body parses to an object holding it; otherwise the error says which step raised |
| `Liveness.Appended` | proxy.py:199 | an append to the bounded deque keeps at most one item, the one just appended, dropping the oldest |
| `Liveness.ActivityFlag.constructor` | proxy.py:199 | the flag starts as `[True]` |
| `Liveness.ActivityFlag.OnDatagram` | proxy.py:208 | after any number of appends the deque holds exactly `[True]`, never more than one element |
| `Liveness.ActivityFlag.WatchdogTick` | proxy.py:238-245 | the pop reports the session alive iff the deque was non-empty, and leaves it empty |
| `Liveness.FirstTickPasses` | proxy.py:238-241 | the first watchdog check passes, whatever came before it |
| `Liveness.SilentPeriodFails` | proxy.py:241-245 | a check with no datagram since the previous check fails |
| `Liveness.ActivityKeepsAlive` | sumo-proxy.py:220-228 | a check with a datagram since the previous check passes |
| `Liveness.Watch` | sumo-proxy.py:220-228 | the watchdog loop raises 'No comms' (`NoComms`) at the first check that finds no datagram since the previous check, and at no earlier check; it ends without error iff no check in the events fails |
| `Relay.FanoutUnique` | proxy.py:204-227 | the sends for one datagram are determined by destination, data, direction and observer list |
| `Relay.FanoutTagsOnlyMirrors` | proxy.py:210-214 | only the first send is the untagged datagram; every other send is the tag followed by the datagram |
| `Relay.Bind` | proxy.py:229-230 | binding succeeds iff every port is in 0..65535 and no two listeners share a port other than 0 (port 0 binds a free port); otherwise the session fails with a bind error |
| `Proxy.RewritePort` | proxy.py:119-160 | the rewrite succeeds iff the body parses and holds a numeric port under the key; the new port is the old one plus the offset (+1 for d2c_port, -1 for c2d_port); with a round-tripping codec the emitted object has the same keys, the new port, and every other key's value unchanged; the frame ends in one NUL |
| `Proxy.Negotiated` | proxy.py:165-170 | the quadruple is (sumo c2d, client d2c, proxy c2d, proxy d2c), in that order |
| `Proxy.InitServer.constructor` | proxy.py:106-107 | `return_data` starts empty and the server is serving |
| `Proxy.InitServer.Handle` | proxy.py:112-177 | the device, at (sumo_ip, init_port), gets the rewritten request iff it rewrites; the client gets the rewritten response iff both rewrite; only then is `return_data` `[client_ip, quadruple]` and the server stopped; otherwise the server keeps serving with empty `return_data` |
| `Proxy.InitServer.Outcome` | proxy.py:183-192 | the wait fails with "no init" iff no handshake completed, and otherwise yields the recorded client address and quadruple |
| `Proxy.Start` | proxy.py:262-272 | a zero sumo c2d port (`ports[0]`) ends the session with DeviceBusy before any relay; otherwise the session gets the quadruple positionally |
| `Proxy.SessionListeners` | proxy.py:229-230 | the relay listens with the C2D handler on the proxy c2d port and the D2C handler on the proxy d2c port |
| `Proxy.Tee` | proxy.py:210-214 | the unchanged datagram goes to the counterpart first, then the tagged copy to each repeater in list order: 1 + len(repeaters) sends |
| `Proxy.Session.constructor` | proxy.py:39 | a missing repeater list becomes the empty one; the flag starts as `[True]` |
| `Proxy.Session.HandleC2D` | proxy.py:207-214 | marks activity; sends the datagram to (sumo_ip, sumo c2d port), then '>' + datagram to every repeater |
| `Proxy.Session.HandleD2C` | proxy.py:220-227 | marks activity; sends the datagram to (client_ip, client d2c port), then '<' + datagram to every repeater |
| `Proxy.PromisedPortsAreListened` | proxy.py:122-170 | after a handshake with a non-busy device, the port the client is told is the port the C2D listener is created on, the port the device is told is the D2C listener's, and the relay forwards to the ports the peers announced; a told port is actually listened on iff both binds succeed and the port is not 0 (the device did not announce c2d_port 1, the client did not announce d2c_port -1) |
| `Proxy.SessionListenersBind` | proxy.py:229-230 | the relay's two binds succeed iff the device's c2d_port is in 1..65536, the client's d2c_port is in -1..65534, and the offset ports do not collide unless both are 0 |
| `Proxy.OffsetCollision` | proxy.py:229-230 | if the sumo's c2d port is the client's d2c port plus two, both proxy ports coincide and the relay cannot bind, unless the shared port is 0, where both binds succeed |
| `SumoProxy.InitServer.constructor` | sumo-proxy.py:105-106 | `return_data` starts empty and the server is serving |
| `SumoProxy.InitServer.Handle` | sumo-proxy.py:111-136 | the request goes to the device at (sumo_ip, init_port) byte for byte iff its d2c_port can be read; the response goes to the client byte for byte iff its c2d_port can also be read; only then is `return_data` `[client_ip, c2d_port, d2c_port]` and the server stopped |
| `SumoProxy.InitServer.Outcome` | sumo-proxy.py:142-151 | the wait fails with "no init" iff no handshake completed, and otherwise yields `(client_ip, c2d_port, d2c_port)` |
| `SumoProxy.Start` | sumo-proxy.py:244-251 | a c2d port equal to 0 ends the session with DeviceBusy before `proxy_session`; a non-integer port makes the bind fail; otherwise the session gets the two ports unchanged |
| `SumoProxy.SessionListeners` | sumo-proxy.py:160-212 | the listeners `proxy_session` creates; `SumoProxy.ListensOnNegotiatedPorts` and `SumoProxy.SessionListenersBind` carry its contract |
| `SumoProxy.SessionListenersBind` | sumo-proxy.py:183-212 | because equal ports share one listener, binding the session's listeners fails exactly when a negotiated port is outside 0..65535 |
| `SumoProxy.ListensOnNegotiatedPorts` | sumo-proxy.py:160-212 | there is one listener iff c2d_port == d2c_port and two otherwise; in both modes the listeners are created on exactly {c2d_port, d2c_port}, with no offset, and, when both ports are in 0..65535 so the binds succeed, actually listen on those ports other than 0; otherwise nothing listens |
| `SumoProxy.Classify` | sumo-proxy.py:170 | a datagram is client-to-sumo iff its source address equals client_ip |
| `SumoProxy.SharedRoute` | sumo-proxy.py:165-181 | the shared handler's sends; `SumoProxy.SharedRouteOneWay` and `RoundTrip.SharedMirrorReachesPrinter` carry its contract |
| `SumoProxy.ClientToSumoRoute` | sumo-proxy.py:193-198 | the C2D handler's sends; `SumoProxy.DistinctRoutes` carries its contract |
| `SumoProxy.SumoToClientRoute` | sumo-proxy.py:203-209 | the D2C handler's sends; `SumoProxy.DistinctRoutes` carries its contract |
| `SumoProxy.SharedRouteOneWay` | sumo-proxy.py:165-181 | on the shared listener each datagram gets exactly one forward, unchanged, to the counterpart of its direction, and one mirror with that direction's tag to the repeat target |
| `SumoProxy.DistinctRoutes` | sumo-proxy.py:190-209 | C2D forwards to (sumo_ip, c2d_port) with a '>' mirror; D2C forwards to (client_ip, d2c_port) with a '<' mirror |
| `SumoProxy.Session.constructor` | sumo-proxy.py:156 | the flag starts as `[True]` |
| `SumoProxy.Session.HandleShared` | sumo-proxy.py:165-181 | marks activity and sends the shared-port route |
| `SumoProxy.Session.HandleC2D` | sumo-proxy.py:193-198 | marks activity and sends the client-to-sumo route |
| `SumoProxy.Session.HandleD2C` | sumo-proxy.py:203-209 | marks activity and sends the sumo-to-client route |
| `SumoProxy.ListensOnAnnouncedPorts` | sumo-proxy.py:113-129 | the session's listeners are created on exactly the ports read from the handshake, which both peers keep; the device's c2d_port is listened on iff both ports are in 0..65535 (otherwise the bind raises), and the client's d2c_port iff additionally it is not 0 |
| `Printer.Prefix` | sumo-proxy-printer.py:8 | `bytes[:maximum]` has min(len, maximum) bytes for maximum >= 0, or len + maximum (at least 0) for negative maximum, and is a prefix of the input |
| `Printer.HexDigit` | sumo-proxy-printer.py:8 | every digit is a lowercase hexadecimal character |
| `Printer.HexValue` | sumo-proxy-printer.py:8 | reads exactly the lowercase hexadecimal digits, inverting `HexDigit` |
| `Printer.ByteRepr` | sumo-proxy-printer.py:8 | each byte renders as backslash, 'x', then its high and low nibble as two lowercase hex digits |
| `Printer.Render` | sumo-proxy-printer.py:8 | the join of the escaped bytes; `Printer.RenderLength`, `Printer.RenderAt`, `Printer.ParseRender` and `Printer.RenderParse` carry its contract |
| `Printer.ReprBytes` | sumo-proxy-printer.py:5-8 | `repr_bytes` itself; `Printer.ReprLength`, `Printer.ReprTruncation` and `Printer.LineOfMirror` carry its contract |
| `Printer.RenderLength` | sumo-proxy-printer.py:8 | the joined rendering has four characters per byte |
| `Printer.RenderAt` | sumo-proxy-printer.py:8 | the i-th group of four characters renders the i-th byte, so output follows input order |
| `Printer.ReprLength` | sumo-proxy-printer.py:5-8 | output length is 4 * min(len(bytes), maximum) for non-negative maximum; empty input gives '' |
| `Printer.ReprTruncation` | sumo-proxy-printer.py:8 | the output depends only on `bytes[:maximum]`, and is the whole rendering when the input fits |
| `Printer.ParseRender` | sumo-proxy-printer.py:8 | the rendered bytes can be read back from the text exactly |
| `Printer.RenderParse` | sumo-proxy-printer.py:8 | any text that reads back as some bytes is their rendering, so the format is canonical |
| `Printer.Untag` | sumo-proxy-printer.py:19-26 | an empty datagram raises; '>' gives client-to-sumo and '<' gives sumo-to-client with payload `data[1:]`; any other first byte gives nothing |
| `Printer.Line` | sumo-proxy-printer.py:22-26 | a line is printed exactly for '>'- and '<'-tagged datagrams |
| `Printer.UntagMirror` | sumo-proxy-printer.py:22-26 | untagging a mirror copy recovers the direction and the datagram exactly |
| `Printer.UntagOnlyMirrors` | sumo-proxy-printer.py:22-26 | whatever untags to a direction and payload is that payload's mirror copy |
| `Printer.LineOfMirror` | sumo-proxy-printer.py:22-26 | the line for a mirror copy is its direction mark, a space, then the rendering: it is 2 + 4 * min(len, 25) long, and the first 25 bytes can be read back from it |
| `Announce.LexLe` | proxy.py:26 | Python's order on `str`, lexicographic by character; `Announce.LexLeTotal` and `Announce.LexLeTransitive` carry its contract |
| `Announce.LexLeTotal` | proxy.py:26 | any two addresses are comparable in Python's string order |
| `Announce.LexLeTransitive` | proxy.py:26 | Python's string order is transitive |
| `Announce.Insert` | proxy.py:26 | inserting into a sorted list keeps it sorted and adds exactly that one element |
| `Announce.SortAddresses` | proxy.py:26 | `sorted(addresses)` is sorted and a permutation of its input |
| `Announce.ReplaceDots` | proxy.py:92 | every '.' becomes '-' and every other character is kept, position by position |
| `Announce.InstanceLabel` | proxy.py:90-93 | `service_name-<address with dashes>`; `Announce.InstanceLabelIsOneLabel` and `Announce.DistinctAddressesDistinctNames` carry its contract |
| `Announce.InstanceName` | proxy.py:94-96 | the instance label, '.', then the service type; `Announce.InstanceLabelIsOneLabel` carries its contract |
| `Announce.AnnounceProxy` | proxy.py:89-101 | one record per local address in sorted order, named `service_name-<address with dashes>.service_type`, advertised on init_port |
| `Announce.InstanceLabelIsOneLabel` | proxy.py:89-96 | the instance label holds no '.', so the full name splits as instance label, '.', service type |
| `Announce.DefaultAnnouncementName` | proxy.py:84-86 | with `start`'s defaults, every record is named `Sumo-<address with dashes>` within the `_arsdk-0902._udp.local.` service |
| `Announce.RestoreReplaceDots` | proxy.py:92 | replacing '-' by '.' undoes the renaming for any address without a '-' |
| `Announce.DistinctAddressesDistinctNames` | proxy.py:89-96 | distinct dotted addresses get distinct instance names |
| `RoundTrip.FanoutMirrorsUntag` | proxy.py:213-214 | each repeater copy untags at the printer to the relayed direction and the datagram; the forwarded copy is the plain datagram |
| `RoundTrip.SharedMirrorReachesPrinter` | sumo-proxy.py:170-181 | every shared-port mirror goes to the printer's listen address and untags to client-to-sumo iff the source is the client |

## Left out

- Zeroconf browsing (`get_first_sumo`) and registration: foreign library calls. `Announce.AnnounceProxy` returns the records that would be registered.
- `netifaces` interface enumeration: a foreign call. The address list is an input to `Announce.AnnounceProxy`, and `inet_aton` is not modelled.
- Sockets: connect, recv, sendall and sendto become the values the handlers return. Constructing the UDP relay servers becomes `Relay.Bind`. The handshake `TCPServer` on `init_port` is assumed to bind, so the `InitServer` constructors cannot fail. The `max_packet_size` patch and `RECV_MAX` truncation of reads are not modelled.
- Threads: handler calls and watchdog checks are atomic events in one sequence. Real concurrent appends and sends are not modelled.
- Proxy.InitServer.Handle: the `tidy` thread is treated as stopping the server at once. A second connection served before the shutdown takes effect would extend `return_data` twice and make the unpacking raise; that race is not modelled. The same holds for `SumoProxy.InitServer.Handle`.
- Wall-clock time: `proxy_init`'s 30-second `join` becomes the `NoInit` outcome, and the one-second watchdog sleep becomes the `Tick` event. The discovery loop's 30-second limit and 0.1-second polling are left out together with `get_first_sumo`.
- The JSON library: `json.loads`/`json.dumps` are the `Codec` parameter. Only the object-level round trip is assumed, as the `RoundTrips` hypothesis. The re-serialized bytes are never claimed equal to the received ones.
- JSON floats: a float port would pass `+ 1` in Python. `Json.AsInt` treats floats, strings, null, arrays and objects alike as non-numeric.
- Relay.Bind: only port range and clashes within one session are modelled. A port held by another process is not, and neither is a later fixed port clashing with a free port the system chose for port 0.
- Proxy.Tee: every `sendto` is assumed to succeed. In the program a raising `sendto` ends that handler call, so the remaining repeaters get no copy, and a failing forward means no mirror is sent at all; the server then keeps serving. The same holds for `Proxy.Session.HandleC2D`, `Proxy.Session.HandleD2C` and the three `SumoProxy.Session` handlers.
- Proxy.InitServer.Handle: the `connect` and `sendall` to the device are assumed to succeed and the device always answers, so `device` is a total function. A failing `connect` makes the handler raise, which leaves the server serving like any other handler error. The same holds for `SumoProxy.InitServer.Handle`.
- The `multiprocessing` restart loop, `proc_wrapper`, all `print` output, and the printer's server setup.
