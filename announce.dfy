/**
 * `ip_addresses` and `announce_proxy_sumo` (the same code in proxy.py and
 * sumo-proxy.py): one service record per local IPv4 address, in sorted order,
 * each with an instance name derived from the address, in the
 * `<Instance>.<Service>.<Domain>` form of section 4.1 of RFC 6763.
 *
 * The list of addresses is an input (interface enumeration is not modelled) and
 * a record stands for the registration call that would publish it.
 */
module Announce {

  /** `service_name`'s default. */
  const DefaultServiceName := "Sumo"
  /** `service_type`'s default. */
  const DefaultServiceType := "_arsdk-0902._udp.local."

  /** Python's ordering of `str` values: lexicographic by character. */
  predicate LexLe(a: string, b: string)
    decreases |a|
  {
    a == [] || (b != [] && (a[0] < b[0] || (a[0] == b[0] && LexLe(a[1..], b[1..]))))
  }

  lemma {:induction false} LexLeTotal(a: string, b: string)
    ensures LexLe(a, b) || LexLe(b, a)
    decreases |a|
  {
    if a != [] && b != [] && a[0] == b[0] {
      LexLeTotal(a[1..], b[1..]);
    }
  }

  lemma {:induction false} LexLeTransitive(a: string, b: string, c: string)
    requires LexLe(a, b) && LexLe(b, c)
    ensures LexLe(a, c)
    decreases |a|
  {
    if a != [] && a[0] == b[0] && b[0] == c[0] {
      LexLeTransitive(a[1..], b[1..], c[1..]);
    }
  }

  ghost predicate Sorted(s: seq<string>) {
    forall i, j :: 0 <= i < j < |s| ==> LexLe(s[i], s[j])
  }

  /** Insert `x` into a sorted list before the first element above it. */
  function Insert(x: string, s: seq<string>): (r: seq<string>)
    requires Sorted(s)
    ensures Sorted(r)
    ensures multiset(r) == multiset(s) + multiset{x}
    ensures |r| == |s| + 1
  {
    if s == [] then [x]
    else if LexLe(x, s[0]) then
      assert forall j :: 0 <= j < |s| ==> LexLe(x, s[j]) by {
        forall j | 0 <= j < |s| ensures LexLe(x, s[j]) {
          if j > 0 { LexLeTransitive(x, s[0], s[j]); }
        }
      }
      [x] + s
    else
      LexLeTotal(x, s[0]);
      var rest := Insert(x, s[1..]);
      assert multiset(rest) == multiset(s[1..]) + multiset{x};
      assert forall j :: 0 <= j < |rest| ==> LexLe(s[0], rest[j]) by {
        forall j | 0 <= j < |rest| ensures LexLe(s[0], rest[j]) {
          assert rest[j] in multiset(rest);
          assert rest[j] == x || rest[j] in multiset(s[1..]);
          if rest[j] != x {
            var k :| 1 <= k < |s| && s[k] == rest[j];
          }
        }
      }
      assert s == [s[0]] + s[1..];
      [s[0]] + rest
  }

  /** `sorted(addresses)`. */
  function SortAddresses(addresses: seq<string>): (r: seq<string>)
    ensures Sorted(r)
    ensures multiset(r) == multiset(addresses)
  {
    if addresses == [] then []
    else
      assert addresses == [addresses[0]] + addresses[1..];
      Insert(addresses[0], SortAddresses(addresses[1..]))
  }

  /** `address.replace('.', '-')`. */
  function ReplaceDots(address: string): (r: string)
    ensures |r| == |address|
    ensures forall i :: 0 <= i < |r| ==> r[i] == (if address[i] == '.' then '-' else address[i])
  {
    if address == [] then ""
    else [if address[0] == '.' then '-' else address[0]] + ReplaceDots(address[1..])
  }

  /** `'{}-{}'.format(service_name, address.replace('.', '-'))`. */
  function InstanceLabel(serviceName: string, address: string): string {
    serviceName + "-" + ReplaceDots(address)
  }

  /** `'.'.join((iface_service_name, service_type))`. */
  function InstanceName(serviceName: string, address: string, serviceType: string): string {
    InstanceLabel(serviceName, address) + "." + serviceType
  }

  /** The registration `zeroconf.ServiceInfo(service_type, name, inet_aton(address),
      init_port)`. */
  datatype ServiceRecord = ServiceRecord(serviceType: string, name: string, address: string, port: int)

  /** The `for address in ip_addresses()` loop: one record per address, in sorted
      order, all advertising the device's handshake port. */
  method AnnounceProxy(addresses: seq<string>, initPort: int, serviceName: string, serviceType: string)
    returns (records: seq<ServiceRecord>)
    ensures var sorted := SortAddresses(addresses);
            && |records| == |sorted|
            && forall i :: 0 <= i < |records| ==>
                 records[i] == ServiceRecord(serviceType, InstanceName(serviceName, sorted[i], serviceType),
                                             sorted[i], initPort)
  {
    var sorted := SortAddresses(addresses);
    records := [];
    for i := 0 to |sorted|
      invariant |records| == i
      invariant forall j :: 0 <= j < i ==>
                  records[j] == ServiceRecord(serviceType, InstanceName(serviceName, sorted[j], serviceType),
                                              sorted[j], initPort)
    {
      records := records + [ServiceRecord(serviceType, InstanceName(serviceName, sorted[i], serviceType), sorted[i], initPort)];
    }
  }

  /** The instance label holds no '.', so when the service name holds none either
      the first '.' of the full name ends the instance label: the name splits as
      `<Instance>.<Service>.<Domain>`. */
  lemma InstanceLabelIsOneLabel(serviceName: string, address: string, serviceType: string)
    requires '.' !in serviceName
    ensures '.' !in InstanceLabel(serviceName, address)
    ensures var instance := InstanceLabel(serviceName, address);
            var name := InstanceName(serviceName, address, serviceType);
            name[..|instance|] == instance && name[|instance|] == '.' && name[|instance| + 1..] == serviceType
  {
    var instance := InstanceLabel(serviceName, address);
    forall i | 0 <= i < |instance|
      ensures instance[i] != '.'
    {
      if i > |serviceName| {
        assert instance[i] == ReplaceDots(address)[i - |serviceName| - 1];
      }
    }
  }

  /** `start` announces with the default name and type: each record is named
      `Sumo-<address with dashes>` within the `_arsdk-0902._udp.local.` service. */
  lemma DefaultAnnouncementName(address: string)
    ensures var name := InstanceName(DefaultServiceName, address, DefaultServiceType);
            var instance := InstanceLabel(DefaultServiceName, address);
            && '.' !in instance
            && name[..5] == "Sumo-"
            && name[..|instance|] == instance
            && name[|instance|] == '.'
            && name[|instance| + 1..] == DefaultServiceType
  {
    InstanceLabelIsOneLabel(DefaultServiceName, address, DefaultServiceType);
  }

  /** `replace('-', '.')` undoes the renaming on any address without a '-', which
      dotted IPv4 addresses never have. */
  function RestoreDots(name: string): (r: string)
    ensures |r| == |name|
  {
    if name == [] then "" else [if name[0] == '-' then '.' else name[0]] + RestoreDots(name[1..])
  }

  lemma {:induction false} RestoreReplaceDots(address: string)
    requires '-' !in address
    ensures RestoreDots(ReplaceDots(address)) == address
  {
    if address != [] {
      RestoreReplaceDots(address[1..]);
      assert ReplaceDots(address)[1..] == ReplaceDots(address[1..]);
    }
  }

  /** Distinct dash-free addresses get distinct instance names, so the records of
      one announcement never share a name. */
  lemma DistinctAddressesDistinctNames(serviceName: string, a: string, b: string, serviceType: string)
    requires '-' !in a && '-' !in b && a != b
    ensures InstanceName(serviceName, a, serviceType) != InstanceName(serviceName, b, serviceType)
  {
    var na := InstanceName(serviceName, a, serviceType);
    var nb := InstanceName(serviceName, b, serviceType);
    if |a| == |b| {
      RestoreReplaceDots(a);
      RestoreReplaceDots(b);
      var n := |serviceName| + 1;
      assert na[n..n + |a|] == ReplaceDots(a) != ReplaceDots(b) == nb[n..n + |b|];
    } else {
      assert |na| != |nb|;
    }
  }
}
