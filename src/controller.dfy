/**
 * The PprofMonitor controller's deterministic core
 * (pkg/controllers/monitor/controller.go): which namespaces a monitor
 * selects, which service and endpoint ports it matches, the scrape URLs and
 * friendly names built from them, and the collector configuration built
 * from every address found. The Kubernetes caches are not modelled: what
 * they return is passed in.
 */
module MonitorController {
  import opened Wrappers
  import opened Text
  import opened Config
  import Monitor
  import opened V1alpha1

  datatype Namespace = Namespace(name: string)

  datatype ServicePort = ServicePort(name: string, port: int, targetPort: IntOrString)
  datatype EndpointPort = EndpointPort(name: string, port: int)
  datatype ObjectReference = ObjectReference(kind: string, namespace: string, name: string)
  datatype EndpointAddress = EndpointAddress(ip: string, targetRef: ObjectReference)
  datatype EndpointSubset = EndpointSubset(addresses: seq<EndpointAddress>, ports: seq<EndpointPort>)

  /** A service (its ports) and the subsets of its Endpoints object. */
  datatype ServiceAndEndpoint = ServiceAndEndpoint(servicePorts: seq<ServicePort>, subsets: seq<EndpointSubset>)

  /** `directAddrAndFriendlyName`. */
  datatype Address = Address(addr: string, friendlyName: string)

  // ---------------------------------------------------------------------------
  // nsSelectorToList
  // ---------------------------------------------------------------------------

  predicate Selected(ns: Namespace, sel: NamespaceSelector)
  {
    sel.any || ns.name in sel.matchNames
  }

  /** `nsSelectorToList`: every namespace with `Any`, otherwise those named in `MatchNames`, in input order. */
  function NsSelectorToList(nsList: seq<Namespace>, sel: NamespaceSelector): (r: seq<Namespace>)
    ensures sel.any ==> r == nsList
    ensures forall ns :: ns in r <==> ns in nsList && Selected(ns, sel)
    ensures |r| <= |nsList|
    decreases |nsList|
  {
    if sel.any || nsList == [] then nsList
    else
      var last := nsList[|nsList| - 1];
      NsSelectorToList(nsList[..|nsList| - 1], sel) + (if last.name in sel.matchNames then [last] else [])
  }

  /** Selection keeps input order: it distributes over concatenation. */
  lemma {:induction false} NsSelectorToListAppend(a: seq<Namespace>, b: seq<Namespace>, sel: NamespaceSelector)
    ensures NsSelectorToList(a + b, sel) == NsSelectorToList(a, sel) + NsSelectorToList(b, sel)
    decreases |b|
  {
    if !sel.any {
      if b == [] {
        assert a + b == a;
      } else {
        var b' := b[..|b| - 1];
        assert (a + b)[..|a + b| - 1] == a + b';
        NsSelectorToListAppend(a, b', sel);
      }
    }
  }

  // ---------------------------------------------------------------------------
  // endpSubsetToAddresses
  // ---------------------------------------------------------------------------

  /** The monitor's endpoint selects a service port: by port name, or by the target port's number or name. */
  predicate SelectsServicePort(target: Endpoint, p: ServicePort)
  {
    || target.port == p.name
    || (target.targetPort.Some? &&
        match target.targetPort.value
        case IntVal(v) => v == p.port
        case StrVal(s) => s == p.name)
  }

  /** The service ports the endpoint selects, in order. */
  function SelectServicePorts(target: Endpoint, ports: seq<ServicePort>): (r: seq<ServicePort>)
    ensures forall p :: p in r <==> p in ports && SelectsServicePort(target, p)
    ensures |r| <= |ports|
    decreases |ports|
  {
    if ports == [] then []
    else
      var last := ports[|ports| - 1];
      SelectServicePorts(target, ports[..|ports| - 1]) + (if SelectsServicePort(target, last) then [last] else [])
  }

  /** An endpoint port belongs to a selected service port: by non-empty name, or by the target port. */
  predicate PortMatches(p: EndpointPort, s: ServicePort)
  {
    || (s.name != "" && p.name == s.name)
    || (s.targetPort.IntVal? && p.port == s.targetPort.intVal)
    || (s.targetPort.StrVal? && p.name == s.targetPort.strVal)
  }

  /** The inner loop's appends for one endpoint port and one service port (up to two). */
  function Hits(p: EndpointPort, s: ServicePort): (r: seq<int>)
    ensures forall x :: x in r <==> x == p.port && PortMatches(p, s)
  {
    (if s.name != "" && p.name == s.name then [p.port] else [])
    + (match s.targetPort
       case IntVal(v) => if p.port == v then [p.port] else []
       case StrVal(n) => if p.name == n then [p.port] else [])
  }

  predicate MatchesSome(p: EndpointPort, svcPorts: seq<ServicePort>)
  {
    exists j :: 0 <= j < |svcPorts| && PortMatches(p, svcPorts[j])
  }

  /** The appends for one endpoint port over every selected service port. */
  function HitsFor(p: EndpointPort, svcPorts: seq<ServicePort>): (r: seq<int>)
    ensures forall x :: x in r <==> x == p.port && MatchesSome(p, svcPorts)
    decreases |svcPorts|
  {
    if svcPorts == [] then []
    else
      var init := svcPorts[..|svcPorts| - 1];
      var r := HitsFor(p, init) + Hits(p, svcPorts[|svcPorts| - 1]);
      assert MatchesSome(p, svcPorts) <==> MatchesSome(p, init) || PortMatches(p, svcPorts[|svcPorts| - 1]) by {
        if MatchesSome(p, init) {
          var j :| 0 <= j < |init| && PortMatches(p, init[j]);
          assert svcPorts[j] == init[j];
        }
        if MatchesSome(p, svcPorts) {
          var j :| 0 <= j < |svcPorts| && PortMatches(p, svcPorts[j]);
          if j < |init| {
            assert init[j] == svcPorts[j];
          }
        }
      }
      r
  }

  /** Every append of the port-matching loop, duplicates included. */
  function CandidatePorts(ports: seq<EndpointPort>, svcPorts: seq<ServicePort>): (r: seq<int>)
    ensures forall x :: x in r <==> exists i :: 0 <= i < |ports| && ports[i].port == x && MatchesSome(ports[i], svcPorts)
    decreases |ports|
  {
    if ports == [] then []
    else
      var init := ports[..|ports| - 1];
      var last := ports[|ports| - 1];
      var r := CandidatePorts(init, svcPorts) + HitsFor(last, svcPorts);
      assert forall x :: x in r <==> exists i :: 0 <= i < |ports| && ports[i].port == x && MatchesSome(ports[i], svcPorts) by {
        forall x
          ensures x in r <==> exists i :: 0 <= i < |ports| && ports[i].port == x && MatchesSome(ports[i], svcPorts)
        {
          if x in CandidatePorts(init, svcPorts) {
            var i :| 0 <= i < |init| && init[i].port == x && MatchesSome(init[i], svcPorts);
            assert ports[i] == init[i];
          }
          if exists i :: 0 <= i < |ports| && ports[i].port == x && MatchesSome(ports[i], svcPorts) {
            var i :| 0 <= i < |ports| && ports[i].port == x && MatchesSome(ports[i], svcPorts);
            if i < |init| {
              assert init[i] == ports[i];
            }
          }
        }
      }
      r
  }

  /**
   * The ports of one subset that serve a selected service port, without
   * duplicates (`lo.Uniq`): a port is kept exactly when some endpoint port
   * with that number matches some selected service port.
   */
  function ActualPorts(ports: seq<EndpointPort>, svcPorts: seq<ServicePort>): (r: seq<int>)
    ensures NoDup(r)
    ensures InFirstOccurrenceOrder(r, CandidatePorts(ports, svcPorts))
  {
    Uniq(CandidatePorts(ports, svcPorts))
  }

  lemma ActualPortsMember(ports: seq<EndpointPort>, svcPorts: seq<ServicePort>, x: int)
    ensures x in ActualPorts(ports, svcPorts) <==>
            exists i :: 0 <= i < |ports| && ports[i].port == x && MatchesSome(ports[i], svcPorts)
  {
  }

  /** `Kind/Namespace/Name` of an address's target. */
  function FriendlyName(ref: ObjectReference): string
  {
    ref.kind + "/" + ref.namespace + "/" + ref.name
  }

  /** `fmt.Sprintf("%s:%d", ip, port)`. */
  function HostPort(ip: string, port: int): string
  {
    ip + ":" + FormatInt(port)
  }

  /** The address found for one endpoint address and one port, before scheme and path. */
  function Raw(a: EndpointAddress, port: int): Address
  {
    Address(HostPort(a.ip, port), FriendlyName(a.targetRef))
  }

  /** One address per (endpoint address, port) pair, addresses outermost. */
  function SubsetAddresses(addrs: seq<EndpointAddress>, ports: seq<int>): seq<Address>
    decreases |addrs|
  {
    if addrs == [] then []
    else SubsetAddresses(addrs[..|addrs| - 1], ports) + AddressesFor(addrs[|addrs| - 1], ports)
  }

  /** Every port for one endpoint address. */
  function AddressesFor(a: EndpointAddress, ports: seq<int>): (r: seq<Address>)
    ensures |r| == |ports| && forall j :: 0 <= j < |ports| ==> r[j] == Raw(a, ports[j])
  {
    seq(|ports|, j requires 0 <= j < |ports| => Raw(a, ports[j]))
  }

  /** One address per (address, port) pair. */
  lemma {:induction false} SubsetAddressesCount(addrs: seq<EndpointAddress>, ports: seq<int>)
    ensures |SubsetAddresses(addrs, ports)| == |addrs| * |ports|
    decreases |addrs|
  {
    if addrs != [] {
      SubsetAddressesCount(addrs[..|addrs| - 1], ports);
      assert |addrs| * |ports| == (|addrs| - 1) * |ports| + |ports|;
    }
  }

  /** Built from some address of `addrs` and some port of `ports`. */
  predicate PairOf(x: Address, addrs: seq<EndpointAddress>, ports: seq<int>)
  {
    exists a, p :: a in addrs && p in ports && x == Raw(a, p)
  }

  lemma {:induction false} SubsetAddressesMember(addrs: seq<EndpointAddress>, ports: seq<int>, x: Address)
    ensures x in SubsetAddresses(addrs, ports) <==> PairOf(x, addrs, ports)
    decreases |addrs|
  {
    if addrs != [] {
      var init, last := addrs[..|addrs| - 1], addrs[|addrs| - 1];
      SubsetAddressesMember(init, ports, x);
      var tail := AddressesFor(last, ports);
      if x in tail {
        var j :| 0 <= j < |ports| && tail[j] == x;
        assert last in addrs && ports[j] in ports && x == Raw(last, ports[j]);
      }
      if PairOf(x, init, ports) {
        var a, p :| a in init && p in ports && x == Raw(a, p);
        assert a in addrs;
      }
    }
  }

  /** The addresses of every subset, subsets in order, before scheme and path. */
  function RawAddresses(subsets: seq<EndpointSubset>, svcPorts: seq<ServicePort>): seq<Address>
    decreases |subsets|
  {
    if subsets == [] then []
    else
      var s := subsets[|subsets| - 1];
      RawAddresses(subsets[..|subsets| - 1], svcPorts) + SubsetAddresses(s.addresses, ActualPorts(s.ports, svcPorts))
  }

  /** Found in some subset: an address of it and one of its actual ports. */
  predicate FoundIn(x: Address, subsets: seq<EndpointSubset>, svcPorts: seq<ServicePort>)
  {
    exists s :: s in subsets && PairOf(x, s.addresses, ActualPorts(s.ports, svcPorts))
  }

  lemma {:induction false} RawAddressesMember(subsets: seq<EndpointSubset>, svcPorts: seq<ServicePort>, x: Address)
    ensures x in RawAddresses(subsets, svcPorts) <==> FoundIn(x, subsets, svcPorts)
    decreases |subsets|
  {
    if subsets != [] {
      var init, last := subsets[..|subsets| - 1], subsets[|subsets| - 1];
      assert subsets == init + [last];
      RawAddressesMember(init, svcPorts, x);
      SubsetAddressesMember(last.addresses, ActualPorts(last.ports, svcPorts), x);
      if FoundIn(x, init, svcPorts) {
        var s :| s in init && PairOf(x, s.addresses, ActualPorts(s.ports, svcPorts));
        assert s in subsets;
      }
      if FoundIn(x, subsets, svcPorts) {
        var s :| s in subsets && PairOf(x, s.addresses, ActualPorts(s.ports, svcPorts));
        if s != last {
          assert s in init;
        }
      }
    }
  }

  /** The scheme, trimmed, `http` when blank. */
  function SchemeOf(target: Endpoint): (s: string)
    ensures s != ""
  {
    var s := TrimSpace(target.scheme);
    if s == "" then "http" else s
  }

  /** `scheme://addr`, then `/path/debug/pprof` only for a non-blank path. */
  function WithSchemePath(target: Endpoint, addr: string): string
  {
    var u := SchemeOf(target) + "://" + addr;
    var path := TrimSpace(target.path);
    if path != "" then u + "/" + path + "/debug/pprof" else u
  }

  function Finish(target: Endpoint, raw: seq<Address>): (r: seq<Address>)
    ensures |r| == |raw|
  {
    seq(|raw|, i requires 0 <= i < |raw| => Address(WithSchemePath(target, raw[i].addr), raw[i].friendlyName))
  }

  /** `endpSubsetToAddresses`. */
  function EndpSubsetToAddresses(e: ServiceAndEndpoint, target: Endpoint): (r: seq<Address>)
    ensures |r| == |RawAddresses(e.subsets, SelectServicePorts(target, e.servicePorts))|
  {
    Finish(target, RawAddresses(e.subsets, SelectServicePorts(target, e.servicePorts)))
  }

  /** The scrape address for one endpoint address and port. */
  function Scrape(target: Endpoint, a: EndpointAddress, port: int): Address
  {
    Address(WithSchemePath(target, HostPort(a.ip, port)), FriendlyName(a.targetRef))
  }

  /**
   * Exactly the addresses of the service's endpoints on the ports that serve
   * a selected service port, each with the monitor's scheme and path.
   */
  lemma EndpSubsetToAddressesMembers(e: ServiceAndEndpoint, target: Endpoint, x: Address)
    ensures x in EndpSubsetToAddresses(e, target) <==>
              exists s, a, p :: s in e.subsets && a in s.addresses
                && p in ActualPorts(s.ports, SelectServicePorts(target, e.servicePorts)) && x == Scrape(target, a, p)
  {
    var svc := SelectServicePorts(target, e.servicePorts);
    if x in EndpSubsetToAddresses(e, target) {
      var s, a, p := EndpSubsetToAddressesFrom(e, target, x);
    }
    if exists s, a, p :: s in e.subsets && a in s.addresses && p in ActualPorts(s.ports, svc) && x == Scrape(target, a, p) {
      var s, a, p :| s in e.subsets && a in s.addresses && p in ActualPorts(s.ports, svc) && x == Scrape(target, a, p);
      EndpSubsetToAddressesHas(e, target, s, a, p);
    }
  }

  lemma EndpSubsetToAddressesFrom(e: ServiceAndEndpoint, target: Endpoint, x: Address)
    returns (s: EndpointSubset, a: EndpointAddress, p: int)
    requires x in EndpSubsetToAddresses(e, target)
    ensures s in e.subsets && a in s.addresses
    ensures p in ActualPorts(s.ports, SelectServicePorts(target, e.servicePorts)) && x == Scrape(target, a, p)
  {
    var svc := SelectServicePorts(target, e.servicePorts);
    var raw := RawAddresses(e.subsets, svc);
    var r := EndpSubsetToAddresses(e, target);
    var i :| 0 <= i < |r| && r[i] == x;
    RawAddressesMember(e.subsets, svc, raw[i]);
    assert raw[i] in raw;
    s :| s in e.subsets && PairOf(raw[i], s.addresses, ActualPorts(s.ports, svc));
    a, p :| a in s.addresses && p in ActualPorts(s.ports, svc) && raw[i] == Raw(a, p);
  }

  lemma EndpSubsetToAddressesHas(e: ServiceAndEndpoint, target: Endpoint, s: EndpointSubset, a: EndpointAddress, p: int)
    requires s in e.subsets && a in s.addresses
    requires p in ActualPorts(s.ports, SelectServicePorts(target, e.servicePorts))
    ensures Scrape(target, a, p) in EndpSubsetToAddresses(e, target)
  {
    var svc := SelectServicePorts(target, e.servicePorts);
    var raw := RawAddresses(e.subsets, svc);
    assert PairOf(Raw(a, p), s.addresses, ActualPorts(s.ports, svc));
    RawAddressesMember(e.subsets, svc, Raw(a, p));
    var i :| 0 <= i < |raw| && raw[i] == Raw(a, p);
    assert EndpSubsetToAddresses(e, target)[i] == Scrape(target, a, p);
  }

  /** A blank scheme scrapes over http; a blank path adds nothing after `host:port`. */
  lemma ScrapeDefaults(target: Endpoint, addr: string)
    requires TrimSpace(target.scheme) == "" && TrimSpace(target.path) == ""
    ensures WithSchemePath(target, addr) == "http" + "://" + addr
  {
  }

  // ---------------------------------------------------------------------------
  // The tail of OnPprofMonitorChange
  // ---------------------------------------------------------------------------

  /** What `endpSelectorToList` returned for one monitor, with that monitor's endpoint. */
  datatype MonitorTargets = MonitorTargets(endpoint: Endpoint, found: seq<ServiceAndEndpoint>)

  function TargetAddresses(endpoint: Endpoint, found: seq<ServiceAndEndpoint>): seq<Address>
    decreases |found|
  {
    if found == [] then []
    else TargetAddresses(endpoint, found[..|found| - 1]) + EndpSubsetToAddresses(found[|found| - 1], endpoint)
  }

  /** Every address of every monitor, before sorting. */
  function AllAddresses(mons: seq<MonitorTargets>): seq<Address>
    decreases |mons|
  {
    if mons == [] then []
    else AllAddresses(mons[..|mons| - 1]) + TargetAddresses(mons[|mons| - 1].endpoint, mons[|mons| - 1].found)
  }

  /** Sampling every 5 seconds of CPU profile and nothing else. */
  const ProfileEvery5: Sampling := Sampling(None, None, None, None, None, Some(5), None, None, "")

  /** The monitor the controller configures for one address. */
  function MonitorFor(a: Address): MonitorConfig
  {
    MonitorConfig(a.friendlyName, a.addr, map[], ProfileEvery5)
  }

  /** The (address, name) pairs of a list of monitors. */
  function AddressesOf(ms: seq<MonitorConfig>): (r: seq<Address>)
    ensures |r| == |ms|
  {
    seq(|ms|, i requires 0 <= i < |ms| => Address(ms[i].endpoint, ms[i].name))
  }

  function FriendlyNameOf(a: Address): string { a.friendlyName }
  function NameOf(m: MonitorConfig): string { m.name }

  /**
   * The tail of `OnPprofMonitorChange`: the addresses sorted by friendly
   * name, one monitor each, sampling the CPU profile every 5 seconds, and
   * self-telemetry on port 6060.
   */
  method ConfigFromAddresses(all: seq<Address>) returns (cfg: CollectorConfig)
    ensures cfg.selfTelemetry == Some(SelfTelemetryConfig(6060, 0))
    ensures multiset(AddressesOf(cfg.monitors)) == multiset(all)
    ensures SortedBy(cfg.monitors, NameOf)
    ensures forall m :: m in cfg.monitors ==> m.labels == map[] && m.sampling == ProfileEvery5
  {
    var a := new Address[|all|](i requires 0 <= i < |all| => all[i]);
    assert a[..] == all;
    SortBy(a, FriendlyNameOf);
    var monitors: seq<MonitorConfig> := [];
    for i := 0 to a.Length
      invariant |monitors| == i
      invariant forall k :: 0 <= k < i ==> monitors[k] == MonitorFor(a[k])
    {
      monitors := monitors + [MonitorFor(a[i])];
    }
    assert AddressesOf(monitors) == a[..];
    assert forall k :: 0 <= k < |monitors| ==> NameOf(monitors[k]) == FriendlyNameOf(a[..][k]);
    cfg := CollectorConfig(Some(SelfTelemetryConfig(6060, 0)), monitors);
  }

  /** The addresses of every service and endpoints a monitor selected, in order. */
  method GatherTargets(endpoint: Endpoint, found: seq<ServiceAndEndpoint>) returns (all: seq<Address>)
    ensures all == TargetAddresses(endpoint, found)
  {
    all := [];
    for j := 0 to |found|
      invariant all == TargetAddresses(endpoint, found[..j])
    {
      assert found[..j + 1][..j] == found[..j];
      all := all + EndpSubsetToAddresses(found[j], endpoint);
    }
    assert found[..|found|] == found;
  }

  /** `OnPprofMonitorChange` up to applying the objects: gather, sort, configure. */
  method ConfigFromMonitors(mons: seq<MonitorTargets>) returns (cfg: CollectorConfig)
    ensures cfg.selfTelemetry == Some(SelfTelemetryConfig(6060, 0))
    ensures multiset(AddressesOf(cfg.monitors)) == multiset(AllAddresses(mons))
    ensures SortedBy(cfg.monitors, NameOf)
    ensures forall m :: m in cfg.monitors ==> m.labels == map[] && m.sampling == ProfileEvery5
  {
    var all: seq<Address> := [];
    for i := 0 to |mons|
      invariant all == AllAddresses(mons[..i])
    {
      assert mons[..i + 1][..i] == mons[..i];
      var more := GatherTargets(mons[i].endpoint, mons[i].found);
      all := all + more;
    }
    assert mons[..|mons|] == mons;
    cfg := ConfigFromAddresses(all);
  }

  /**
   * A configured monitor issues one request only: the CPU profile over
   * 5 seconds, at its endpoint followed by `/debug/pprof/profile`. For a
   * monitor whose path is not blank the endpoint already ends in
   * `/debug/pprof`, so the request path holds it twice.
   */
  lemma MonitorForRequests(a: Address)
    requires Monitor.ValidUrl(a.addr)
    ensures Monitor.MutexOk(MonitorFor(a).sampling)
    ensures Monitor.RequestsFromMonitorConfig(MonitorFor(a))
            == Ok([Monitor.Request(a.addr + "/debug/pprof/profile?seconds=5", "profile")])
  {
    var m := MonitorFor(a);
    var plan := Monitor.Plan(m.sampling);
    assert forall j :: 0 <= j < |plan| && j != 5 ==> plan[j].1.None?;
    Monitor.ConstructRequestErr(a.addr, "profile", 5);
    Monitor.ProfileRequestUrl(a.addr);
    Monitor.BuildRequestsOne(m.endpoint, plan, 5, Monitor.Request(a.addr + "/debug/pprof/profile?seconds=5", "profile"));
  }

  /** The scrape URL of a monitor with a non-blank path holds `/debug/pprof` twice. */
  lemma ScrapeWithPath(target: Endpoint, a: EndpointAddress, port: int)
    requires TrimSpace(target.path) != ""
    requires Monitor.ValidUrl(Scrape(target, a, port).addr)
    ensures Monitor.RequestsFromMonitorConfig(MonitorFor(Scrape(target, a, port)))
            == Ok([Monitor.Request(SchemeOf(target) + "://" + HostPort(a.ip, port) + "/" + TrimSpace(target.path)
                                   + "/debug/pprof" + "/debug/pprof/profile?seconds=5", "profile")])
  {
    MonitorForRequests(Scrape(target, a, port));
    ScrapeUrl(target, a, port);
  }

  lemma ScrapeUrl(target: Endpoint, a: EndpointAddress, port: int)
    requires TrimSpace(target.path) != ""
    ensures Scrape(target, a, port).addr + "/debug/pprof/profile?seconds=5"
            == SchemeOf(target) + "://" + HostPort(a.ip, port) + "/" + TrimSpace(target.path)
               + "/debug/pprof" + "/debug/pprof/profile?seconds=5"
  {
    var u := SchemeOf(target) + "://" + HostPort(a.ip, port) + "/" + TrimSpace(target.path);
    assert Scrape(target, a, port).addr == u + "/debug/pprof";
  }
}
