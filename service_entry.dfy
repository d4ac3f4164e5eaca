/**
 * Service entries (networking v1alpha3): hosts and addresses of a service
 * outside the registry, its ports, and how its endpoints are resolved:
 * not at all, from a static list, or through DNS.
 */
module ServiceEntries {
  import opened Wrappers
  import opened Errors
  import opened Domains
  import opened Messages
  import opened Primitives
  import opened Collections

  /** The address prefix that marks a Unix domain socket. */
  const UnixAddressPrefix := "unix://"

  const CastServiceEntry := "cannot cast to service entry"
  const NoEntryHosts := "service entry must have at least one host"
  const InvalidEntryHost := "invalid host"
  const DuplicatePortName := "service entry port name already defined"
  const DuplicatePortNumber := "service entry port already defined"
  const EndpointsWithNone := "no endpoints should be provided for discovery type none"
  const StaticNeedsEndpoints := "endpoints must be provided if service entry discovery mode is static"
  const UnixEndpointWithPorts := "unix endpoint must not include ports"
  const EndpointPortUndefined := "endpoint port is not defined by the service entry"
  const UnixNeedsOnePort := "exactly 1 service port required for unix endpoints"
  const HostsMustBeFQDN := "hosts must be FQDN if no endpoints are provided for discovery mode DNS"
  const UnsupportedResolution := "unsupported resolution type"

  // ---------------------------------------------------------------- hosts

  /** A host of an entry: neither "*" nor a short name (it has a dot), and a wildcard domain. */
  predicate EntryHostOk(host: string)
  {
    host != "*" && '.' in host && IsWildcardDomain(host)
  }

  method EntryHostsErrors(hosts: seq<string>) returns (r: Error)
    ensures r == [] <==> forall i :: 0 <= i < |hosts| ==> EntryHostOk(hosts[i])
  {
    r := [];
    for i := 0 to |hosts|
      invariant r == [] <==> forall j :: 0 <= j < i ==> EntryHostOk(hosts[j])
    {
      if hosts[i] == "*" || '.' !in hosts[i] {
        r := r + [InvalidEntryHost];
      } else {
        var err := ValidateWildcardDomain(hosts[i]);
        r := r + err;
      }
    }
  }

  // ---------------------------------------------------------------- ports

  function PortNames(ports: seq<Port>): (names: seq<string>)
    ensures |names| == |ports| && forall i :: 0 <= i < |ports| ==> names[i] == ports[i].name
  {
    seq(|ports|, i requires 0 <= i < |ports| => ports[i].name)
  }

  function PortNumbers(ports: seq<Port>): (numbers: seq<int>)
    ensures |numbers| == |ports| && forall i :: 0 <= i < |ports| ==> numbers[i] == ports[i].number
  {
    seq(|ports|, i requires 0 <= i < |ports| => ports[i].number)
  }

  /** The duplicate errors of one port, given whether its name and its number were seen before. */
  function PortRepeatErrors(nameSeen: bool, numberSeen: bool): (e: Error)
    ensures Count(e, DuplicatePortName) == (if nameSeen then 1 else 0)
    ensures Count(e, DuplicatePortNumber) == (if numberSeen then 1 else 0)
    ensures e == [] <==> !nameSeen && !numberSeen
  {
    var a: Error := if nameSeen then [DuplicatePortName] else [];
    var b: Error := if numberSeen then [DuplicatePortNumber] else [];
    CountConcat(a, b, DuplicatePortName);
    CountConcat(a, b, DuplicatePortNumber);
    a + b
  }

  /**
   * The duplicate loop of ValidateServiceEntry: one error per port whose
   * name repeats an earlier one and one per port whose number does; it
   * also returns the set of port names, which the endpoint checks consult.
   */
  method PortRepeatsErrors(ports: seq<Port>) returns (e: Error, names: set<string>)
    ensures Count(e, DuplicatePortName) == Repeats(PortNames(ports))
    ensures Count(e, DuplicatePortNumber) == Repeats(PortNumbers(ports))
    ensures e == [] <==> Distinct(PortNames(ports)) && Distinct(PortNumbers(ports))
    ensures names == Elems(PortNames(ports))
  {
    var ns := PortNames(ports);
    var nums := PortNumbers(ports);
    e := [];
    names := {};
    var numbers: set<int> := {};
    for i := 0 to |ports|
      invariant names == Elems(ns[..i]) && numbers == Elems(nums[..i])
      invariant Count(e, DuplicatePortName) == Repeats(ns[..i])
      invariant Count(e, DuplicatePortNumber) == Repeats(nums[..i])
      invariant e == [] <==> Repeats(ns[..i]) == 0 && Repeats(nums[..i]) == 0
    {
      RepeatsStep(ns, i);
      RepeatsStep(nums, i);
      var err := PortRepeatErrors(ports[i].name in names, ports[i].number in numbers);
      CountConcat(e, err, DuplicatePortName);
      CountConcat(e, err, DuplicatePortNumber);
      e := e + err;
      names := names + {ports[i].name};
      numbers := numbers + {ports[i].number};
    }
    assert ns[..|ports|] == ns && nums[..|ports|] == nums;
    RepeatsDistinct(ns);
    RepeatsDistinct(nums);
  }

  /** A service port: a label as name, a known protocol, a valid number. */
  predicate EntryPortOk(env: Env, p: Port)
  {
    IsDNS1123Label(p.name) && p.protocol in env.knownProtocols && IsValidPort(p.number)
  }

  function EntryPortErrors(env: Env, p: Port): (e: Error)
    ensures e == [] <==> EntryPortOk(env, p)
    ensures |e| <= 3
  {
    ValidatePortName(p.name) + ValidateProtocol(env, p.protocol) + ValidatePort(p.number)
  }

  // ------------------------------------------------------------ endpoints

  predicate IsUnixAddress(addr: string)
  {
    |addr| >= |UnixAddressPrefix| && addr[..|UnixAddressPrefix|] == UnixAddressPrefix
  }

  /**
   * A static endpoint: a Unix socket path without ports, or an IPv4
   * address whose port names are ports of the entry; valid labels either way.
   */
  predicate StaticEndpointOk(names: set<string>, ep: Endpoint)
  {
    (if IsUnixAddress(ep.address)
     then ValidateUnixAddress(ep.address[|UnixAddressPrefix|..]) == [] && |ep.ports| == 0
     else IsIPv4(ep.address) && forall k :: k in ep.ports ==> k in names)
    && ValidTags(ep.labels)
  }

  method StaticEndpointErrors(names: set<string>, ep: Endpoint) returns (e: Error)
    ensures e == [] <==> StaticEndpointOk(names, ep)
    ensures IsUnixAddress(ep.address) && |ep.ports| > 0 ==> UnixEndpointWithPorts in e
  {
    if IsUnixAddress(ep.address) {
      e := ValidateUnixAddress(ep.address[|UnixAddressPrefix|..]);
      if |ep.ports| != 0 {
        e := e + [UnixEndpointWithPorts];
      }
    } else {
      var err := CheckEachEntry(ep.ports, (k: string, v: int) => if k in names then [] else [EndpointPortUndefined]);
      e := ValidateIPv4Address(ep.address) + err;
    }
    var err := ValidateLabels(ep.labels);
    e := e + err;
  }

  predicate StaticOk(entry: ServiceEntry, names: set<string>)
  {
    && |entry.endpoints| > 0
    && (forall i :: 0 <= i < |entry.endpoints| ==> StaticEndpointOk(names, entry.endpoints[i]))
    && ((exists i :: 0 <= i < |entry.endpoints| && IsUnixAddress(entry.endpoints[i].address)) ==> |entry.ports| == 1)
  }

  /** STATIC resolution: endpoints are required, and Unix endpoints need exactly one service port. */
  method StaticErrors(entry: ServiceEntry, names: set<string>) returns (e: Error)
    ensures e == [] <==> StaticOk(entry, names)
  {
    e := if |entry.endpoints| == 0 then [StaticNeedsEndpoints] else [];
    var unix := false;
    var eps := entry.endpoints;
    for i := 0 to |eps|
      invariant e == [] <==> |eps| > 0 && forall j :: 0 <= j < i ==> StaticEndpointOk(names, eps[j])
      invariant unix <==> exists j :: 0 <= j < i && IsUnixAddress(eps[j].address)
    {
      if IsUnixAddress(eps[i].address) {
        unix := true;
      }
      var err := StaticEndpointErrors(names, eps[i]);
      e := e + err;
    }
    if unix && |entry.ports| != 1 {
      e := e + [UnixNeedsOnePort];
    }
  }

  /** A port of a DNS endpoint: a port of the entry, a label as name, a valid number. */
  function DnsEndpointPortErrors(names: set<string>, name: string, port: int): (e: Error)
    ensures e == [] <==> name in names && IsDNS1123Label(name) && IsValidPort(port)
  {
    (if name in names then [] else [EndpointPortUndefined]) + ValidatePortName(name) + ValidatePort(port)
  }

  predicate DnsEndpointOk(names: set<string>, ep: Endpoint)
  {
    && IsFQDN(ep.address)
    && ValidTags(ep.labels)
    && (forall k :: k in ep.ports ==> k in names && IsDNS1123Label(k) && IsValidPort(ep.ports[k]))
  }

  method DnsEndpointErrors(names: set<string>, ep: Endpoint) returns (e: Error)
    ensures e == [] <==> DnsEndpointOk(names, ep)
  {
    e := ValidateFQDN(ep.address);
    var err := ValidateLabels(ep.labels);
    e := e + err;
    err := CheckEachEntry(ep.ports, (k: string, v: int) => DnsEndpointPortErrors(names, k, v));
    e := e + err;
  }

  predicate DnsOk(entry: ServiceEntry, names: set<string>)
  {
    && (|entry.endpoints| == 0 ==> forall i :: 0 <= i < |entry.hosts| ==> IsFQDN(entry.hosts[i]))
    && (forall i :: 0 <= i < |entry.endpoints| ==> DnsEndpointOk(names, entry.endpoints[i]))
  }

  /** DNS resolution: without endpoints the hosts themselves must be fully qualified. */
  method DnsErrors(entry: ServiceEntry, names: set<string>) returns (e: Error)
    ensures e == [] <==> DnsOk(entry, names)
  {
    e := [];
    if |entry.endpoints| == 0 {
      for i := 0 to |entry.hosts|
        invariant e == [] <==> forall j :: 0 <= j < i ==> IsFQDN(entry.hosts[j])
      {
        var err := ValidateFQDN(entry.hosts[i]);
        if err != [] {
          e := e + [HostsMustBeFQDN];
        }
      }
    }
    var eps := entry.endpoints;
    var epErrs: Error := [];
    for i := 0 to |eps|
      invariant epErrs == [] <==> forall j :: 0 <= j < i ==> DnsEndpointOk(names, eps[j])
    {
      var err := DnsEndpointErrors(names, eps[i]);
      epErrs := epErrs + err;
    }
    e := e + epErrs;
  }

  /** A wildcard host is never fully qualified, so DNS resolution without endpoints refuses it. */
  lemma WildcardHostNeedsEndpoints(host: string)
    requires |host| > 0 && host[0] == '*'
    ensures !IsFQDN(host)
  {
    if IsFQDN(host) {
      FQDNStartsAlphaNum(host);
    }
  }

  predicate ResolutionOk(entry: ServiceEntry, names: set<string>)
  {
    match entry.resolution
    case ResolutionNone => |entry.endpoints| == 0
    case ResolutionStatic => StaticOk(entry, names)
    case ResolutionDns => DnsOk(entry, names)
    case ResolutionOther(_) => false
  }

  method ResolutionErrors(entry: ServiceEntry, names: set<string>) returns (e: Error)
    ensures e == [] <==> ResolutionOk(entry, names)
    ensures entry.resolution.ResolutionOther? ==> e == [UnsupportedResolution]
  {
    match entry.resolution
    case ResolutionNone =>
      e := if |entry.endpoints| != 0 then [EndpointsWithNone] else [];
    case ResolutionStatic =>
      e := StaticErrors(entry, names);
    case ResolutionDns =>
      e := DnsErrors(entry, names);
    case ResolutionOther(_) =>
      e := [UnsupportedResolution];
  }

  // --------------------------------------------------------- the resource

  predicate ServiceEntryOk(env: Env, entry: ServiceEntry)
  {
    && |entry.hosts| > 0
    && (forall i :: 0 <= i < |entry.hosts| ==> EntryHostOk(entry.hosts[i]))
    && (forall i :: 0 <= i < |entry.addresses| ==> IsCIDR(entry.addresses[i]))
    && Distinct(PortNames(entry.ports))
    && Distinct(PortNumbers(entry.ports))
    && ResolutionOk(entry, Elems(PortNames(entry.ports)))
    && (forall i :: 0 <= i < |entry.ports| ==> EntryPortOk(env, entry.ports[i]))
  }

  /** The final port loop of ValidateServiceEntry. */
  method EntryPortsErrors(env: Env, ports: seq<Port>) returns (r: Error)
    ensures r == [] <==> forall i :: 0 <= i < |ports| ==> EntryPortOk(env, ports[i])
  {
    r := [];
    for i := 0 to |ports|
      invariant r == [] <==> forall j :: 0 <= j < i ==> EntryPortOk(env, ports[j])
    {
      r := r + EntryPortErrors(env, ports[i]);
    }
  }

  /** The checks of ValidateServiceEntry before its resolution switch. */
  method EntryHeadErrors(entry: ServiceEntry) returns (r: Error)
    ensures r == [] <==>
      && |entry.hosts| > 0
      && (forall i :: 0 <= i < |entry.hosts| ==> EntryHostOk(entry.hosts[i]))
      && (forall i :: 0 <= i < |entry.addresses| ==> IsCIDR(entry.addresses[i]))
  {
    r := if |entry.hosts| == 0 then [NoEntryHosts] else [];
    var err := EntryHostsErrors(entry.hosts);
    r := r + err;
    err := CheckEach(entry.addresses, ValidateCIDR);
    r := r + err;
  }

  /**
   * ValidateServiceEntry: nil exactly for an entry with valid hosts and
   * addresses, distinct port names and numbers, valid ports, and endpoints
   * that fit its resolution mode.
   */
  method ValidateServiceEntry(env: Env, msg: ConfigMessage) returns (r: Error)
    ensures !msg.ServiceEntryMsg? ==> r == [CastServiceEntry]
    ensures msg.ServiceEntryMsg? ==> (r == [] <==> ServiceEntryOk(env, msg.serviceEntry))
  {
    if !msg.ServiceEntryMsg? {
      return [CastServiceEntry];
    }
    var entry := msg.serviceEntry;
    var head := EntryHeadErrors(entry);
    var repeats, names := PortRepeatsErrors(entry.ports);
    var resolution := ResolutionErrors(entry, names);
    var ports := EntryPortsErrors(env, entry.ports);
    r := head + repeats + resolution + ports;
  }
}
