/**
 * Mesh-wide and proxy configuration: network addresses of the form
 * host:port, the durations of the proxy's lifecycle, ports, and the
 * authentication policy of the control plane.
 */
module Mesh {
  import opened Wrappers
  import opened Errors
  import opened Durations
  import opened Domains
  import opened Messages
  import opened Primitives

  const SplitFailed := "unable to split address"
  const PortNotNumber := "port is not a number"
  const NotHostOrIP := "not a valid hostname or an IP address"
  const ConfigPathRequired := "config path must be set"
  const BinaryPathRequired := "binary path must be set"
  const ServiceClusterRequired := "service cluster must be set"
  const DiscoveryAddressRequired := "discovery address must be set to the proxy discovery service"
  const UnknownControlPlaneAuth := "unrecognized control plane auth policy"
  const UnknownAuthPolicy := "unrecognized auth policy"
  const MissingDefaultConfig := "missing default config"

  // ------------------------------------------------------- address parsing

  /** The index of the first `c` in `s`. */
  function IndexOf(s: string, c: char): (r: Option<nat>)
    ensures r.None? <==> c !in s
    ensures r.Some? ==> r.value < |s| && s[r.value] == c && c !in s[..r.value]
  {
    if |s| == 0 then None
    else if s[0] == c then Some(0)
    else match IndexOf(s[1..], c)
      case None => None
      case Some(i) =>
        assert s[..i + 1] == [s[0]] + s[1..][..i];
        Some(i + 1)
  }

  /** The index of the last `c` in `s`. */
  function LastIndexOf(s: string, c: char): (r: Option<nat>)
    ensures r.None? <==> c !in s
    ensures r.Some? ==> r.value < |s| && s[r.value] == c && c !in s[r.value + 1..]
  {
    if |s| == 0 then None
    else if s[|s| - 1] == c then Some(|s| - 1)
    else
      var init := s[..|s| - 1];
      assert s == init + [s[|s| - 1]];
      match LastIndexOf(init, c)
      case None => None
      case Some(i) =>
        assert s[i + 1..] == init[i + 1..] + [s[|s| - 1]];
        Some(i)
  }

  datatype HostPort = HostPort(host: string, port: string)

  /**
   * net.SplitHostPort: the port is what follows the last colon. A host in
   * square brackets must close its bracket right before that colon and may
   * hold colons; an unbracketed host may not. No bracket may appear
   * anywhere else.
   */
  function SplitHostPort(s: string): (r: Option<HostPort>)
    ensures r.Some? ==> ':' !in r.value.port && '[' !in r.value.host && ']' !in r.value.host
  {
    match LastIndexOf(s, ':')
    case None => None
    case Some(i) =>
      if s[0] == '[' then
        match IndexOf(s, ']')
        case None => None
        case Some(end) =>
          if end + 1 != i then None
          else if '[' in s[1..] || ']' in s[end + 1..] then None
          else Some(HostPort(s[1..end], s[i + 1..]))
      else
        if ':' in s[..i] then None
        else if '[' in s || ']' in s then None
        else Some(HostPort(s[..i], s[i + 1..]))
  }

  /** net.JoinHostPort: a host holding a colon is put in square brackets. */
  function JoinHostPort(host: string, port: string): string
  {
    if ':' in host then "[" + host + "]:" + port else host + ":" + port
  }

  /** A `c` with no other `c` after it is the last one. */
  lemma LastIndexAt(s: string, c: char, i: nat)
    requires i < |s| && s[i] == c && c !in s[i + 1..]
    ensures LastIndexOf(s, c) == Some(i)
  {
  }

  /** A `c` with no other `c` before it is the first one. */
  lemma IndexAt(s: string, c: char, i: nat)
    requires i < |s| && s[i] == c && c !in s[..i]
    ensures IndexOf(s, c) == Some(i)
  {
  }

  /** A bracketed host splits back into the host inside the brackets and the port. */
  lemma SplitBracketed(host: string, port: string)
    requires '[' !in host && ']' !in host
    requires ':' !in port && '[' !in port && ']' !in port
    ensures SplitHostPort("[" + host + "]:" + port) == Some(HostPort(host, port))
  {
    var s := "[" + host + "]:" + port;
    var end := |host| + 1;
    assert s[1..] == host + "]:" + port;
    assert s[end + 1..] == ":" + port;
    assert s[end + 2..] == port;
    assert s[..end] == "[" + host;
    assert s[1..end] == host;
    LastIndexAt(s, ':', end + 1);
    IndexAt(s, ']', end);
  }

  /** An unbracketed host splits back into the host before the colon and the port. */
  lemma SplitPlain(host: string, port: string)
    requires '[' !in host && ']' !in host && ':' !in host
    requires ':' !in port && '[' !in port && ']' !in port
    ensures SplitHostPort(host + ":" + port) == Some(HostPort(host, port))
  {
    var s := host + ":" + port;
    var i := |host|;
    assert s[..i] == host;
    assert s[i + 1..] == port;
    LastIndexAt(s, ':', i);
    assert s[0] != '[' by {
      if |host| > 0 {
        assert s[0] == host[0];
      }
    }
    assert '[' !in s && ']' !in s by {
      assert forall k :: 0 <= k < |s| ==> s[k] == (if k < i then host[k] else if k == i then ':' else port[k - i - 1]);
    }
  }

  /** Splitting a joined address gives back its host and port. */
  lemma SplitJoinHostPort(host: string, port: string)
    requires '[' !in host && ']' !in host
    requires ':' !in port && '[' !in port && ']' !in port
    ensures SplitHostPort(JoinHostPort(host, port)) == Some(HostPort(host, port))
  {
    if ':' in host {
      SplitBracketed(host, port);
    } else {
      SplitPlain(host, port);
    }
  }

  /** strconv.Atoi: an optional sign followed by at least one decimal digit. */
  function Atoi(s: string): (r: Option<int>)
    ensures r.Some? <==>
      (|s| >= 1 && AllDigits(s)) || (|s| >= 2 && (s[0] == '+' || s[0] == '-') && AllDigits(s[1..]))
    ensures |s| >= 1 && AllDigits(s) ==> r == Some(DecimalValue(s))
    ensures |s| >= 2 && s[0] == '+' && AllDigits(s[1..]) ==> r == Some(DecimalValue(s[1..]))
    ensures |s| >= 2 && s[0] == '-' && AllDigits(s[1..]) ==> r == Some(-(DecimalValue(s[1..]) as int))
  {
    if |s| >= 2 && (s[0] == '+' || s[0] == '-') && AllDigits(s[1..]) then
      var n: int := DecimalValue(s[1..]);
      Some(if s[0] == '-' then -n else n)
    else if |s| >= 1 && AllDigits(s) then Some(DecimalValue(s))
    else None
  }

  /** net.ParseIP, on the dotted-quad addresses this model knows. */
  predicate ParseIP(host: string)
  {
    IsIPv4(host)
  }

  /** A proxy address: it splits into host and port, the port is a number in 1..65535, and the host is a name or an IP. */
  predicate ProxyAddressOk(addr: string)
  {
    var hp := SplitHostPort(addr);
    && hp.Some?
    && Atoi(hp.value.port).Some?
    && IsValidPort(Atoi(hp.value.port).value)
    && (IsFQDN(hp.value.host) || ParseIP(hp.value.host))
  }

  /** ValidateProxyAddress: the first failing step is the one error reported. */
  method ValidateProxyAddress(addr: string) returns (r: Error)
    ensures |r| <= 1
    ensures r == [] <==> ProxyAddressOk(addr)
    ensures SplitHostPort(addr).None? ==> r == [SplitFailed]
  {
    var hp := SplitHostPort(addr);
    if hp.None? {
      return [SplitFailed];
    }
    var port := Atoi(hp.value.port);
    if port.None? {
      return [PortNotNumber];
    }
    r := ValidatePort(port.value);
    if r != [] {
      return;
    }
    var err := ValidateFQDN(hp.value.host);
    if err != [] && !ParseIP(hp.value.host) {
      return [NotHostOrIP];
    }
  }

  /** Joining a host name and a decimal port in range gives an accepted address. */
  lemma NamedAddressAccepted(host: string, port: string)
    requires IsFQDN(host) && '[' !in host && ']' !in host && ':' !in host
    requires |port| >= 1 && AllDigits(port) && IsValidPort(DecimalValue(port))
    ensures ProxyAddressOk(host + ":" + port)
  {
    SplitJoinHostPort(host, port);
    assert JoinHostPort(host, port) == host + ":" + port;
  }

  // --------------------------------------------------------- proxy config

  predicate RefreshDelayOk(d: Option<Duration>)
  {
    IsValidDuration(d) && DiscoveryRefreshDelayMin <= Decode(d).value <= DiscoveryRefreshDelayMax
  }

  predicate ConnectTimeoutOk(d: Option<Duration>)
  {
    IsValidDuration(d) && ConnectTimeoutMin <= Decode(d).value <= ConnectTimeoutMax
  }

  predicate ParentAndDrainOk(drain: Option<Duration>, parent: Option<Duration>)
  {
    IsValidDuration(drain) && IsValidDuration(parent) && ParentAndDrainCompatible(Decode(drain).value, Decode(parent).value)
  }

  predicate KnownAuthPolicy(p: AuthPolicy)
  {
    p == AuthNone || p == AuthMutualTls
  }

  /**
   * A valid proxy configuration: paths and cluster set, compatible drain
   * and parent-shutdown durations, refresh delay and connect timeout in
   * their windows, a mandatory discovery address, optional Zipkin and
   * statsd addresses, an admin port, and a known control-plane policy.
   */
  predicate ProxyConfigOk(c: ProxyConfig)
  {
    && c.configPath != ""
    && c.binaryPath != ""
    && c.serviceCluster != ""
    && ParentAndDrainOk(c.drainDuration, c.parentShutdownDuration)
    && RefreshDelayOk(c.discoveryRefreshDelay)
    && c.discoveryAddress != "" && ProxyAddressOk(c.discoveryAddress)
    && (c.zipkinAddress != "" ==> ProxyAddressOk(c.zipkinAddress))
    && ConnectTimeoutOk(c.connectTimeout)
    && (c.statsdUdpAddress != "" ==> ProxyAddressOk(c.statsdUdpAddress))
    && IsValidPort(c.proxyAdminPort)
    && KnownAuthPolicy(c.controlPlaneAuthPolicy)
  }

  /** An optional address: checked, with its prefix, only when set. */
  method OptionalAddressErrors(addr: string, prefix: string) returns (r: Error)
    ensures r == [] <==> (addr != "" ==> ProxyAddressOk(addr))
  {
    r := [];
    if addr != "" {
      var err := ValidateProxyAddress(addr);
      r := Prefix(prefix, err);
    }
  }

  /** The mandatory discovery address. */
  method DiscoveryAddressErrors(addr: string) returns (r: Error)
    ensures r == [] <==> addr != "" && ProxyAddressOk(addr)
    ensures addr == "" ==> r == [DiscoveryAddressRequired]
  {
    if addr == "" {
      return [DiscoveryAddressRequired];
    }
    var err := ValidateProxyAddress(addr);
    r := Prefix("invalid discovery address: ", err);
  }

  /** ValidateParentAndDrain under its prefix. */
  function ParentAndDrainErrors(drain: Option<Duration>, parent: Option<Duration>): (e: Error)
    ensures e == [] <==> ParentAndDrainOk(drain, parent)
  {
    Prefix("invalid parent and drain time combination ", ValidateParentAndDrain(drain, parent))
  }

  /** ValidateRefreshDelay under a prefix. */
  function RefreshDelayErrors(prefix: string, d: Option<Duration>): (e: Error)
    ensures e == [] <==> RefreshDelayOk(d)
  {
    Prefix(prefix, ValidateRefreshDelay(d))
  }

  /** ValidateConnectTimeout under a prefix. */
  function ConnectTimeoutErrors(prefix: string, d: Option<Duration>): (e: Error)
    ensures e == [] <==> ConnectTimeoutOk(d)
  {
    Prefix(prefix, ValidateConnectTimeout(d))
  }

  /** ValidatePort under a prefix. */
  function PortErrors(prefix: string, port: int): (e: Error)
    ensures e == [] <==> IsValidPort(port)
  {
    Prefix(prefix, ValidatePort(port))
  }

  /** The three settings a proxy configuration must name. */
  function RequiredErrors(c: ProxyConfig): (e: Error)
    ensures e == [] <==> c.configPath != "" && c.binaryPath != "" && c.serviceCluster != ""
  {
    (if c.configPath == "" then [ConfigPathRequired] else [])
    + (if c.binaryPath == "" then [BinaryPathRequired] else [])
    + (if c.serviceCluster == "" then [ServiceClusterRequired] else [])
  }

  /** ValidateProxyConfig: nil exactly for a valid proxy configuration. */
  method ValidateProxyConfig(c: ProxyConfig) returns (r: Error)
    ensures r == [] <==> ProxyConfigOk(c)
    ensures c.discoveryAddress == "" ==> DiscoveryAddressRequired in r
  {
    var required := RequiredErrors(c);
    var drain := ParentAndDrainErrors(c.drainDuration, c.parentShutdownDuration);
    var refresh := RefreshDelayErrors("invalid refresh delay: ", c.discoveryRefreshDelay);
    var discovery := DiscoveryAddressErrors(c.discoveryAddress);
    var zipkin := OptionalAddressErrors(c.zipkinAddress, "invalid zipkin address: ");
    var timeout := ConnectTimeoutErrors("invalid connect timeout: ", c.connectTimeout);
    var statsd := OptionalAddressErrors(c.statsdUdpAddress, "invalid statsd udp address: ");
    var port := PortErrors("invalid proxy admin port: ", c.proxyAdminPort);
    var auth: Error := if KnownAuthPolicy(c.controlPlaneAuthPolicy) then [] else [UnknownControlPlaneAuth];
    r := required + drain + refresh + discovery + zipkin + timeout + statsd + port + auth;
  }

  /** An accepted proxy configuration drains for 1s to 1h, strictly less than its parent shutdown time. */
  lemma AcceptedDrainBounds(c: ProxyConfig)
    requires ProxyConfigOk(c)
    ensures Second <= Decode(c.drainDuration).value < Decode(c.parentShutdownDuration).value <= Hour
  {
    ParentAndDrainBounds(c.drainDuration, c.parentShutdownDuration);
  }

  // ---------------------------------------------------------- mesh config

  /**
   * A valid mesh configuration: Mixer addresses valid when set, a proxy
   * listen port, a connect timeout and an RDS refresh delay in their
   * windows, a known authentication policy, and a valid default proxy
   * configuration.
   */
  predicate MeshConfigOk(m: MeshConfig)
  {
    && (m.mixerCheckServer != "" ==> ProxyAddressOk(m.mixerCheckServer))
    && (m.mixerReportServer != "" ==> ProxyAddressOk(m.mixerReportServer))
    && IsValidPort(m.proxyListenPort)
    && ConnectTimeoutOk(m.connectTimeout)
    && KnownAuthPolicy(m.authPolicy)
    && RefreshDelayOk(m.rdsRefreshDelay)
    && m.defaultConfig.Some? && ProxyConfigOk(m.defaultConfig.value)
  }

  /** ValidateMeshConfig: nil exactly for a valid mesh configuration. */
  method ValidateMeshConfig(m: MeshConfig) returns (r: Error)
    ensures r == [] <==> MeshConfigOk(m)
    ensures m.defaultConfig.None? ==> MissingDefaultConfig in r
  {
    var check := OptionalAddressErrors(m.mixerCheckServer, "invalid Policy Check Server address: ");
    var report := OptionalAddressErrors(m.mixerReportServer, "invalid Telemetry Server address: ");
    var port := PortErrors("invalid proxy listen port: ", m.proxyListenPort);
    var timeout := ConnectTimeoutErrors("invalid connect timeout: ", m.connectTimeout);
    var auth: Error := if KnownAuthPolicy(m.authPolicy) then [] else [UnknownAuthPolicy];
    var refresh := RefreshDelayErrors("invalid refresh delay: ", m.rdsRefreshDelay);
    var proxy: Error;
    if m.defaultConfig.None? {
      proxy := [MissingDefaultConfig];
    } else {
      proxy := ValidateProxyConfig(m.defaultConfig.value);
    }
    r := check + report + port + timeout + auth + refresh + proxy;
  }
}
