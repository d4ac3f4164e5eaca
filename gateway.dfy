/**
 * Gateways (networking v1alpha3): a non-empty list of servers, each with
 * hosts, an optional TLS block and a port, and port names unique across
 * the servers.
 */
module Gateways {
  import opened Wrappers
  import opened Errors
  import opened Domains
  import opened Messages
  import opened Primitives
  import opened Collections

  const CastGateway := "cannot cast to gateway"
  const NoServers := "gateway must have at least one server"
  const NoHosts := "server config must contain at least one host"
  const PortRequired := "port is required"
  const InvalidServerProtocol := "invalid protocol, supported protocols are HTTP, HTTP2, GRPC, MONGO, REDIS, TCP"
  const PortNameRequired := "port name must be set"
  const SimpleNeedsCertificate := "SIMPLE TLS requires a server certificate"
  const MutualNeedsCertificate := "MUTUAL TLS requires a server certificate"
  const MutualNeedsCaBundle := "MUTUAL TLS requires a client CA bundle"
  const DuplicatePortName := "port names in servers must be unique"

  /** No TLS block, pass-through, or the certificates its mode needs. */
  predicate TLSOptionsOk(tls: Option<ServerTLSOptions>)
  {
    tls.None? ||
    match tls.value.mode
    case TlsPassthrough => true
    case TlsSimple => tls.value.serverCertificate != ""
    case TlsMutual => tls.value.serverCertificate != "" && tls.value.caCertificates != ""
  }

  /** validateTLSOptions: nil exactly when the mode's certificates are given; one error per missing one. */
  function ValidateTLSOptions(tls: Option<ServerTLSOptions>): (r: Error)
    ensures r == [] <==> TLSOptionsOk(tls)
    ensures |r| <= 2
    ensures tls.Some? && tls.value.mode == TlsMutual && tls.value.caCertificates == "" ==> MutualNeedsCaBundle in r
  {
    if tls.None? then []
    else match tls.value.mode
      case TlsPassthrough => []
      case TlsSimple => if tls.value.serverCertificate == "" then [SimpleNeedsCertificate] else []
      case TlsMutual =>
        (if tls.value.serverCertificate == "" then [MutualNeedsCertificate] else [])
        + (if tls.value.caCertificates == "" then [MutualNeedsCaBundle] else [])
  }

  /**
   * A server port: present, with a known protocol and a name. The number
   * is range-checked only when positive, so 0 is accepted.
   */
  predicate ServerPortOk(env: Env, port: Option<Port>)
  {
    port.Some? && port.value.protocol in env.knownProtocols &&
    (port.value.number > 0 ==> IsValidPort(port.value.number)) && port.value.name != ""
  }

  /** validateServerPort: a missing port is the single error "port is required". */
  function ValidateServerPort(env: Env, port: Option<Port>): (r: Error)
    ensures r == [] <==> ServerPortOk(env, port)
    ensures port.None? ==> r == [PortRequired]
    ensures |r| <= 3
  {
    if port.None? then [PortRequired]
    else
      (if port.value.protocol !in env.knownProtocols then [InvalidServerProtocol] else [])
      + (if port.value.number > 0 then ValidatePort(port.value.number) else [])
      + (if port.value.name == "" then [PortNameRequired] else [])
  }

  /** The number of a port numbered 0 (unset) or below is not range-checked: only its protocol and name count. */
  lemma ServerPortZeroAccepted(env: Env, port: Port)
    requires port.number <= 0
    ensures ValidateServerPort(env, Some(port)) == [] <==> port.protocol in env.knownProtocols && port.name != ""
  {
  }

  predicate ServerOk(env: Env, server: Server)
  {
    && |server.hosts| > 0
    && (forall i :: 0 <= i < |server.hosts| ==> IsWildcardDomain(server.hosts[i]) || IsIPv4Subnet(server.hosts[i]))
    && TLSOptionsOk(server.tls)
    && ServerPortOk(env, server.port)
  }

  /**
   * validateServer: at least one host, each a wildcard domain or an IPv4
   * subnet, then the TLS options and the port.
   */
  method ValidateServer(env: Env, server: Server) returns (r: Error)
    ensures r == [] <==> ServerOk(env, server)
    ensures server.port.None? ==> PortRequired in r
  {
    r := [];
    if |server.hosts| == 0 {
      r := [NoHosts];
    } else {
      for i := 0 to |server.hosts|
        invariant r == [] <==> forall j :: 0 <= j < i ==> IsWildcardDomain(server.hosts[j]) || IsIPv4Subnet(server.hosts[j])
      {
        var err := ValidateHost(server.hosts[i]);
        r := r + err;
      }
    }
    r := r + ValidateTLSOptions(server.tls) + ValidateServerPort(env, server.port);
  }

  /** The names of the servers' ports, skipping servers without a port. */
  function PortNames(servers: seq<Server>): (names: seq<string>)
    ensures |names| <= |servers|
  {
    if |servers| == 0 then []
    else
      var last := servers[|servers| - 1];
      PortNames(servers[..|servers| - 1]) + (if last.port.Some? then [last.port.value.name] else [])
  }

  lemma PortNamesStep(servers: seq<Server>, i: int)
    requires 0 <= i < |servers|
    ensures PortNames(servers[..i + 1]) ==
      PortNames(servers[..i]) + (if servers[i].port.Some? then [servers[i].port.value.name] else [])
  {
    assert servers[..i + 1][..i] == servers[..i];
  }

  /** Appending one name to a list: it joins the seen set, or it is one more repeat. */
  lemma RepeatsSnoc(xs: seq<string>, x: string)
    ensures Elems(xs + [x]) == Elems(xs) + {x}
    ensures Repeats(xs + [x]) == Repeats(xs) + (if x in Elems(xs) then 1 else 0)
  {
    assert (xs + [x])[..|xs|] == xs;
  }

  /** Every server carries a port. */
  predicate AllPorted(servers: seq<Server>)
  {
    forall i :: 0 <= i < |servers| ==> servers[i].port.Some?
  }

  /**
   * The unique-port-name loop of ValidateGateway as written: it reads the
   * name of every server's port without a nil check, so a server without a
   * port makes it panic instead of reporting; otherwise one error per
   * repeated name.
   */
  method DuplicatePortNamesAsWritten(servers: seq<Server>) returns (o: Outcome)
    ensures o.Panic? <==> !AllPorted(servers)
    ensures o.Returned? ==> Count(o.errs, DuplicatePortName) == Repeats(PortNames(servers))
  {
    var e: Error := [];
    var seen: set<string> := {};
    for i := 0 to |servers|
      invariant AllPorted(servers[..i])
      invariant seen == Elems(PortNames(servers[..i]))
      invariant Count(e, DuplicatePortName) == Repeats(PortNames(servers[..i]))
    {
      if servers[i].port.None? {
        assert servers[i].port.None?;
        return Panic;
      }
      assert AllPorted(servers[..i + 1]) by {
        assert forall j :: 0 <= j < i ==> servers[..i + 1][j] == servers[..i][j];
      }
      var name := servers[i].port.value.name;
      ghost var names := PortNames(servers[..i]);
      PortNamesStep(servers, i);
      assert PortNames(servers[..i + 1]) == names + [name];
      RepeatsSnoc(names, name);
      if name in seen {
        CountSnoc(e, DuplicatePortName, DuplicatePortName);
        e := e + [DuplicatePortName];
      }
      seen := seen + {name};
    }
    assert servers[..|servers|] == servers;
    return Returned(e);
  }

  /**
   * The unique-port-name loop with the nil check it evidently needs: a
   * server without a port is skipped (its own check already reports
   * "port is required"); one error per repeated name.
   */
  method DuplicatePortNames(servers: seq<Server>) returns (e: Error)
    ensures Count(e, DuplicatePortName) == Repeats(PortNames(servers))
    ensures e == [] <==> Distinct(PortNames(servers))
    ensures |e| == Repeats(PortNames(servers))
  {
    e := [];
    var seen: set<string> := {};
    for i := 0 to |servers|
      invariant seen == Elems(PortNames(servers[..i]))
      invariant Count(e, DuplicatePortName) == Repeats(PortNames(servers[..i]))
      invariant |e| == Repeats(PortNames(servers[..i]))
    {
      ghost var names := PortNames(servers[..i]);
      PortNamesStep(servers, i);
      if servers[i].port.Some? {
        var name := servers[i].port.value.name;
        assert PortNames(servers[..i + 1]) == names + [name];
        RepeatsSnoc(names, name);
        if name in seen {
          CountSnoc(e, DuplicatePortName, DuplicatePortName);
          e := e + [DuplicatePortName];
        }
        seen := seen + {name};
      } else {
        assert PortNames(servers[..i + 1]) == names + [];
        assert names + [] == names;
      }
    }
    assert servers[..|servers|] == servers;
    RepeatsDistinct(PortNames(servers));
  }

  predicate GatewayOk(env: Env, g: Gateway)
  {
    && |g.servers| > 0
    && (forall i :: 0 <= i < |g.servers| ==> ServerOk(env, g.servers[i]))
    && Distinct(PortNames(g.servers))
  }

  /**
   * ValidateGateway, with the nil-port check in the name loop: nil exactly
   * for a non-empty list of valid servers with distinct port names; a
   * portless server is reported, not a crash.
   */
  method ValidateGateway(env: Env, msg: ConfigMessage) returns (r: Error)
    ensures !msg.GatewayMsg? ==> r == [CastGateway]
    ensures msg.GatewayMsg? ==> (r == [] <==> GatewayOk(env, msg.gateway))
    ensures msg.GatewayMsg? && (exists i :: 0 <= i < |msg.gateway.servers| && msg.gateway.servers[i].port.None?) ==>
      PortRequired in r
  {
    if !msg.GatewayMsg? {
      return [CastGateway];
    }
    var servers := msg.gateway.servers;
    r := [];
    if |servers| == 0 {
      r := [NoServers];
    } else {
      for i := 0 to |servers|
        invariant r == [] <==> forall j :: 0 <= j < i ==> ServerOk(env, servers[j])
        invariant forall j :: 0 <= j < i && servers[j].port.None? ==> PortRequired in r
      {
        var err := ValidateServer(env, servers[i]);
        r := r + err;
      }
    }
    var err := DuplicatePortNames(servers);
    r := r + err;
  }
}
