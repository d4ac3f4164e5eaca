/**
 * Validation of the service registry's own objects: services, service
 * instances, network endpoint addresses, and the descriptor that lists
 * the configuration kinds the control plane knows.
 */
module Registry {
  import opened Wrappers
  import opened Errors
  import opened Text
  import opened Domains
  import opened Messages
  import opened Primitives
  import opened Collections

  const EmptyHostname := "invalid empty hostname"
  const InvalidHostnamePart := "invalid hostname part"
  const NoPorts := "service must have at least one declared port"
  const EmptyPortName := "empty port names are not allowed for services with multiple ports"
  const InvalidServicePortName := "invalid name"
  const InvalidServicePort := "invalid service port value"
  const MissingService := "missing service in the instance"
  const MissingServicePort := "missing service port"
  const UnknownServicePort := "missing service port by name"
  const UnexpectedPortValue := "unexpected service port value"
  const UnexpectedProtocol := "unexpected service protocol"
  const InvalidIPAddress := "invalid IP address"
  const InvalidType := "invalid type"
  const InvalidPlural := "invalid plural"
  const UnknownMessage := "cannot discover proto message type"
  const DuplicateType := "duplicate type"
  const DuplicateMessageType := "duplicate message type"

  /** A named port of a service. */
  datatype ServicePort = ServicePort(name: string, port: int, protocol: string)

  /**
   * Ports.Get: the first port with the given name. PortList.Get lives in
   * pilot/pkg/model/service.go, which is not part of this model; it is
   * read here as a first-match lookup.
   */
  function GetPort(ports: seq<ServicePort>, name: string): (r: Option<ServicePort>)
    ensures r.Some? ==> r.value in ports && r.value.name == name
    ensures r.Some? ==> exists i :: 0 <= i < |ports| && ports[i] == r.value && forall j :: 0 <= j < i ==> ports[j].name != name
    ensures r.None? <==> forall i :: 0 <= i < |ports| ==> ports[i].name != name
  {
    if |ports| == 0 then None
    else if ports[0].name == name then Some(ports[0])
    else GetPort(ports[1..], name)
  }

  /** The number of dot-separated host name parts that are not DNS-1123 labels. */
  function BadLabels(parts: seq<string>): nat
  {
    if |parts| == 0 then 0
    else BadLabels(parts[..|parts| - 1]) + (if IsDNS1123Label(parts[|parts| - 1]) then 0 else 1)
  }

  datatype Service = Service(hostname: string, ports: seq<ServicePort>)
  {
    /** A port passes: an empty name only on a single-port service, a non-empty name is a label, the number is a port. */
    predicate PortOk(p: ServicePort)
    {
      (p.name == "" ==> |ports| <= 1) && (p.name != "" ==> IsDNS1123Label(p.name)) && IsValidPort(p.port)
    }

    /** A well-defined service: a non-empty host name made of labels and at least one acceptable port. */
    predicate Valid()
    {
      |hostname| > 0 && AllLabels(hostname) && |ports| >= 1 && forall i :: 0 <= i < |ports| ==> PortOk(ports[i])
    }

    /** The errors of one port, in the order Service.Validate reports them. */
    function PortErrors(p: ServicePort): (e: Error)
      ensures e == [] <==> PortOk(p)
    {
      (if p.name == "" then (if |ports| > 1 then [EmptyPortName] else [])
       else if !IsDNS1123Label(p.name) then [InvalidServicePortName] else [])
      + (if IsValidPort(p.port) then [] else [InvalidServicePort])
    }

    /** The host-name half of Service.Validate: one error per part that is not a label. */
    method HostnameErrors() returns (r: Error)
      ensures r == [] <==> |hostname| > 0 && AllLabels(hostname)
      ensures Count(r, InvalidHostnamePart) == BadLabels(Split(hostname, '.'))
      ensures |hostname| == 0 ==> EmptyHostname in r
    {
      var parts := Split(hostname, '.');
      var partErrs: Error := [];
      for i := 0 to |parts|
        invariant partErrs == [] <==> forall j :: 0 <= j < i ==> IsDNS1123Label(parts[j])
        invariant Count(partErrs, InvalidHostnamePart) == BadLabels(parts[..i])
      {
        assert parts[..i + 1][..i] == parts[..i];
        if !IsDNS1123Label(parts[i]) {
          CountSnoc(partErrs, InvalidHostnamePart, InvalidHostnamePart);
          partErrs := partErrs + [InvalidHostnamePart];
        }
      }
      assert parts[..|parts|] == parts;
      r := (if |hostname| == 0 then [EmptyHostname] else []) + partErrs;
      CountConcat(if |hostname| == 0 then [EmptyHostname] else [], partErrs, InvalidHostnamePart);
    }

    /** The port half of Service.Validate: at least one port, each acceptable. */
    method PortsErrors() returns (r: Error)
      ensures r == [] <==> |ports| >= 1 && forall i :: 0 <= i < |ports| ==> PortOk(ports[i])
      ensures InvalidHostnamePart !in r
      ensures |ports| == 0 ==> NoPorts in r
    {
      r := if |ports| == 0 then [NoPorts] else [];
      for i := 0 to |ports|
        invariant r == [] <==> |ports| >= 1 && forall j :: 0 <= j < i ==> PortOk(ports[j])
        invariant InvalidHostnamePart !in r
        invariant |ports| == 0 ==> NoPorts in r
      {
        r := r + PortErrors(ports[i]);
      }
    }

    /**
     * Service.Validate: nil exactly when the service is well defined; one
     * "invalid hostname part" error per part that is not a label (the
     * empty host name has one such part), and the missing-ports error when
     * there are no ports.
     */
    method Validate() returns (r: Error)
      ensures r == [] <==> Valid()
      ensures Count(r, InvalidHostnamePart) == BadLabels(Split(hostname, '.'))
      ensures |hostname| == 0 ==> EmptyHostname in r
      ensures |ports| == 0 ==> NoPorts in r
    {
      var host := HostnameErrors();
      var portErrs := PortsErrors();
      CountConcat(host, portErrs, InvalidHostnamePart);
      CountAbsent(portErrs, InvalidHostnamePart);
      r := host + portErrs;
    }
  }

  datatype AddressFamily = AddressFamilyTCP | AddressFamilyUnix

  /** The endpoint of a service instance: the address, its port, and the service port it serves. */
  datatype NetworkEndpoint = NetworkEndpoint(
    family: AddressFamily, address: string, port: int, servicePort: Option<ServicePort>)

  /**
   * ValidateNetworkEndpointAddress: a TCP endpoint needs an IP address
   * (dotted-quad IPv4 here), a Unix endpoint an absolute socket path.
   */
  function ValidateNetworkEndpointAddress(n: NetworkEndpoint): (r: Error)
    ensures n.family == AddressFamilyTCP ==> (r == [] <==> IsIPv4(n.address))
    ensures n.family == AddressFamilyUnix ==> (r == [] <==> |n.address| >= 1 && n.address[0] == '/')
  {
    match n.family
    case AddressFamilyTCP => if !IsIPv4(n.address) then [InvalidIPAddress] else []
    case AddressFamilyUnix => ValidateUnixAddress(n.address)
  }

  datatype ServiceInstance = ServiceInstance(endpoint: NetworkEndpoint, service: Option<Service>, labels: map<string, string>)
  {
    /** The endpoint's service port is declared by the service under the same name, number and protocol. */
    predicate ServicePortMatches()
    {
      endpoint.servicePort.Some? && service.Some? &&
      var expected := GetPort(service.value.ports, endpoint.servicePort.value.name);
      expected.Some? &&
      expected.value.port == endpoint.servicePort.value.port &&
      expected.value.protocol == endpoint.servicePort.value.protocol
    }

    predicate Valid()
    {
      service.Some? && service.value.Valid() && ValidTags(labels) && IsValidPort(endpoint.port) &&
      ServicePortMatches()
    }

    /** The service-port part of ServiceInstance.Validate. */
    function ServicePortErrors(): (e: Error)
      ensures e == [] <==> endpoint.servicePort.Some? && (service.Some? ==> ServicePortMatches())
      ensures endpoint.servicePort.None? ==> e == [MissingServicePort]
    {
      match endpoint.servicePort
      case None => [MissingServicePort]
      case Some(port) =>
        if service.None? then []
        else match GetPort(service.value.ports, port.name)
          case None => [UnknownServicePort]
          case Some(expected) =>
            (if expected.port != port.port then [UnexpectedPortValue] else []) +
            (if expected.protocol != port.protocol then [UnexpectedProtocol] else [])
    }

    /**
     * ServiceInstance.Validate: nil exactly when there is a valid service,
     * well-formed labels, a valid endpoint port, and a service port the
     * service declares with the same number and protocol.
     */
    method Validate() returns (r: Error)
      ensures r == [] <==> Valid()
      ensures service.None? ==> MissingService in r
      ensures endpoint.servicePort.None? ==> MissingServicePort in r
    {
      r := [];
      if service.None? {
        r := r + [MissingService];
      } else {
        var err := service.value.Validate();
        if err != [] {
          r := r + err;
        }
      }
      var err := ValidateLabels(labels);
      if err != [] {
        r := r + err;
      }
      err := ValidatePort(endpoint.port);
      if err != [] {
        r := r + err;
      }
      var portErrs := ServicePortErrors();
      r := r + portErrs;
      assert endpoint.servicePort.None? ==> r[|r| - 1] == MissingServicePort;
      assert service.None? ==> r[0] == MissingService;
    }
  }

  /** One registered configuration kind. */
  datatype ProtoSchema = ProtoSchema(typ: string, plural: string, messageName: string, clusterScoped: bool)

  /** The errors that concern one schema alone. */
  predicate SchemaOk(env: Env, s: ProtoSchema)
  {
    IsDNS1123Label(s.typ) && IsDNS1123Label(s.plural) && s.messageName in env.registeredMessages
  }

  datatype ConfigDescriptor = ConfigDescriptor(schemas: seq<ProtoSchema>)
  {
    /** The type names, in order. */
    function Types(): (ts: seq<string>)
      ensures |ts| == |schemas| && forall i :: 0 <= i < |ts| ==> ts[i] == schemas[i].typ
    {
      seq(|schemas|, i requires 0 <= i < |schemas| => schemas[i].typ)
    }

    /** The first n schemas pass their own checks. */
    predicate PrefixOk(env: Env, n: int)
    {
      forall j :: 0 <= j < n && j < |schemas| ==> SchemaOk(env, schemas[j])
    }

    /** The message names paired with their scope: a message may appear once per scope. */
    function ScopedMessages(): (ms: seq<(bool, string)>)
      ensures |ms| == |schemas| && forall i :: 0 <= i < |ms| ==> ms[i] == (schemas[i].clusterScoped, schemas[i].messageName)
    {
      seq(|schemas|, i requires 0 <= i < |schemas| => (schemas[i].clusterScoped, schemas[i].messageName))
    }

    predicate Valid(env: Env)
    {
      (forall i :: 0 <= i < |schemas| ==> SchemaOk(env, schemas[i])) &&
      Distinct(Types()) && Distinct(ScopedMessages())
    }

    /** The errors that concern one schema alone: its type, its plural, its message. */
    static function OwnErrors(env: Env, s: ProtoSchema): (e: Error)
      ensures e == [] <==> SchemaOk(env, s)
      ensures DuplicateType !in e && DuplicateMessageType !in e
    {
      (if !IsDNS1123Label(s.typ) then [InvalidType] else []) +
      (if !IsDNS1123Label(s.plural) then [InvalidPlural] else []) +
      (if s.messageName !in env.registeredMessages then [UnknownMessage] else [])
    }

    /** The duplicate errors of one schema, given whether its type and scoped message were seen before. */
    static function DuplicateErrors(typeSeen: bool, messageSeen: bool): (e: Error)
      ensures e == [] <==> !typeSeen && !messageSeen
      ensures Count(e, DuplicateType) == (if typeSeen then 1 else 0)
      ensures Count(e, DuplicateMessageType) == (if messageSeen then 1 else 0)
    {
      var e2: Error := if typeSeen then [DuplicateType] else [];
      var e3: Error := if messageSeen then [DuplicateMessageType] else [];
      CountConcat(e2, e3, DuplicateType);
      CountConcat(e2, e3, DuplicateMessageType);
      assert [DuplicateType][..0] == [] && [DuplicateMessageType][..0] == [];
      e2 + e3
    }

    /** The messages listed in the given scope among the scoped messages `xs`. */
    static function MessagesIn(xs: seq<(bool, string)>, scope: bool): set<string>
    {
      set p | p in xs && p.0 == scope :: p.1
    }

    /** One more schema adds its message to the seen set of its own scope only. */
    static lemma MessagesInStep(xs: seq<(bool, string)>, i: int)
      requires 0 <= i < |xs|
      ensures MessagesIn(xs[..i + 1], xs[i].0) == MessagesIn(xs[..i], xs[i].0) + {xs[i].1}
      ensures MessagesIn(xs[..i + 1], !xs[i].0) == MessagesIn(xs[..i], !xs[i].0)
      ensures xs[i] in Elems(xs[..i]) <==> xs[i].1 in MessagesIn(xs[..i], xs[i].0)
    {
      assert xs[..i + 1] == xs[..i] + [xs[i]];
      if xs[i].1 in MessagesIn(xs[..i], xs[i].0) {
        var p :| p in xs[..i] && p.0 == xs[i].0 && p.1 == xs[i].1;
        assert p == xs[i];
      }
    }

    /** Appending one schema's errors adds to a duplicate count only through its duplicate errors. */
    static lemma CountAppend(r: Error, own: Error, dups: Error, msg: string)
      requires msg !in own
      ensures Count(r + (own + dups), msg) == Count(r, msg) + Count(dups, msg)
    {
      CountAbsent(own, msg);
      CountConcat(own, dups, msg);
      CountConcat(r, own + dups, msg);
    }

    /** The error counts and the nil-iff of ConfigDescriptor.Validate carry over from i to i + 1 schemas. */
    lemma ValidateStep(env: Env, i: int, r: Error, typeSeen: bool, messageSeen: bool)
      requires 0 <= i < |schemas|
      requires typeSeen <==> Types()[i] in Elems(Types()[..i])
      requires messageSeen <==> ScopedMessages()[i] in Elems(ScopedMessages()[..i])
      requires Count(r, DuplicateType) == Repeats(Types()[..i])
      requires Count(r, DuplicateMessageType) == Repeats(ScopedMessages()[..i])
      requires r == [] <==> PrefixOk(env, i) && Repeats(Types()[..i]) == 0 && Repeats(ScopedMessages()[..i]) == 0
      ensures var r' := r + (OwnErrors(env, schemas[i]) + DuplicateErrors(typeSeen, messageSeen));
        && Count(r', DuplicateType) == Repeats(Types()[..i + 1])
        && Count(r', DuplicateMessageType) == Repeats(ScopedMessages()[..i + 1])
        && (r' == [] <==> PrefixOk(env, i + 1) && Repeats(Types()[..i + 1]) == 0 && Repeats(ScopedMessages()[..i + 1]) == 0)
    {
      var own := OwnErrors(env, schemas[i]);
      var dups := DuplicateErrors(typeSeen, messageSeen);
      RepeatsStep(Types(), i);
      RepeatsStep(ScopedMessages(), i);
      CountAppend(r, own, dups, DuplicateType);
      CountAppend(r, own, dups, DuplicateMessageType);
      assert PrefixOk(env, i + 1) <==> PrefixOk(env, i) && SchemaOk(env, schemas[i]);
      assert r + (own + dups) == [] <==> r == [] && own == [] && dups == [];
    }

    /**
     * ConfigDescriptor.Validate: nil exactly when every type and plural is
     * a label, every message is registered, types are distinct, and no
     * message is listed twice within the same scope; one duplicate error
     * per entry that repeats an earlier type or scoped message.
     */
    method Validate(env: Env) returns (r: Error)
      ensures r == [] <==> Valid(env)
      ensures Count(r, DuplicateType) == Repeats(Types())
      ensures Count(r, DuplicateMessageType) == Repeats(ScopedMessages())
    {
      var types := Types();
      var scoped := ScopedMessages();
      r := [];
      var descriptorTypes: set<string> := {};
      var messages: set<string> := {};
      var clusterMessages: set<string> := {};
      for i := 0 to |schemas|
        invariant descriptorTypes == Elems(types[..i])
        invariant clusterMessages == MessagesIn(scoped[..i], true)
        invariant messages == MessagesIn(scoped[..i], false)
        invariant Count(r, DuplicateType) == Repeats(types[..i])
        invariant Count(r, DuplicateMessageType) == Repeats(scoped[..i])
        invariant r == [] <==> PrefixOk(env, i) && Repeats(types[..i]) == 0 && Repeats(scoped[..i]) == 0
      {
        var v := schemas[i];
        RepeatsStep(types, i);
        MessagesInStep(scoped, i);
        var typeSeen := v.typ in descriptorTypes;
        var messageSeen := if v.clusterScoped then v.messageName in clusterMessages else v.messageName in messages;
        ValidateStep(env, i, r, typeSeen, messageSeen);
        r := r + (OwnErrors(env, v) + DuplicateErrors(typeSeen, messageSeen));
        descriptorTypes := descriptorTypes + {v.typ};
        if v.clusterScoped {
          clusterMessages := clusterMessages + {v.messageName};
        } else {
          messages := messages + {v.messageName};
        }
      }
      assert types[..|schemas|] == types && scoped[..|schemas|] == scoped;
      RepeatsDistinct(types);
      RepeatsDistinct(scoped);
      assert PrefixOk(env, |schemas|) <==> forall i :: 0 <= i < |schemas| ==> SchemaOk(env, schemas[i]);
    }
  }
}
