/**
 * The configuration objects the validators inspect: the already-decoded
 * protobuf messages of the routing (v1alpha1), networking (v1alpha3),
 * authentication, RBAC, mixer-client and mesh APIs. A field whose Go type
 * is a pointer is an Option (None is nil); a oneof is a datatype with one
 * constructor per case and one for "unset". Only fields some validator
 * reads are kept.
 */
module Messages {
  import opened Wrappers
  import opened Durations

  // ---------------------------------------------------------------- shared

  /** A string match oneof (routing, networking and mixer APIs share its shape). */
  datatype StringMatch = ExactMatch(exact: string) | PrefixMatch(prefix: string) | RegexMatch(regex: string) | MatchUnset

  /** A port selector oneof: by name, by number, or unset (networking and authentication APIs). */
  datatype PortSelector = ByName(name: string) | ByNumber(number: int) | SelectorUnset
  {
    /** GetName(): the name, or "" when the selector is not a name. */
    function GetName(): string { if ByName? then name else "" }
    /** GetNumber(): the number, or 0 when the selector is not a number. */
    function GetNumber(): int { if ByNumber? then number else 0 }
  }

  datatype HTTPRedirect = HTTPRedirect(uri: string, authority: string)
  datatype HTTPRewrite = HTTPRewrite(uri: string, authority: string)

  datatype CorsPolicy = CorsPolicy(
    allowMethods: seq<string>,
    allowHeaders: seq<string>,
    exposeHeaders: seq<string>,
    maxAge: Option<Duration>)

  // ------------------------------------------------------ routing v1alpha1

  datatype IstioService = IstioService(
    name: string, namespace: string, domain: string, service: string, labels: map<string, string>)

  datatype L4MatchAttributes = L4MatchAttributes(sourceSubnet: seq<string>, destinationSubnet: seq<string>)

  datatype MatchRequest = MatchRequest(headers: map<string, StringMatch>)

  datatype MatchCondition = MatchCondition(
    source: Option<IstioService>,
    tcp: Option<L4MatchAttributes>,
    udp: Option<L4MatchAttributes>,
    request: Option<MatchRequest>)

  /** weight is an int32. */
  datatype DestinationWeight = DestinationWeight(labels: map<string, string>, weight: int)

  datatype HTTPTimeout = SimpleTimeout(timeout: Option<Duration>) | TimeoutUnset
  datatype HTTPRetry = SimpleRetry(attempts: int, perTryTimeout: Option<Duration>) | RetryUnset

  /** Percentages of the v1alpha1 fault injections are float32 values. */
  datatype DelayType = FixedDelay(fixed: Duration) | ExponentialDelay(exponential: Duration) | DelayUnset
  datatype Delay = Delay(percent: real, delayType: DelayType)
  {
    function GetFixedDelay(): Option<Duration> { if delayType.FixedDelay? then Some(delayType.fixed) else None }
    function GetExponentialDelay(): Option<Duration> { if delayType.ExponentialDelay? then Some(delayType.exponential) else None }
  }
  datatype AbortType = GrpcStatus(grpc: string) | Http2Error(http2: string) | HttpStatus(status: int) | AbortUnset
  datatype Abort = Abort(percent: real, errorType: AbortType)
  datatype HTTPFaultInjection = HTTPFaultInjection(delay: Option<Delay>, abort: Option<Abort>)

  datatype ThrottleAfter = ThrottleAfterPeriod(period: Duration) | ThrottleAfterBytes(bytes: int) | ThrottleAfterUnset
  datatype Throttle = Throttle(percent: real, downstreamLimitBps: int, upstreamLimitBps: int, after: ThrottleAfter)
  {
    function GetThrottleAfterPeriod(): Option<Duration> { if after.ThrottleAfterPeriod? then Some(after.period) else None }
    function GetThrottleAfterBytes(): int { if after.ThrottleAfterBytes? then after.bytes else 0 }
  }
  datatype Terminate = Terminate(percent: real)
  datatype L4FaultInjection = L4FaultInjection(throttle: Option<Throttle>, terminate: Option<Terminate>)

  datatype LoadBalancing = LoadBalancing(lbPolicy: Option<string>)

  datatype SimpleCircuitBreakerPolicy = SimpleCircuitBreakerPolicy(
    maxConnections: int,
    httpMaxPendingRequests: int,
    httpMaxRequests: int,
    sleepWindow: Option<Duration>,
    httpConsecutiveErrors: int,
    httpDetectionInterval: Option<Duration>,
    httpMaxRequestsPerConnection: int,
    httpMaxEjectionPercent: int)
  datatype CircuitBreaker = SimpleCb(simple: SimpleCircuitBreakerPolicy) | CbUnset

  /** An empty route list stands for Go's nil slice (what decoding produces). */
  datatype RouteRule = RouteRule(
    destination: Option<IstioService>,
    matchCondition: Option<MatchCondition>,
    route: seq<DestinationWeight>,
    redirect: Option<HTTPRedirect>,
    rewrite: Option<HTTPRewrite>,
    websocketUpgrade: bool,
    httpReqTimeout: Option<HTTPTimeout>,
    httpReqRetries: Option<HTTPRetry>,
    httpFault: Option<HTTPFaultInjection>,
    l4Fault: Option<L4FaultInjection>,
    mirror: Option<IstioService>,
    corsPolicy: Option<CorsPolicy>,
    appendHeaders: map<string, string>)

  datatype IngressRule = IngressRule(destination: Option<IstioService>)

  datatype EgressPort = EgressPort(port: int, protocol: string)
  datatype EgressRule = EgressRule(destination: Option<IstioService>, ports: seq<EgressPort>, useEgressProxy: bool)

  datatype DestinationPolicy = DestinationPolicy(
    destination: Option<IstioService>,
    source: Option<IstioService>,
    loadBalancing: Option<LoadBalancing>,
    circuitBreaker: Option<CircuitBreaker>)

  // --------------------------------------------------- networking v1alpha3

  /** number is a uint32. */
  datatype Port = Port(number: int, protocol: string, name: string)

  datatype ServerTLSMode = TlsPassthrough | TlsSimple | TlsMutual
  datatype ServerTLSOptions = ServerTLSOptions(mode: ServerTLSMode, serverCertificate: string, caCertificates: string)
  datatype Server = Server(port: Option<Port>, hosts: seq<string>, tls: Option<ServerTLSOptions>)
  datatype Gateway = Gateway(servers: seq<Server>)

  datatype OutlierDetection = OutlierDetection(
    baseEjectionTime: Option<Duration>, consecutiveErrors: int, interval: Option<Duration>, maxEjectionPercent: int)
  datatype HTTPSettings = HTTPSettings(
    http1MaxPendingRequests: int, http2MaxRequests: int, maxRequestsPerConnection: int, maxRetries: int)
  datatype TCPSettings = TCPSettings(maxConnections: int, connectTimeout: Option<Duration>)
  datatype ConnectionPoolSettings = ConnectionPoolSettings(http: Option<HTTPSettings>, tcp: Option<TCPSettings>)
  datatype LoadBalancerSettings = SimpleLb(policy: string) | ConsistentHashLb
  datatype TLSSettingsMode = TlsDisable | TlsSettingsSimple | TlsSettingsMutual | TlsIstioMutual
  datatype TLSSettings = TLSSettings(mode: TLSSettingsMode, clientCertificate: string, privateKey: string)
  datatype TrafficPolicy = TrafficPolicy(
    outlierDetection: Option<OutlierDetection>,
    connectionPool: Option<ConnectionPoolSettings>,
    loadBalancer: Option<LoadBalancerSettings>,
    tls: Option<TLSSettings>)
  datatype Subset = Subset(name: string, labels: map<string, string>, trafficPolicy: Option<TrafficPolicy>)
  datatype DestinationRule = DestinationRule(host: string, trafficPolicy: Option<TrafficPolicy>, subsets: seq<Subset>)

  datatype Destination = Destination(host: string, subset: string, port: Option<PortSelector>)
  /** weight is an int32. */
  datatype RouteDestination = RouteDestination(destination: Option<Destination>, weight: int)
  datatype HTTPMatchRequest = HTTPMatchRequest(headers: map<string, StringMatch>, sourceLabels: map<string, string>)
  datatype RetryPolicy = RetryPolicy(attempts: int, perTryTimeout: Option<Duration>)
  /** Percentages of the v1alpha3 fault injections are int32 values. */
  datatype FaultDelay = FaultDelay(percent: int, delayType: DelayType)
  datatype FaultAbort = FaultAbort(percent: int, errorType: AbortType)
  datatype FaultInjection = FaultInjection(delay: Option<FaultDelay>, abort: Option<FaultAbort>)
  datatype HTTPRoute = HTTPRoute(
    matches: seq<HTTPMatchRequest>,
    route: seq<RouteDestination>,
    redirect: Option<HTTPRedirect>,
    rewrite: Option<HTTPRewrite>,
    websocketUpgrade: bool,
    timeout: Option<Duration>,
    retries: Option<RetryPolicy>,
    fault: Option<FaultInjection>,
    mirror: Option<Destination>,
    corsPolicy: Option<CorsPolicy>,
    appendHeaders: map<string, string>)
  /** TCP routes are not validated; only how many there are matters. */
  datatype VirtualService = VirtualService(hosts: seq<string>, gateways: seq<string>, http: seq<HTTPRoute>, tcpRoutes: nat)

  datatype Resolution = ResolutionNone | ResolutionStatic | ResolutionDns | ResolutionOther(code: int)
  /** Endpoint port numbers are uint32 values. */
  datatype Endpoint = Endpoint(address: string, ports: map<string, int>, labels: map<string, string>)
  datatype ServiceEntry = ServiceEntry(
    hosts: seq<string>, addresses: seq<string>, ports: seq<Port>, resolution: Resolution, endpoints: seq<Endpoint>)

  // -------------------------------------------------------- authentication

  datatype Jwt = Jwt(issuer: string, audiences: seq<string>, jwksUri: string, jwtHeaders: seq<string>, jwtParams: seq<string>)
  datatype PeerAuthenticationMethod = PeerMtls | PeerJwt(jwt: Jwt) | PeerUnset
  {
    /** GetJwt(): the JWT of a JWT method, nil otherwise. */
    function GetJwt(): Option<Jwt> { if PeerJwt? then Some(jwt) else None }
  }
  datatype OriginAuthenticationMethod = OriginAuthenticationMethod(jwt: Option<Jwt>)
  datatype TargetSelector = TargetSelector(name: string, ports: seq<PortSelector>)
  datatype Policy = Policy(targets: seq<TargetSelector>, peers: seq<PeerAuthenticationMethod>, origins: seq<OriginAuthenticationMethod>)

  // ------------------------------------------------------------------ rbac

  datatype AccessRuleConstraint = AccessRuleConstraint(key: string, values: seq<string>)
  datatype AccessRule = AccessRule(services: seq<string>, methods: seq<string>, constraints: seq<AccessRuleConstraint>)
  datatype ServiceRole = ServiceRole(rules: seq<AccessRule>)
  datatype Subject = Subject(user: string, group: string, properties: map<string, string>)
  datatype RoleRef = RoleRef(kind: string, name: string)
  datatype ServiceRoleBinding = ServiceRoleBinding(subjects: seq<Subject>, roleRef: Option<RoleRef>)
  datatype RbacMode = RbacOff | RbacOn | RbacOnWithInclusion | RbacOnWithExclusion
  datatype RbacConfig = RbacConfig(mode: RbacMode)

  // ---------------------------------------------------------- mixer client

  /** A timestamp, reduced to whether the protobuf library accepts it. */
  datatype Timestamp = Timestamp(wellFormed: bool)
  datatype StringMap = StringMap(entries: Option<map<string, string>>)
  datatype AttributeValue =
    | StringValue(s: string)
    | BytesValue(bytes: seq<int>)
    | TimestampValue(timestamp: Option<Timestamp>)
    | DurationValue(duration: Option<Duration>)
    | StringMapValue(stringMap: Option<StringMap>)
    | OtherValue
    | ValueUnset
  datatype Attributes = Attributes(attributes: map<string, AttributeValue>)

  datatype PatternType = UriTemplate(template: string) | PatternRegex(regex: string) | PatternUnset
  datatype HTTPAPISpecPattern = HTTPAPISpecPattern(httpMethod: string, pattern: PatternType)
  datatype APIKey = QueryKey(query: string) | HeaderKey(header: string) | CookieKey(cookie: string) | KeyUnset
  /** attributes is a pointer to an Attributes message. */
  datatype HTTPAPISpec = HTTPAPISpec(attributes: Option<Attributes>, patterns: seq<HTTPAPISpecPattern>, apiKeys: seq<APIKey>)
  datatype SpecReference = SpecReference(name: string, namespace: string)
  datatype HTTPAPISpecBinding = HTTPAPISpecBinding(services: seq<IstioService>, apiSpecs: seq<SpecReference>)
  datatype AttributeMatch = AttributeMatch(clause: map<string, StringMatch>)
  datatype Quota = Quota(quota: string, charge: int)
  datatype QuotaRule = QuotaRule(matches: seq<AttributeMatch>, quotas: seq<Quota>)
  datatype QuotaSpec = QuotaSpec(rules: seq<QuotaRule>)
  datatype QuotaSpecBinding = QuotaSpecBinding(services: seq<IstioService>, quotaSpecs: seq<SpecReference>)

  // ------------------------------------------------------------------ mesh

  datatype AuthPolicy = AuthNone | AuthMutualTls | AuthOther(code: int)
  datatype ProxyConfig = ProxyConfig(
    configPath: string,
    binaryPath: string,
    serviceCluster: string,
    drainDuration: Option<Duration>,
    parentShutdownDuration: Option<Duration>,
    discoveryRefreshDelay: Option<Duration>,
    discoveryAddress: string,
    zipkinAddress: string,
    connectTimeout: Option<Duration>,
    statsdUdpAddress: string,
    proxyAdminPort: int,
    controlPlaneAuthPolicy: AuthPolicy)
  datatype MeshConfig = MeshConfig(
    mixerCheckServer: string,
    mixerReportServer: string,
    proxyListenPort: int,
    connectTimeout: Option<Duration>,
    authPolicy: AuthPolicy,
    rdsRefreshDelay: Option<Duration>,
    defaultConfig: Option<ProxyConfig>)

  // ------------------------------------------------------------- dispatch

  /**
   * The opaque proto.Message a validator receives: its constructor is the
   * concrete message type, so a failed type assertion is a constructor mismatch.
   */
  datatype ConfigMessage =
    | RouteRuleMsg(routeRule: RouteRule)
    | IngressRuleMsg(ingressRule: IngressRule)
    | EgressRuleMsg(egressRule: EgressRule)
    | DestinationPolicyMsg(destinationPolicy: DestinationPolicy)
    | GatewayMsg(gateway: Gateway)
    | DestinationRuleMsg(destinationRule: DestinationRule)
    | VirtualServiceMsg(virtualService: VirtualService)
    | ServiceEntryMsg(serviceEntry: ServiceEntry)
    | PolicyMsg(policy: Policy)
    | ServiceRoleMsg(serviceRole: ServiceRole)
    | ServiceRoleBindingMsg(serviceRoleBinding: ServiceRoleBinding)
    | RbacConfigMsg(rbacConfig: RbacConfig)
    | AttributesMsg(attrs: Option<Attributes>)
    | HTTPAPISpecMsg(httpAPISpec: HTTPAPISpec)
    | HTTPAPISpecBindingMsg(httpAPISpecBinding: HTTPAPISpecBinding)
    | QuotaSpecMsg(quotaSpec: QuotaSpec)
    | QuotaSpecBindingMsg(quotaSpecBinding: QuotaSpecBinding)

  /**
   * What the validators take from code outside this file, as data:
   * the protocol table behind ParseProtocol and the egress protocol
   * subsets, the hostname matching relation, the JWKS URIs ParseJwksURI
   * accepts, the proto message registry, and three named constants.
   */
  datatype Env = Env(
    knownProtocols: set<string>,
    egressProtocols: set<string>,
    egressTcpProtocols: set<string>,
    hostMatches: set<(string, string)>,
    parsableJwksUris: set<string>,
    registeredMessages: set<string>,
    defaultAuthnPolicyName: string,
    meshGateway: string,
    headerUri: string)
}
