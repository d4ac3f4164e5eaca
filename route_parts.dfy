/**
 * The building blocks of the v1alpha1 routing rules: service references,
 * match conditions, destination weights, HTTP timeouts and retries, HTTP
 * and L4 fault injection, load balancing, circuit breakers, and the rule
 * that route weights add up to 100.
 */
module RouteParts {
  import opened Wrappers
  import opened Errors
  import opened Text
  import opened Durations
  import opened Domains
  import opened Messages
  import opened Primitives

  const NameOrServiceMandatory := "name or service is mandatory for a service reference"
  const NameAndService := "specify either name or service, not both"
  const NamespaceWithService := "namespace is not valid when service is provided"
  const DomainWithService := "domain is not valid when service is provided"
  const NameNotLabel := "name must be a valid label"
  const NamespaceNotLabel := "namespace must be a valid label"
  const UdpNotSupported := "UDP protocol not supported yet"
  const HeaderNameInvalid := "header name invalid: "
  const HeaderValueInvalid := "header value invalid: "
  const EmptyUriMatch := "header value for the uri header must be non-empty"
  const WeightInvalid := "weight invalid: "
  const HttpTimeoutInvalid := "httpTimeout invalid: "
  const NegativeAttempts := "attempts must be in range [0..]"
  const PerTryTimeoutInvalid := "perTryTimeout invalid: "
  const PercentInvalid := "percent invalid: "
  const FixedDelayInvalid := "fixedDelay invalid:"
  const ExponentialDelayInvalid := "exponentialDelay invalid: "
  const ExponentialDelayUnsupported := "exponentialDelay not supported yet"
  const InvalidAbortStatus := "invalid abort http status"
  const GrpcAbortUnsupported := "gRPC fault injection not supported yet"
  const TerminatePercentInvalid := "terminate percent invalid: "
  const TerminateUnsupported := "the terminate fault not supported yet"
  const ThrottlePercentInvalid := "throttle percent invalid: "
  const DownstreamLimitInvalid := "downstreamLimitBps invalid"
  const UpstreamLimitInvalid := "upstreamLimitBps invalid"
  const ThrottleAfterPeriodInvalid := "throttleAfterPeriod invalid"
  const ThrottleAfterBytesInvalid := "throttleAfterBytes invalid"
  const LoadBalancingUnset := "must set load balancing if specified"
  const CbMaxConnections := "circuitBreak maxConnections must be in range [0..]"
  const CbMaxPendingRequests := "circuitBreaker maxPendingRequests must be in range [0..]"
  const CbMaxRequests := "circuitBreaker maxRequests must be in range [0..]"
  const CbSleepWindow := "circuitBreaker sleepWindow must be in range [0..]"
  const CbConsecutiveErrors := "circuitBreaker httpConsecutiveErrors must be in range [0..]"
  const CbDetectionInterval := "circuitBreaker httpDetectionInterval must be in range [0..]"
  const CbMaxRequestsPerConnection := "circuitBreaker httpMaxRequestsPerConnection must be in range [0..]"
  const CbMaxEjectionPercent := "circuitBreaker httpMaxEjectionPercent invalid: "
  const WeightsTotal := "route weights total (must total 100)"
  const MaxAgeSeconds := "max_age duration is accurate only to seconds precision"

  // ------------------------------------------------- service references

  /** An egress service is a CIDR block when it holds exactly one '/', and an egress domain otherwise. */
  predicate IsEgressRuleService(service: string)
  {
    if Occurrences(service, '/') == 1 then IsCIDR(service) else IsEgressDomain(service)
  }

  /** ValidateEgressRuleService: a CIDR block or an egress domain, chosen by the number of slashes. */
  method ValidateEgressRuleService(service: string) returns (r: Error)
    ensures r == [] <==> IsEgressRuleService(service)
  {
    if Occurrences(service, '/') == 1 {
      r := ValidateCIDR(service);
    } else {
      r := ValidateEgressRuleDomain(service);
    }
  }

  /**
   * A well-formed service reference: exactly one of name and service; a
   * service is an egress service with no namespace and no domain; a name
   * is a label; a namespace, when given, is a label; a domain, when given,
   * is a fully-qualified name; the labels are tags.
   */
  predicate IstioServiceOk(svc: IstioService)
  {
    && (svc.name == "" <==> svc.service != "")
    && (svc.service != "" ==> IsEgressRuleService(svc.service) && svc.namespace == "" && svc.domain == "")
    && (svc.name != "" ==> IsDNS1123Label(svc.name))
    && (svc.namespace == "" || IsDNS1123Label(svc.namespace))
    && (svc.domain == "" || IsFQDN(svc.domain))
    && ValidTags(svc.labels)
  }

  /** ValidateIstioService: nil exactly for a well-formed service reference. */
  method ValidateIstioService(svc: IstioService) returns (r: Error)
    ensures r == [] <==> IstioServiceOk(svc)
    ensures svc.name == "" && svc.service == "" ==> NameOrServiceMandatory in r
    ensures svc.name != "" && svc.service != "" ==> NameAndService in r
  {
    r := [];
    if svc.name == "" && svc.service == "" {
      r := r + [NameOrServiceMandatory];
    } else if svc.service != "" && svc.name != "" {
      r := r + [NameAndService];
    } else if svc.service != "" {
      var err := ValidateEgressRuleService(svc.service);
      r := r + err;
      if svc.namespace != "" {
        r := r + [NamespaceWithService];
      }
      if svc.domain != "" {
        r := r + [DomainWithService];
      }
    } else if svc.name != "" {
      if !IsDNS1123Label(svc.name) {
        r := r + [NameNotLabel];
      }
    }
    if svc.namespace != "" && !IsDNS1123Label(svc.namespace) {
      r := r + [NamespaceNotLabel];
    }
    if svc.domain != "" {
      var err := ValidateFQDN(svc.domain);
      r := r + err;
    }
    var err := ValidateLabels(svc.labels);
    r := r + err;
  }

  // --------------------------------------------------- match conditions

  /** Every source and destination subnet is an IPv4 address or CIDR block. */
  predicate L4MatchOk(ma: L4MatchAttributes)
  {
    (forall i :: 0 <= i < |ma.sourceSubnet| ==> IsIPv4Subnet(ma.sourceSubnet[i])) &&
    (forall i :: 0 <= i < |ma.destinationSubnet| ==> IsIPv4Subnet(ma.destinationSubnet[i]))
  }

  /** ValidateL4MatchAttributes: each subnet is checked, source subnets first. */
  method ValidateL4MatchAttributes(ma: L4MatchAttributes) returns (r: Error)
    ensures r == [] <==> L4MatchOk(ma)
  {
    var source := CheckEach(ma.sourceSubnet, ValidateIPv4Subnet);
    var destination := CheckEach(ma.destinationSubnet, ValidateIPv4Subnet);
    r := source + destination;
  }

  /** The special uri header may not be matched against an empty exact value, prefix or regex. */
  predicate UriMatchNonEmpty(m: StringMatch)
  {
    match m
    case ExactMatch(e) => e != ""
    case PrefixMatch(p) => p != ""
    case RegexMatch(x) => x != ""
    case MatchUnset => true
  }

  predicate HeaderMatchOk(env: Env, name: string, m: StringMatch)
  {
    name != "" && !HasUpper(name) && (m.ExactMatch? || m.PrefixMatch? || m.RegexMatch?) &&
    (name == env.headerUri ==> UriMatchNonEmpty(m))
  }

  /** The errors of one request-header match: its name, its value, and the uri rule. */
  function HeaderMatchErrors(env: Env, name: string, m: StringMatch): (e: Error)
    ensures e == [] <==> HeaderMatchOk(env, name, m)
  {
    Prefix(HeaderNameInvalid, ValidateHTTPHeaderName(name))
    + Prefix(HeaderValueInvalid, ValidateStringMatch(m))
    + (if name == env.headerUri && !UriMatchNonEmpty(m) then [EmptyUriMatch] else [])
  }

  predicate MatchConditionOk(env: Env, mc: MatchCondition)
  {
    && (mc.source.Some? ==> IstioServiceOk(mc.source.value))
    && (mc.tcp.Some? ==> L4MatchOk(mc.tcp.value))
    && mc.udp.None?
    && (mc.request.Some? ==>
          forall k :: k in mc.request.value.headers ==> HeaderMatchOk(env, k, mc.request.value.headers[k]))
  }

  /** ValidateMatchCondition: nil exactly for a valid match; a UDP match is always rejected. */
  method ValidateMatchCondition(env: Env, mc: MatchCondition) returns (r: Error)
    ensures r == [] <==> MatchConditionOk(env, mc)
    ensures mc.udp.Some? ==> UdpNotSupported in r
  {
    r := [];
    if mc.source.Some? {
      var err := ValidateIstioService(mc.source.value);
      r := r + err;
    }
    if mc.tcp.Some? {
      var err := ValidateL4MatchAttributes(mc.tcp.value);
      r := r + err;
    }
    if mc.udp.Some? {
      var err := ValidateL4MatchAttributes(mc.udp.value);
      r := r + err + [UdpNotSupported];
    }
    if mc.request.Some? {
      var err := CheckEachEntry(mc.request.value.headers, (k, m) => HeaderMatchErrors(env, k, m));
      r := r + err;
    }
  }

  // -------------------------------------------------------- weights

  /** ValidateDestinationWeight: tag-shaped labels and a weight in 0..100. */
  method ValidateDestinationWeight(dw: DestinationWeight) returns (r: Error)
    ensures r == [] <==> ValidTags(dw.labels) && 0 <= dw.weight <= 100
  {
    r := ValidateLabels(dw.labels);
    r := r + Prefix(WeightInvalid, ValidatePercent(dw.weight));
  }

  /** The total weight of a list of routes. */
  function Sum(routes: seq<DestinationWeight>): int
  {
    if |routes| == 0 then 0 else Sum(routes[..|routes| - 1]) + routes[|routes| - 1].weight
  }

  /** The weights total 100, except that a single route with weight 0 stands for 100. */
  predicate WeightsAccepted(routes: seq<DestinationWeight>)
  {
    (|routes| == 1 && Sum(routes) == 0) || Sum(routes) == 100
  }

  /** ValidateWeights: at most one error, nil exactly for accepted weights. */
  method ValidateWeights(routes: seq<DestinationWeight>) returns (r: Error)
    ensures |r| <= 1
    ensures r == [] <==> WeightsAccepted(routes)
  {
    var sum := 0;
    for i := 0 to |routes|
      invariant sum == Sum(routes[..i])
    {
      assert routes[..i + 1][..i] == routes[..i];
      sum := sum + routes[i].weight;
    }
    assert routes[..|routes|] == routes;
    if |routes| == 1 && sum == 0 {
      return [];
    }
    r := [];
    if sum != 100 {
      r := r + [WeightsTotal];
    }
  }

  /**
   * A single route passes exactly when its weight is 0 or 100, and an
   * empty route list fails.
   */
  lemma WeightsEdgeCases(w: DestinationWeight)
    ensures WeightsAccepted([w]) <==> w.weight == 0 || w.weight == 100
    ensures !WeightsAccepted([])
  {
    assert [w][..0] == [];
    assert Sum([w]) == w.weight;
  }

  // ------------------------------------------------- timeouts, retries

  /** ValidateHTTPTimeout: a simple timeout must be a valid duration; no other kind is checked. */
  function ValidateHTTPTimeout(t: HTTPTimeout): (r: Error)
    ensures |r| <= 1
    ensures r == [] <==> (t.SimpleTimeout? ==> IsValidDuration(t.timeout))
  {
    match t
    case SimpleTimeout(timeout) => Prefix(HttpTimeoutInvalid, ValidateDuration(timeout))
    case TimeoutUnset => []
  }

  /** ValidateHTTPRetries: a simple retry needs non-negative attempts and a valid per-try timeout, which must be set. */
  function ValidateHTTPRetries(retry: HTTPRetry): (r: Error)
    ensures |r| <= 2
    ensures r == [] <==> (retry.SimpleRetry? ==> retry.attempts >= 0 && IsValidDuration(retry.perTryTimeout))
    ensures retry.SimpleRetry? && retry.perTryTimeout.None? ==> r != []
  {
    match retry
    case SimpleRetry(attempts, perTryTimeout) =>
      (if attempts < 0 then [NegativeAttempts] else []) + Prefix(PerTryTimeoutInvalid, ValidateDuration(perTryTimeout))
    case RetryUnset => []
  }

  // ----------------------------------------------------- HTTP faults

  /**
   * ValidateDelay: the percentage must be in range and the fixed delay is
   * always checked, so a delay is accepted only as a valid fixed delay;
   * an exponential delay is additionally reported as unsupported.
   */
  function ValidateDelay(delay: Delay): (r: Error)
    ensures r == [] <==> 0.0 <= delay.percent <= 100.0 && delay.delayType.FixedDelay? && IsValidDuration(Some(delay.delayType.fixed))
    ensures delay.delayType.ExponentialDelay? ==> ExponentialDelayUnsupported in r
  {
    Prefix(PercentInvalid, ValidateFloatPercent(delay.percent))
    + Prefix(FixedDelayInvalid, ValidateDuration(delay.GetFixedDelay()))
    + (if delay.GetExponentialDelay().Some?
       then Prefix(ExponentialDelayInvalid, ValidateDuration(delay.GetExponentialDelay())) + [ExponentialDelayUnsupported]
       else [])
  }

  /** ValidateAbortHTTPStatus: the abort status must be in 0..600. */
  function ValidateAbortHTTPStatus(status: int): (r: Error)
    ensures |r| <= 1
    ensures r == [] <==> 0 <= status <= HTTPStatusMax
  {
    if status < 0 || status > HTTPStatusMax then [InvalidAbortStatus] else []
  }

  /** ValidateAbort: the percentage must be in range; gRPC aborts are refused; HTTP/2 errors pass unchecked. */
  function ValidateAbort(abort: Abort): (r: Error)
    ensures r == [] <==>
      0.0 <= abort.percent <= 100.0 && !abort.errorType.GrpcStatus? &&
      (abort.errorType.HttpStatus? ==> 0 <= abort.errorType.status <= 600)
  {
    Prefix(PercentInvalid, ValidateFloatPercent(abort.percent))
    + match abort.errorType
      case GrpcStatus(_) => [GrpcAbortUnsupported]
      case Http2Error(_) => []
      case HttpStatus(status) => ValidateAbortHTTPStatus(status)
      case AbortUnset => []
  }

  predicate HTTPFaultOk(fault: HTTPFaultInjection)
  {
    (fault.delay.Some? ==> ValidateDelay(fault.delay.value) == []) &&
    (fault.abort.Some? ==> ValidateAbort(fault.abort.value) == [])
  }

  /** ValidateHTTPFault: the delay and the abort, each when present. */
  function ValidateHTTPFault(fault: HTTPFaultInjection): (r: Error)
    ensures r == [] <==> HTTPFaultOk(fault)
    ensures fault.delay.None? && fault.abort.None? ==> r == []
  {
    (if fault.delay.Some? then ValidateDelay(fault.delay.value) else [])
    + (if fault.abort.Some? then ValidateAbort(fault.abort.value) else [])
  }

  // ------------------------------------------------------- L4 faults

  /** ValidateTerminate: the percentage must be in range. */
  function ValidateTerminate(t: Terminate): (r: Error)
    ensures |r| <= 1
    ensures r == [] <==> 0.0 <= t.percent <= 100.0
  {
    Prefix(TerminatePercentInvalid, ValidateFloatPercent(t.percent))
  }

  /** What ValidateThrottle accepts; the throttle-after period is always checked, so it must be given. */
  predicate ThrottleOk(t: Throttle)
  {
    && 0.0 <= t.percent <= 100.0
    && t.downstreamLimitBps >= 0
    && t.upstreamLimitBps >= 0
    && t.after.ThrottleAfterPeriod?
    && IsValidDuration(Some(t.after.period))
  }

  /** ValidateThrottle: range checks on the percentage and both limits, and a valid throttle-after period. */
  function ValidateThrottle(t: Throttle): (r: Error)
    ensures r == [] <==> ThrottleOk(t)
    ensures !t.after.ThrottleAfterPeriod? ==> ThrottleAfterPeriodInvalid in r
  {
    Prefix(ThrottlePercentInvalid, ValidateFloatPercent(t.percent))
    + (if t.downstreamLimitBps < 0 then [DownstreamLimitInvalid] else [])
    + (if t.upstreamLimitBps < 0 then [UpstreamLimitInvalid] else [])
    + (if ValidateDuration(t.GetThrottleAfterPeriod()) != [] then [ThrottleAfterPeriodInvalid] else [])
    + (if t.GetThrottleAfterBytes() < 0 then [ThrottleAfterBytesInvalid] else [])
  }

  /** ValidateL4Fault: a terminate fault is always refused; a throttle must pass ValidateThrottle. */
  function ValidateL4Fault(fault: L4FaultInjection): (r: Error)
    ensures r == [] <==> fault.terminate.None? && (fault.throttle.Some? ==> ThrottleOk(fault.throttle.value))
    ensures fault.terminate.Some? ==> TerminateUnsupported in r
  {
    (if fault.terminate.Some? then ValidateTerminate(fault.terminate.value) + [TerminateUnsupported] else [])
    + (if fault.throttle.Some? then ValidateThrottle(fault.throttle.value) else [])
  }

  // ----------------------------------------- load balancing, breakers

  /** ValidateLoadBalancing: a present load-balancing block must name a policy; the name is not checked. */
  function ValidateLoadBalancing(lb: LoadBalancing): (r: Error)
    ensures |r| <= 1
    ensures r == [] <==> lb.lbPolicy.Some?
  {
    if lb.lbPolicy.None? then [LoadBalancingUnset] else []
  }

  predicate SimpleCbOk(cb: SimpleCircuitBreakerPolicy)
  {
    && cb.maxConnections >= 0
    && cb.httpMaxPendingRequests >= 0
    && cb.httpMaxRequests >= 0
    && IsValidDuration(cb.sleepWindow)
    && cb.httpConsecutiveErrors >= 0
    && IsValidDuration(cb.httpDetectionInterval)
    && cb.httpMaxRequestsPerConnection >= 0
    && 0 <= cb.httpMaxEjectionPercent <= 100
  }

  /**
   * ValidateCircuitBreaker: for a simple breaker, non-negative limits, a
   * valid sleep window and detection interval (both therefore required),
   * and an ejection percentage in 0..100; one error per violated field.
   */
  function ValidateCircuitBreaker(cb: CircuitBreaker): (r: Error)
    ensures r == [] <==> (cb.SimpleCb? ==> SimpleCbOk(cb.simple))
    ensures |r| <= 8
  {
    match cb
    case CbUnset => []
    case SimpleCb(s) =>
      (if s.maxConnections < 0 then [CbMaxConnections] else [])
      + (if s.httpMaxPendingRequests < 0 then [CbMaxPendingRequests] else [])
      + (if s.httpMaxRequests < 0 then [CbMaxRequests] else [])
      + (if ValidateDuration(s.sleepWindow) != [] then [CbSleepWindow] else [])
      + (if s.httpConsecutiveErrors < 0 then [CbConsecutiveErrors] else [])
      + (if ValidateDuration(s.httpDetectionInterval) != [] then [CbDetectionInterval] else [])
      + (if s.httpMaxRequestsPerConnection < 0 then [CbMaxRequestsPerConnection] else [])
      + Prefix(CbMaxEjectionPercent, ValidatePercent(s.httpMaxEjectionPercent))
  }

  // ---------------------------------------------------------------- CORS

  /** What the CORS checks of both routing APIs accept. */
  predicate CorsOk(c: CorsPolicy)
  {
    && (forall i :: 0 <= i < |c.allowMethods| ==> c.allowMethods[i] in SupportedMethods)
    && (forall i :: 0 <= i < |c.allowHeaders| ==> c.allowHeaders[i] != "" && !HasUpper(c.allowHeaders[i]))
    && (forall i :: 0 <= i < |c.exposeHeaders| ==> c.exposeHeaders[i] != "" && !HasUpper(c.exposeHeaders[i]))
    && (c.maxAge.Some? ==> IsValidDuration(c.maxAge) && c.maxAge.value.nanos == 0)
  }

  /** A CORS header list: one error per empty or upper-case name. */
  method HeaderNamesErrors(names: seq<string>) returns (e: Error)
    ensures e == [] <==> forall i :: 0 <= i < |names| ==> names[i] != "" && !HasUpper(names[i])
  {
    e := [];
    for i := 0 to |names|
      invariant e == [] <==> forall j :: 0 <= j < i ==> names[j] != "" && !HasUpper(names[j])
    {
      e := e + ValidateHTTPHeaderName(names[i]);
    }
  }

  /** A CORS method list: one error per method that is not a supported HTTP method. */
  method HTTPMethodsErrors(methods: seq<string>) returns (e: Error)
    ensures e == [] <==> forall i :: 0 <= i < |methods| ==> methods[i] in SupportedMethods
  {
    e := [];
    for i := 0 to |methods|
      invariant e == [] <==> forall j :: 0 <= j < i ==> methods[j] in SupportedMethods
    {
      e := e + ValidateHTTPMethod(methods[i]);
    }
  }

  /** The max-age checks: a valid duration with no sub-second part. */
  function MaxAgeErrors(maxAge: Option<Duration>): (e: Error)
    ensures e == [] <==> (maxAge.Some? ==> IsValidDuration(maxAge) && maxAge.value.nanos == 0)
  {
    if maxAge.None? then []
    else ValidateDuration(maxAge) + (if maxAge.value.nanos > 0 then [MaxAgeSeconds] else [])
  }
}
