/**
 * The v1alpha1 routing resources: route rules, ingress rules, egress
 * rules and destination policies. Each validator receives the opaque
 * message and first checks that it has the expected type.
 */
module RouteRules {
  import opened Wrappers
  import opened Errors
  import opened Text
  import opened Durations
  import opened Domains
  import opened Messages
  import opened Primitives
  import opened Collections
  import opened RouteParts

  const CastRouteRule := "cannot cast to routing rule"
  const CastIngressRule := "cannot cast to ingress rule"
  const CastEgressRule := "cannot cast to egress rule"
  const CastDestinationPolicy := "cannot cast to destination policy"
  const RouteRuleNoDestination := "route rule must have a destination service"
  const RouteRuleDestinationLabels := "route rule destination labels must be empty"
  const RewriteEmpty := "rewrite must specify path, host, or both"
  const RouteAndRedirect := "rule cannot contain both route and redirect"
  const FaultAndRedirect := "rule cannot contain both fault and redirect"
  const RedirectEmpty := "redirect must specify path, host, or both"
  const WebsocketOnRedirect := "WebSocket upgrade is not allowed on redirect rules"
  const RewriteAndRedirect := "rule cannot contain both rewrite and redirect"
  const EmptyAppendedHeader := "appended header must have a non-empty value"
  const L4FaultNotImplemented := "L4 faults are not implemented"
  const IngressRuleNoDestination := "ingress rule must have a destination service"
  const IngressRuleDestinationLabels := "ingress rule destination labels must be empty"
  const EgressNoDestination := "destination of egress rule must have destination field"
  const EgressDestinationName := "destination of egress rule must not have name field"
  const EgressDestinationNamespace := "destination of egress rule must not have namespace field"
  const EgressDestinationDomain := "destination of egress rule must not have domain field"
  const EgressDestinationLabels := "destination of egress rule must not have labels field"
  const EgressNoPorts := "egress rule must have a ports list"
  const DuplicateEgressPort := "duplicate port"
  const EgressProtocolUnsupported := "egress rule support is available only for the supported protocols"
  const CidrProtocolUnsupported := "only TCP protocols can be defined for CIDR destination service notation"
  const EgressProxyUnsupported := "directing traffic through egress proxy is not implemented yet"
  const PolicyNoDestination := "destination is required in the destination policy"

  // -------------------------------------------------------- route rules

  /**
   * The cross-field rules of a route rule: a rewrite names a path or a
   * host; a redirect names a path or a host and excludes routes, an HTTP
   * fault, a rewrite and a WebSocket upgrade.
   */
  predicate RedirectRewriteOk(rule: RouteRule)
  {
    && (rule.rewrite.Some? ==> !(rule.rewrite.value.uri == "" && rule.rewrite.value.authority == ""))
    && (rule.redirect.Some? ==>
          && |rule.route| == 0
          && rule.httpFault.None?
          && !(rule.redirect.value.authority == "" && rule.redirect.value.uri == "")
          && !rule.websocketUpgrade
          && rule.rewrite.None?)
  }

  /** The rewrite and redirect checks of ValidateRouteRule. */
  function RedirectRewriteErrors(rule: RouteRule): (e: Error)
    ensures e == [] <==> RedirectRewriteOk(rule)
    ensures rule.redirect.Some? && |rule.route| > 0 ==> RouteAndRedirect in e
    ensures rule.redirect.Some? && rule.httpFault.Some? ==> FaultAndRedirect in e
    ensures rule.redirect.Some? && rule.rewrite.Some? ==> RewriteAndRedirect in e
  {
    (if rule.rewrite.Some? && rule.rewrite.value.uri == "" && rule.rewrite.value.authority == ""
     then [RewriteEmpty] else [])
    + (if rule.redirect.None? then []
       else
         (if |rule.route| > 0 then [RouteAndRedirect] else [])
         + (if rule.httpFault.Some? then [FaultAndRedirect] else [])
         + (if rule.redirect.value.authority == "" && rule.redirect.value.uri == "" then [RedirectEmpty] else [])
         + (if rule.websocketUpgrade then [WebsocketOnRedirect] else []))
    + (if rule.redirect.Some? && rule.rewrite.Some? then [RewriteAndRedirect] else [])
  }

  /** Weighted routes: every weight entry is valid and the weights total 100 (one route may carry 0). */
  predicate RoutesOk(routes: seq<DestinationWeight>)
  {
    (forall i :: 0 <= i < |routes| ==> ValidTags(routes[i].labels) && 0 <= routes[i].weight <= 100) &&
    WeightsAccepted(routes)
  }

  /** The route checks of ValidateRouteRule: each weight entry, then the total; a nil route list is not checked. */
  method RouteErrors(routes: seq<DestinationWeight>) returns (e: Error)
    ensures e == [] <==> |routes| == 0 || RoutesOk(routes)
  {
    e := [];
    if |routes| == 0 {
      return;
    }
    for i := 0 to |routes|
      invariant e == [] <==> forall j :: 0 <= j < i ==> ValidTags(routes[j].labels) && 0 <= routes[j].weight <= 100
    {
      var err := ValidateDestinationWeight(routes[i]);
      e := e + err;
    }
    var err := ValidateWeights(routes);
    e := e + err;
  }

  /** The CORS checks of ValidateRouteRule, in its order: max age, allowed and exposed headers, methods. */
  method RouteRuleCorsErrors(c: CorsPolicy) returns (e: Error)
    ensures e == [] <==> CorsOk(c)
  {
    var allowed := HeaderNamesErrors(c.allowHeaders);
    var exposed := HeaderNamesErrors(c.exposeHeaders);
    var methods := HTTPMethodsErrors(c.allowMethods);
    e := MaxAgeErrors(c.maxAge) + allowed + exposed + methods;
  }

  /** An appended header: a lower-case name and a non-empty value. */
  function AppendHeaderErrors(name: string, value: string): (e: Error)
    ensures e == [] <==> name != "" && !HasUpper(name) && value != ""
  {
    ValidateHTTPHeaderName(name) + (if value == "" then [EmptyAppendedHeader] else [])
  }

  /** The checks of a route rule up to its weighted routes. */
  predicate RouteRuleHeadOk(env: Env, rule: RouteRule)
  {
    && rule.destination.Some?
    && IstioServiceOk(rule.destination.value)
    && |rule.destination.value.labels| == 0
    && (rule.matchCondition.Some? ==> MatchConditionOk(env, rule.matchCondition.value))
    && RedirectRewriteOk(rule)
    && (|rule.route| == 0 || RoutesOk(rule.route))
  }

  /** The checks of a route rule after its weighted routes. */
  predicate RouteRuleTailOk(rule: RouteRule)
  {
    && (rule.mirror.Some? ==> IstioServiceOk(rule.mirror.value))
    && (forall k :: k in rule.appendHeaders ==> k != "" && !HasUpper(k) && rule.appendHeaders[k] != "")
    && (rule.corsPolicy.Some? ==> CorsOk(rule.corsPolicy.value))
    && (rule.httpReqTimeout.Some? ==> ValidateHTTPTimeout(rule.httpReqTimeout.value) == [])
    && (rule.httpReqRetries.Some? ==> ValidateHTTPRetries(rule.httpReqRetries.value) == [])
    && (rule.httpFault.Some? ==> HTTPFaultOk(rule.httpFault.value))
    && rule.l4Fault.None?
  }

  predicate RouteRuleOk(env: Env, rule: RouteRule)
  {
    RouteRuleHeadOk(env, rule) && RouteRuleTailOk(rule)
  }

  /** The destination checks shared by route and ingress rules: present, valid, and without labels. */
  method RuleDestinationErrors(destination: Option<IstioService>, missing: string, labelled: string) returns (e: Error)
    ensures e == [] <==> destination.Some? && IstioServiceOk(destination.value) && |destination.value.labels| == 0
    ensures destination.None? ==> e == [missing]
  {
    if destination.None? {
      e := [missing];
    } else {
      e := ValidateIstioService(destination.value);
      if |destination.value.labels| > 0 {
        e := e + [labelled];
      }
    }
  }

  /** The first half of ValidateRouteRule: destination, match condition, rewrite and redirect, routes. */
  method RouteRuleHeadErrors(env: Env, rule: RouteRule) returns (r: Error)
    ensures r == [] <==> RouteRuleHeadOk(env, rule)
    ensures rule.redirect.Some? && |rule.route| > 0 ==> RouteAndRedirect in r
  {
    r := RuleDestinationErrors(rule.destination, RouteRuleNoDestination, RouteRuleDestinationLabels);
    if rule.matchCondition.Some? {
      var err := ValidateMatchCondition(env, rule.matchCondition.value);
      r := r + err;
    }
    r := r + RedirectRewriteErrors(rule);
    var err := RouteErrors(rule.route);
    r := r + err;
  }

  /** The second half of ValidateRouteRule: mirror, appended headers, CORS, timeout, retries and faults. */
  method RouteRuleTailErrors(rule: RouteRule) returns (r: Error)
    ensures r == [] <==> RouteRuleTailOk(rule)
    ensures rule.l4Fault.Some? ==> L4FaultNotImplemented in r
  {
    r := [];
    if rule.mirror.Some? {
      r := ValidateIstioService(rule.mirror.value);
    }
    var err := CheckEachEntry(rule.appendHeaders, AppendHeaderErrors);
    r := r + err;
    if rule.corsPolicy.Some? {
      err := RouteRuleCorsErrors(rule.corsPolicy.value);
      r := r + err;
    }
    if rule.httpReqTimeout.Some? {
      r := r + ValidateHTTPTimeout(rule.httpReqTimeout.value);
    }
    if rule.httpReqRetries.Some? {
      r := r + ValidateHTTPRetries(rule.httpReqRetries.value);
    }
    if rule.httpFault.Some? {
      r := r + ValidateHTTPFault(rule.httpFault.value);
    }
    if rule.l4Fault.Some? {
      r := r + ValidateL4Fault(rule.l4Fault.value) + [L4FaultNotImplemented];
    }
  }

  /**
   * ValidateRouteRule: a message of another type is refused with the cast
   * error; otherwise nil exactly for a valid rule. An L4 fault is always
   * refused, and a redirect never coexists with routes, a fault or a rewrite.
   */
  method ValidateRouteRule(env: Env, msg: ConfigMessage) returns (r: Error)
    ensures !msg.RouteRuleMsg? ==> r == [CastRouteRule]
    ensures msg.RouteRuleMsg? ==> (r == [] <==> RouteRuleOk(env, msg.routeRule))
    ensures msg.RouteRuleMsg? && msg.routeRule.l4Fault.Some? ==> L4FaultNotImplemented in r
    ensures msg.RouteRuleMsg? && msg.routeRule.redirect.Some? && |msg.routeRule.route| > 0 ==> RouteAndRedirect in r
  {
    if !msg.RouteRuleMsg? {
      return [CastRouteRule];
    }
    var head := RouteRuleHeadErrors(env, msg.routeRule);
    var tail := RouteRuleTailErrors(msg.routeRule);
    r := head + tail;
  }

  /** ValidateIngressRule: only the destination is checked: present, valid, and without labels. */
  method ValidateIngressRule(msg: ConfigMessage) returns (r: Error)
    ensures !msg.IngressRuleMsg? ==> r == [CastIngressRule]
    ensures msg.IngressRuleMsg? ==>
      (r == [] <==> var d := msg.ingressRule.destination; d.Some? && IstioServiceOk(d.value) && |d.value.labels| == 0)
  {
    if !msg.IngressRuleMsg? {
      return [CastIngressRule];
    }
    r := RuleDestinationErrors(msg.ingressRule.destination, IngressRuleNoDestination, IngressRuleDestinationLabels);
  }

  // ------------------------------------------------------- egress rules

  /** An egress destination carries only a service, which is a CIDR block or an egress domain. */
  predicate EgressDestinationOk(destination: Option<IstioService>)
  {
    destination.Some? &&
    var d := destination.value;
    d.name == "" && d.namespace == "" && d.domain == "" && |d.labels| == 0 && IsEgressRuleService(d.service)
  }

  /** ValidateEgressRuleDestination: nil exactly for a service-only destination with a valid egress service. */
  method ValidateEgressRuleDestination(destination: Option<IstioService>) returns (r: Error)
    ensures r == [] <==> EgressDestinationOk(destination)
    ensures destination.None? ==> r == [EgressNoDestination]
  {
    if destination.None? {
      return [EgressNoDestination];
    }
    var d := destination.value;
    r := [];
    if d.name != "" {
      r := r + [EgressDestinationName];
    }
    if d.namespace != "" {
      r := r + [EgressDestinationNamespace];
    }
    if d.domain != "" {
      r := r + [EgressDestinationDomain];
    }
    if |d.labels| > 0 {
      r := r + [EgressDestinationLabels];
    }
    var err := ValidateEgressRuleService(d.service);
    r := r + err;
  }

  /** ValidateEgressRulePort: a valid port number, then a protocol egress rules support; at most one error. */
  function ValidateEgressRulePort(env: Env, port: EgressPort): (r: Error)
    ensures |r| <= 1
    ensures r == [] <==> IsValidPort(port.port) && port.protocol in env.egressProtocols
    ensures DuplicateEgressPort !in r
  {
    if ValidatePort(port.port) != [] then ValidatePort(port.port)
    else if port.protocol !in env.egressProtocols then [EgressProtocolUnsupported]
    else []
  }

  /** The port numbers of an egress rule, in order. */
  function PortNumbers(ports: seq<EgressPort>): (ns: seq<int>)
    ensures |ns| == |ports| && forall i :: 0 <= i < |ports| ==> ns[i] == ports[i].port
  {
    seq(|ports|, i requires 0 <= i < |ports| => ports[i].port)
  }

  /** A port passes on its own: valid, with an egress protocol, and a TCP protocol when the service is a CIDR block. */
  predicate EgressPortOk(env: Env, port: EgressPort, cidr: bool)
  {
    IsValidPort(port.port) && port.protocol in env.egressProtocols &&
    (cidr ==> port.protocol in env.egressTcpProtocols)
  }

  /** The errors of one egress port, given whether its number was seen before. */
  function EgressPortErrors(env: Env, port: EgressPort, seen: bool, cidr: bool): (e: Error)
    ensures e == [] <==> !seen && EgressPortOk(env, port, cidr)
    ensures Count(e, DuplicateEgressPort) == (if seen then 1 else 0)
  {
    var dup: Error := if seen then [DuplicateEgressPort] else [];
    var own := ValidateEgressRulePort(env, port) + (if cidr && port.protocol !in env.egressTcpProtocols then [CidrProtocolUnsupported] else []);
    assert [DuplicateEgressPort][..0] == [];
    CountAbsent(own, DuplicateEgressPort);
    CountConcat(dup, own, DuplicateEgressPort);
    dup + own
  }

  /**
   * The port loop of ValidateEgressRule: one "duplicate port" error per
   * port whose number repeats an earlier one; nil exactly when the numbers
   * are distinct and every port passes.
   */
  method EgressPortsErrors(env: Env, ports: seq<EgressPort>, cidr: bool) returns (e: Error)
    ensures Count(e, DuplicateEgressPort) == Repeats(PortNumbers(ports))
    ensures e == [] <==> Distinct(PortNumbers(ports)) && forall i :: 0 <= i < |ports| ==> EgressPortOk(env, ports[i], cidr)
  {
    var numbers := PortNumbers(ports);
    e := [];
    var seen: set<int> := {};
    for i := 0 to |ports|
      invariant seen == Elems(numbers[..i])
      invariant Count(e, DuplicateEgressPort) == Repeats(numbers[..i])
      invariant e == [] <==> Repeats(numbers[..i]) == 0 && forall j :: 0 <= j < i ==> EgressPortOk(env, ports[j], cidr)
    {
      var err := EgressPortErrors(env, ports[i], ports[i].port in seen, cidr);
      EgressPortsStep(env, ports, cidr, numbers, i, e, err);
      e := e + err;
      seen := seen + {ports[i].port};
    }
    assert numbers[..|ports|] == numbers;
    RepeatsDistinct(numbers);
  }

  /** One step of the port loop: the count and the nil test carry over to the next prefix. */
  lemma EgressPortsStep(env: Env, ports: seq<EgressPort>, cidr: bool, numbers: seq<int>, i: int, e: Error, err: Error)
    requires numbers == PortNumbers(ports) && 0 <= i < |ports|
    requires Count(e, DuplicateEgressPort) == Repeats(numbers[..i])
    requires e == [] <==> Repeats(numbers[..i]) == 0 && forall j :: 0 <= j < i ==> EgressPortOk(env, ports[j], cidr)
    requires err == EgressPortErrors(env, ports[i], ports[i].port in Elems(numbers[..i]), cidr)
    ensures Elems(numbers[..i + 1]) == Elems(numbers[..i]) + {ports[i].port}
    ensures Count(e + err, DuplicateEgressPort) == Repeats(numbers[..i + 1])
    ensures e + err == [] <==> Repeats(numbers[..i + 1]) == 0 && forall j :: 0 <= j < i + 1 ==> EgressPortOk(env, ports[j], cidr)
  {
    RepeatsStep(numbers, i);
    CountConcat(e, err, DuplicateEgressPort);
  }

  predicate EgressRuleOk(env: Env, rule: EgressRule)
  {
    var cidr := rule.destination.Some? && Occurrences(rule.destination.value.service, '/') == 1;
    && EgressDestinationOk(rule.destination)
    && |rule.ports| > 0
    && Distinct(PortNumbers(rule.ports))
    && (forall i :: 0 <= i < |rule.ports| ==> EgressPortOk(env, rule.ports[i], cidr))
    && !rule.useEgressProxy
  }

  /**
   * ValidateEgressRule: nil exactly for a valid destination, a non-empty
   * list of distinct, supported ports (TCP ones for a CIDR service), and
   * no egress proxy, which is always refused.
   */
  method ValidateEgressRule(env: Env, msg: ConfigMessage) returns (r: Error)
    ensures !msg.EgressRuleMsg? ==> r == [CastEgressRule]
    ensures msg.EgressRuleMsg? ==> (r == [] <==> EgressRuleOk(env, msg.egressRule))
    ensures msg.EgressRuleMsg? && msg.egressRule.useEgressProxy ==> EgressProxyUnsupported in r
  {
    if !msg.EgressRuleMsg? {
      return [CastEgressRule];
    }
    var rule := msg.egressRule;
    r := ValidateEgressRuleDestination(rule.destination);
    if |rule.ports| == 0 {
      r := r + [EgressNoPorts];
    }
    var cidr := rule.destination.Some? && Occurrences(rule.destination.value.service, '/') == 1;
    var err := EgressPortsErrors(env, rule.ports, cidr);
    r := r + err;
    if rule.useEgressProxy {
      r := r + [EgressProxyUnsupported];
    }
  }

  // -------------------------------------------------- destination policy

  predicate DestinationPolicyOk(policy: DestinationPolicy)
  {
    && policy.destination.Some? && IstioServiceOk(policy.destination.value)
    && (policy.source.Some? ==> IstioServiceOk(policy.source.value))
    && (policy.loadBalancing.Some? ==> policy.loadBalancing.value.lbPolicy.Some?)
    && (policy.circuitBreaker.Some? ==> ValidateCircuitBreaker(policy.circuitBreaker.value) == [])
  }

  /** ValidateDestinationPolicy: a valid destination, and a valid source, load balancing and breaker when given. */
  method ValidateDestinationPolicy(msg: ConfigMessage) returns (r: Error)
    ensures !msg.DestinationPolicyMsg? ==> r == [CastDestinationPolicy]
    ensures msg.DestinationPolicyMsg? ==> (r == [] <==> DestinationPolicyOk(msg.destinationPolicy))
    ensures msg.DestinationPolicyMsg? && msg.destinationPolicy.destination.None? ==> PolicyNoDestination in r
  {
    if !msg.DestinationPolicyMsg? {
      return [CastDestinationPolicy];
    }
    var policy := msg.destinationPolicy;
    r := [];
    if policy.destination.None? {
      r := r + [PolicyNoDestination];
    } else {
      var err := ValidateIstioService(policy.destination.value);
      r := r + err;
    }
    if policy.source.Some? {
      var err := ValidateIstioService(policy.source.value);
      r := r + err;
    }
    if policy.loadBalancing.Some? {
      r := r + ValidateLoadBalancing(policy.loadBalancing.value);
    }
    if policy.circuitBreaker.Some? {
      r := r + ValidateCircuitBreaker(policy.circuitBreaker.value);
    }
  }
}
