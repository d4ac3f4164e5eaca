/**
 * Virtual services (networking v1alpha3): hosts, the gateways they bind
 * to, and HTTP routes with their destinations, weights, faults, retries,
 * redirects, rewrites and CORS policies.
 */
module VirtualServices {
  import opened Wrappers
  import opened Errors
  import opened Durations
  import opened Domains
  import opened Messages
  import opened Primitives
  import opened RouteParts

  const CastVirtualService := "cannot cast to virtual service"
  const GatewayNotLabel := "gateway is not a valid DNS1123 label"
  const NoVirtualServiceHosts := "virtual service must have at least one host"
  const MeshWildcardHost := "wildcard host * is not allowed for virtual services bound to the mesh gateway"
  const DuplicateHosts := "duplicate hosts in virtual service"
  const NoHTTPOrTCP := "http or tcp must be provided in virtual service"
  const HTTPRouteAndRedirect := "HTTP route cannot contain both route and redirect"
  const HTTPFaultAndRedirect := "HTTP route cannot contain both fault and redirect"
  const HTTPRewriteAndRedirect := "HTTP route rule cannot contain both rewrite and redirect"
  const HTTPWebsocketOnRedirect := "WebSocket upgrade is not allowed on redirect rules"
  const RouteOrRedirectRequired := "HTTP route or redirect is required"
  const DestinationRequired := "destination is required"
  const TotalWeightOver := "total destination weight > 100"
  const FaultNeedsAbortOrDelay := "HTTP fault injection must have an abort and/or a delay"
  const GrpcAbortNotSupported := "gRPC abort fault injection not supported yet"
  const Http2AbortNotSupported := "HTTP/2 abort fault injection not supported yet"
  const AttemptsNotPositive := "attempts must be positive"
  const RedirectNeedsTarget := "redirect must specify URI, authority, or both"
  const RewriteNeedsTarget := "rewrite must specify URI, authority, or both"

  // ---------------------------------------------------------------- CORS

  /** validateCORSPolicy: the same acceptance as the v1alpha1 CORS checks, methods checked first. */
  method ValidateCORSPolicy(policy: Option<CorsPolicy>) returns (r: Error)
    ensures r == [] <==> (policy.Some? ==> CorsOk(policy.value))
  {
    if policy.None? {
      return [];
    }
    var c := policy.value;
    var methods := HTTPMethodsErrors(c.allowMethods);
    var allowed := HeaderNamesErrors(c.allowHeaders);
    var exposed := HeaderNamesErrors(c.exposeHeaders);
    r := methods + allowed + exposed + MaxAgeErrors(c.maxAge);
  }

  // ------------------------------------------------------ fault injection

  predicate FaultAbortOk(a: FaultAbort)
  {
    0 <= a.percent <= PercentMax && !a.errorType.GrpcStatus? && !a.errorType.Http2Error? &&
    (a.errorType.HttpStatus? ==> 0 <= a.errorType.status <= HTTPStatusMax)
  }

  /**
   * validateHTTPFaultInjectionAbort: a percentage and an HTTP status in
   * 0..600; gRPC and HTTP/2 aborts are always refused; an unset error type passes.
   */
  function ValidateFaultAbort(abort: Option<FaultAbort>): (r: Error)
    ensures r == [] <==> (abort.Some? ==> FaultAbortOk(abort.value))
    ensures abort.Some? && abort.value.errorType.GrpcStatus? ==> GrpcAbortNotSupported in r
    ensures |r| <= 2
  {
    if abort.None? then []
    else
      ValidatePercent(abort.value.percent) +
      match abort.value.errorType
      case GrpcStatus(_) => [GrpcAbortNotSupported]
      case Http2Error(_) => [Http2AbortNotSupported]
      case HttpStatus(status) => ValidateHTTPStatus(status)
      case AbortUnset => []
  }

  predicate FaultDelayOk(d: FaultDelay)
  {
    0 <= d.percent <= PercentMax && !d.delayType.ExponentialDelay? &&
    (d.delayType.FixedDelay? ==> IsValidDuration(Some(d.delayType.fixed)))
  }

  /**
   * validateHTTPFaultInjectionDelay: a percentage and a valid fixed delay;
   * an exponential delay is always refused; an unset delay type passes.
   */
  function ValidateFaultDelay(delay: Option<FaultDelay>): (r: Error)
    ensures r == [] <==> (delay.Some? ==> FaultDelayOk(delay.value))
    ensures delay.Some? && delay.value.delayType.ExponentialDelay? ==> ExponentialDelayUnsupported in r
  {
    if delay.None? then []
    else
      ValidatePercent(delay.value.percent) +
      match delay.value.delayType
      case FixedDelay(d) => ValidateDuration(Some(d))
      case ExponentialDelay(d) => ValidateDuration(Some(d)) + [ExponentialDelayUnsupported]
      case DelayUnset => []
  }

  predicate FaultInjectionOk(f: FaultInjection)
  {
    (f.abort.Some? || f.delay.Some?) &&
    (f.abort.Some? ==> FaultAbortOk(f.abort.value)) && (f.delay.Some? ==> FaultDelayOk(f.delay.value))
  }

  /** validateHTTPFaultInjection: an abort, a delay or both, each valid. */
  function ValidateHTTPFaultInjection(fault: Option<FaultInjection>): (r: Error)
    ensures r == [] <==> (fault.Some? ==> FaultInjectionOk(fault.value))
    ensures fault == Some(FaultInjection(None, None)) ==> r == [FaultNeedsAbortOrDelay]
  {
    if fault.None? then []
    else
      (if fault.value.abort.None? && fault.value.delay.None? then [FaultNeedsAbortOrDelay] else [])
      + ValidateFaultAbort(fault.value.abort) + ValidateFaultDelay(fault.value.delay)
  }

  // -------------------------------------------------- destinations, retries

  predicate DestinationOk(d: Destination)
  {
    (IsWildcardDomain(d.host) || IsIPv4Subnet(d.host)) &&
    (d.subset != "" ==> IsDNS1123Label(d.subset)) &&
    ValidatePortSelector(d.port) == []
  }

  /**
   * validateDestination: nothing to check without one; otherwise a host, a
   * subset name when one is given, and a port selector when one is given.
   */
  method ValidateDestination(destination: Option<Destination>) returns (r: Error)
    ensures r == [] <==> (destination.Some? ==> DestinationOk(destination.value))
  {
    if destination.None? {
      return [];
    }
    var d := destination.value;
    r := ValidateHost(d.host);
    if d.subset != "" {
      r := r + ValidateSubsetName(d.subset);
    }
    r := r + ValidatePortSelector(d.port);
  }

  /** validateHTTPRetry: a positive number of attempts and a valid per-try timeout when one is given. */
  function ValidateHTTPRetry(retries: Option<RetryPolicy>): (r: Error)
    ensures r == [] <==>
      (retries.Some? ==>
         (retries.value.attempts > 0 &&
          (retries.value.perTryTimeout.Some? ==> IsValidDuration(retries.value.perTryTimeout))))
    ensures retries.Some? && retries.value.attempts <= 0 ==> AttemptsNotPositive in r
  {
    if retries.None? then []
    else
      (if retries.value.attempts <= 0 then [AttemptsNotPositive] else [])
      + (if retries.value.perTryTimeout.Some? then ValidateDuration(retries.value.perTryTimeout) else [])
  }

  /** validateHTTPRedirect: a redirect names a URI or an authority. */
  function ValidateHTTPRedirect(redirect: Option<HTTPRedirect>): (r: Error)
    ensures |r| <= 1
    ensures r == [] <==> (redirect.Some? ==> redirect.value.uri != "" || redirect.value.authority != "")
  {
    if redirect.Some? && redirect.value.uri == "" && redirect.value.authority == "" then [RedirectNeedsTarget] else []
  }

  /** validateHTTPRewrite: a rewrite names a URI or an authority. */
  function ValidateHTTPRewrite(rewrite: Option<HTTPRewrite>): (r: Error)
    ensures |r| <= 1
    ensures r == [] <==> (rewrite.Some? ==> rewrite.value.uri != "" || rewrite.value.authority != "")
  {
    if rewrite.Some? && rewrite.value.uri == "" && rewrite.value.authority == "" then [RewriteNeedsTarget] else []
  }

  // ---------------------------------------------------------- HTTP routes

  /**
   * The conflicts of a route: a redirect excludes routes, a fault, a
   * rewrite and a WebSocket upgrade; without a redirect there must be routes.
   */
  predicate RedirectConflictFree(http: HTTPRoute)
  {
    if http.redirect.Some? then |http.route| == 0 && http.fault.None? && http.rewrite.None? && !http.websocketUpgrade
    else |http.route| > 0
  }

  function RedirectConflictErrors(http: HTTPRoute): (e: Error)
    ensures e == [] <==> RedirectConflictFree(http)
    ensures http.redirect.None? && |http.route| == 0 ==> e == [RouteOrRedirectRequired]
    ensures http.redirect.Some? && |http.route| > 0 ==> HTTPRouteAndRedirect in e
  {
    if http.redirect.Some? then
      (if |http.route| > 0 then [HTTPRouteAndRedirect] else [])
      + (if http.fault.Some? then [HTTPFaultAndRedirect] else [])
      + (if http.rewrite.Some? then [HTTPRewriteAndRedirect] else [])
      + (if http.websocketUpgrade then [HTTPWebsocketOnRedirect] else [])
    else if |http.route| == 0 then [RouteOrRedirectRequired]
    else []
  }

  /** Header names of a match are lower case and non-empty; its source labels are valid tags. */
  predicate MatchRequestOk(m: HTTPMatchRequest)
  {
    (forall k :: k in m.headers ==> k != "" && !HasUpper(k)) && ValidTags(m.sourceLabels)
  }

  method ValidateMatchRequest(m: HTTPMatchRequest) returns (r: Error)
    ensures r == [] <==> MatchRequestOk(m)
  {
    r := CheckEachEntry(m.headers, (k: string, v: StringMatch) => ValidateHTTPHeaderName(k));
    var err := ValidateLabels(m.sourceLabels);
    r := r + err;
  }

  /** The two's-complement reading of an integer as an int32, as Go's int32 addition wraps. */
  function Wrap32(x: int): (w: int)
    ensures -0x8000_0000 <= w < 0x8000_0000
    ensures (w - x) % 0x1_0000_0000 == 0
    ensures -0x8000_0000 <= x < 0x8000_0000 ==> w == x
  {
    (x + 0x8000_0000) % 0x1_0000_0000 - 0x8000_0000
  }

  /** The int32 running total of the route weights, wrapping at each addition. */
  function Total32(routes: seq<RouteDestination>): int
  {
    if |routes| == 0 then 0 else Wrap32(Total32(routes[..|routes| - 1]) + routes[|routes| - 1].weight)
  }

  /** The mathematical total of the route weights. */
  function WeightSum(routes: seq<RouteDestination>): int
  {
    if |routes| == 0 then 0 else WeightSum(routes[..|routes| - 1]) + routes[|routes| - 1].weight
  }

  /** With valid weights and fewer than 2^24 routes the int32 total never wraps. */
  lemma {:induction false} Total32NoWrap(routes: seq<RouteDestination>)
    requires |routes| < 0x100_0000
    requires forall i :: 0 <= i < |routes| ==> 0 <= routes[i].weight <= PercentMax
    ensures Total32(routes) == WeightSum(routes)
    ensures 0 <= WeightSum(routes) <= PercentMax * |routes|
    decreases |routes|
  {
    if |routes| > 0 {
      var init := routes[..|routes| - 1];
      assert forall i :: 0 <= i < |init| ==> init[i] == routes[i];
      Total32NoWrap(init);
    }
  }

  predicate RouteDestinationOk(rd: RouteDestination)
  {
    rd.destination.Some? && DestinationOk(rd.destination.value) && 0 <= rd.weight <= PercentMax
  }

  /** The checks of one weighted destination: present ("destination is required" otherwise), valid, with a percentage weight. */
  method RouteDestinationEntryErrors(rd: RouteDestination) returns (e: Error)
    ensures e == [] <==> RouteDestinationOk(rd)
    ensures rd.destination.None? ==> DestinationRequired in e
  {
    e := if rd.destination.None? then [DestinationRequired] else [];
    var err := ValidateDestination(rd.destination);
    e := e + err + ValidatePercent(rd.weight);
  }

  /**
   * The destination loop of validateHTTPRoute: each entry needs a valid
   * destination and a percentage weight; the weights are summed in an int32.
   */
  method RouteDestinationErrors(routes: seq<RouteDestination>) returns (e: Error, total: int)
    ensures e == [] <==> forall i :: 0 <= i < |routes| ==> RouteDestinationOk(routes[i])
    ensures total == Total32(routes)
  {
    e := [];
    total := 0;
    for i := 0 to |routes|
      invariant e == [] <==> forall j :: 0 <= j < i ==> RouteDestinationOk(routes[j])
      invariant total == Total32(routes[..i])
    {
      var err := RouteDestinationEntryErrors(routes[i]);
      RouteDestinationsStep(routes, i, e, err);
      e := e + err;
      total := AddWeight(routes, i, total);
    }
    assert routes[..|routes|] == routes;
  }

  /** One step of the route loop: the nil test carries over to the next prefix. */
  lemma RouteDestinationsStep(routes: seq<RouteDestination>, i: int, e: Error, err: Error)
    requires 0 <= i < |routes|
    requires e == [] <==> forall j :: 0 <= j < i ==> RouteDestinationOk(routes[j])
    requires err == [] <==> RouteDestinationOk(routes[i])
    ensures e + err == [] <==> forall j :: 0 <= j < i + 1 ==> RouteDestinationOk(routes[j])
  {
  }

  /** One step of the int32 running total. */
  function AddWeight(routes: seq<RouteDestination>, i: int, total: int): (t: int)
    requires 0 <= i < |routes| && total == Total32(routes[..i])
    ensures t == Total32(routes[..i + 1])
  {
    assert routes[..i + 1][..i] == routes[..i];
    Wrap32(total + routes[i].weight)
  }

  /** Weights of several routes may not total more than 100; a total below 100 is accepted. */
  predicate WeightsOk(routes: seq<RouteDestination>)
  {
    |routes| > 1 ==> Total32(routes) <= PercentMax
  }

  predicate HTTPRouteOk(http: HTTPRoute)
  {
    && RedirectConflictFree(http)
    && (forall k :: k in http.appendHeaders ==> k != "" && !HasUpper(k))
    && (http.corsPolicy.Some? ==> CorsOk(http.corsPolicy.value))
    && (http.fault.Some? ==> FaultInjectionOk(http.fault.value))
    && (forall i :: 0 <= i < |http.matches| ==> MatchRequestOk(http.matches[i]))
    && (http.mirror.Some? ==> DestinationOk(http.mirror.value))
    && ValidateHTTPRedirect(http.redirect) == []
    && ValidateHTTPRetry(http.retries) == []
    && ValidateHTTPRewrite(http.rewrite) == []
    && (forall i :: 0 <= i < |http.route| ==> RouteDestinationOk(http.route[i]))
    && WeightsOk(http.route)
    && (http.timeout.Some? ==> IsValidDuration(http.timeout))
  }

  /** The checks of validateHTTPRoute before the destination loop, split off to keep each proof small. */
  method HTTPRouteHeadErrors(http: HTTPRoute) returns (r: Error)
    ensures r == [] <==>
      && RedirectConflictFree(http)
      && (forall k :: k in http.appendHeaders ==> k != "" && !HasUpper(k))
      && (http.corsPolicy.Some? ==> CorsOk(http.corsPolicy.value))
      && (http.fault.Some? ==> FaultInjectionOk(http.fault.value))
    ensures http.redirect.Some? && |http.route| > 0 ==> HTTPRouteAndRedirect in r
  {
    r := RedirectConflictErrors(http);
    var err := CheckEachEntry(http.appendHeaders, (k: string, v: string) => ValidateHTTPHeaderName(k));
    r := r + err;
    err := ValidateCORSPolicy(http.corsPolicy);
    r := r + err;
    r := r + ValidateHTTPFaultInjection(http.fault);
  }

  method MatchRequestsErrors(matches: seq<HTTPMatchRequest>) returns (r: Error)
    ensures r == [] <==> forall i :: 0 <= i < |matches| ==> MatchRequestOk(matches[i])
  {
    r := [];
    for i := 0 to |matches|
      invariant r == [] <==> forall j :: 0 <= j < i ==> MatchRequestOk(matches[j])
    {
      var err := ValidateMatchRequest(matches[i]);
      r := r + err;
    }
  }

  /**
   * validateHTTPRoute: nil exactly for a route that passes every check;
   * several weighted routes totalling over 100 (as an int32) are refused.
   */
  method ValidateHTTPRoute(http: HTTPRoute) returns (r: Error)
    ensures r == [] <==> HTTPRouteOk(http)
    ensures http.redirect.Some? && |http.route| > 0 ==> HTTPRouteAndRedirect in r
    ensures |http.route| > 1 && Total32(http.route) > PercentMax ==> TotalWeightOver in r
  {
    var head := HTTPRouteHeadErrors(http);
    var matches := MatchRequestsErrors(http.matches);
    var mirror := ValidateDestination(http.mirror);
    var simple := ValidateHTTPRedirect(http.redirect) + ValidateHTTPRetry(http.retries) + ValidateHTTPRewrite(http.rewrite);
    var routes, total := RouteDestinationErrors(http.route);
    var weights := WeightErrors(http.route, total);
    var timeout := TimeoutErrors(http.timeout);
    r := head + matches + mirror + simple + routes + weights + timeout;
  }

  /** The total-weight check of validateHTTPRoute, given the int32 total of the routes. */
  function WeightErrors(routes: seq<RouteDestination>, total: int): (e: Error)
    requires total == Total32(routes)
    ensures e == [] <==> WeightsOk(routes)
    ensures !WeightsOk(routes) ==> e == [TotalWeightOver]
  {
    if |routes| > 1 && total > PercentMax then [TotalWeightOver] else []
  }

  /** The timeout of a route: checked only when set. */
  function TimeoutErrors(timeout: Option<Duration>): (e: Error)
    ensures e == [] <==> (timeout.Some? ==> IsValidDuration(timeout))
  {
    if timeout.Some? then ValidateDuration(timeout) else []
  }

  /**
   * Unlike the v1alpha1 weights, which must total exactly 100, the weights
   * of valid destinations only may not total more than 100: any partial
   * split passes.
   */
  lemma PartialSplitAccepted(routes: seq<RouteDestination>)
    requires |routes| < 0x100_0000
    requires forall i :: 0 <= i < |routes| ==> RouteDestinationOk(routes[i])
    ensures WeightsOk(routes) <==> |routes| <= 1 || WeightSum(routes) <= PercentMax
  {
    Total32NoWrap(routes);
  }

  // ------------------------------------------------------ virtual service

  /** The service binds to the mesh: no gateways, or the mesh gateway among them. */
  predicate AppliesToMesh(env: Env, vs: VirtualService)
  {
    |vs.gateways| == 0 || env.meshGateway in vs.gateways
  }

  /** A host of the service: a wildcard domain or an IPv4 subnet, and not "*" when bound to the mesh. */
  predicate HostOk(mesh: bool, host: string)
  {
    (IsWildcardDomain(host) || IsIPv4Subnet(host)) && !(mesh && host == "*")
  }

  /** No host matches a later host. */
  predicate HostsDisjoint(env: Env, hosts: seq<string>)
  {
    forall i, j :: 0 <= i < j < |hosts| ==> (hosts[i], hosts[j]) !in env.hostMatches
  }

  predicate VirtualServiceOk(env: Env, vs: VirtualService)
  {
    && (forall i :: 0 <= i < |vs.gateways| ==> IsDNS1123Label(vs.gateways[i]))
    && |vs.hosts| > 0
    && (forall i :: 0 <= i < |vs.hosts| ==> HostOk(AppliesToMesh(env, vs), vs.hosts[i]))
    && HostsDisjoint(env, vs.hosts)
    && (|vs.http| > 0 || vs.tcpRoutes > 0)
    && (forall i :: 0 <= i < |vs.http| ==> HTTPRouteOk(vs.http[i]))
  }

  /** The gateway loop: one error per gateway that is not a label, and whether the mesh gateway is bound. */
  method GatewaysErrors(env: Env, gateways: seq<string>) returns (r: Error, mesh: bool)
    ensures r == [] <==> forall i :: 0 <= i < |gateways| ==> IsDNS1123Label(gateways[i])
    ensures mesh <==> |gateways| == 0 || env.meshGateway in gateways
  {
    r := [];
    mesh := |gateways| == 0;
    for i := 0 to |gateways|
      invariant r == [] <==> forall j :: 0 <= j < i ==> IsDNS1123Label(gateways[j])
      invariant mesh <==> |gateways| == 0 || env.meshGateway in gateways[..i]
    {
      if !IsDNS1123Label(gateways[i]) {
        r := r + [GatewayNotLabel];
      }
      if gateways[i] == env.meshGateway {
        mesh := true;
      }
      assert gateways[..i + 1] == gateways[..i] + [gateways[i]];
    }
    assert gateways[..|gateways|] == gateways;
  }

  /** The host loop: each host is valid, and "*" is refused when the service binds to the mesh. */
  method HostsErrors(mesh: bool, hosts: seq<string>) returns (r: Error)
    ensures r == [] <==> forall i :: 0 <= i < |hosts| ==> HostOk(mesh, hosts[i])
    ensures mesh && "*" in hosts ==> MeshWildcardHost in r
  {
    r := [];
    for i := 0 to |hosts|
      invariant r == [] <==> forall j :: 0 <= j < i ==> HostOk(mesh, hosts[j])
      invariant mesh && "*" in hosts[..i] ==> MeshWildcardHost in r
    {
      var err := ValidateHost(hosts[i]);
      WildcardDomainStar();
      if err != [] {
        r := r + err;
      } else if mesh && hosts[i] == "*" {
        r := r + [MeshWildcardHost];
      }
      assert hosts[..i + 1] == hosts[..i] + [hosts[i]];
    }
    assert hosts[..|hosts|] == hosts;
  }

  /** The duplicate-host loop: one error for each pair of hosts the earlier of which matches the later. */
  method DuplicateHostsErrors(env: Env, hosts: seq<string>) returns (r: Error)
    ensures r == [] <==> HostsDisjoint(env, hosts)
    ensures forall k :: 0 <= k < |r| ==> r[k] == DuplicateHosts
  {
    r := [];
    for i := 0 to |hosts|
      invariant r == [] <==> forall a, b :: 0 <= a < i && a < b < |hosts| ==> (hosts[a], hosts[b]) !in env.hostMatches
      invariant forall k :: 0 <= k < |r| ==> r[k] == DuplicateHosts
    {
      for j := i + 1 to |hosts|
        invariant r == [] <==>
          (forall a, b :: 0 <= a < i && a < b < |hosts| ==> (hosts[a], hosts[b]) !in env.hostMatches) &&
          (forall b :: i < b < j ==> (hosts[i], hosts[b]) !in env.hostMatches)
        invariant forall k :: 0 <= k < |r| ==> r[k] == DuplicateHosts
      {
        if (hosts[i], hosts[j]) in env.hostMatches {
          r := r + [DuplicateHosts];
        }
      }
    }
  }

  method HTTPRoutesErrors(http: seq<HTTPRoute>) returns (r: Error)
    ensures r == [] <==> forall i :: 0 <= i < |http| ==> HTTPRouteOk(http[i])
  {
    r := [];
    for i := 0 to |http|
      invariant r == [] <==> forall j :: 0 <= j < i ==> HTTPRouteOk(http[j])
    {
      var err := ValidateHTTPRoute(http[i]);
      r := r + err;
    }
  }

  /**
   * ValidateVirtualService: nil exactly for a service with label gateways,
   * valid hosts no two of which match, some routes, and valid HTTP routes.
   * Duplicate hosts are looked for only once every host is valid.
   */
  method ValidateVirtualService(env: Env, msg: ConfigMessage) returns (r: Error)
    ensures !msg.VirtualServiceMsg? ==> r == [CastVirtualService]
    ensures msg.VirtualServiceMsg? ==> (r == [] <==> VirtualServiceOk(env, msg.virtualService))
    ensures msg.VirtualServiceMsg? && AppliesToMesh(env, msg.virtualService) && "*" in msg.virtualService.hosts ==>
      MeshWildcardHost in r
  {
    if !msg.VirtualServiceMsg? {
      return [CastVirtualService];
    }
    var vs := msg.virtualService;
    var mesh;
    r, mesh := GatewaysErrors(env, vs.gateways);
    if |vs.hosts| == 0 {
      r := r + [NoVirtualServiceHosts];
    }
    var hostErrs := HostsErrors(mesh, vs.hosts);
    r := r + hostErrs;
    if hostErrs == [] {
      var err := DuplicateHostsErrors(env, vs.hosts);
      r := r + err;
    }
    if |vs.http| == 0 && vs.tcpRoutes == 0 {
      r := r + [NoHTTPOrTCP];
    }
    var err := HTTPRoutesErrors(vs.http);
    r := r + err;
  }
}
