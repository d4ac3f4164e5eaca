/**
 * Destination rules (networking v1alpha3): a host, an optional traffic
 * policy (outlier detection, connection pool, load balancer, TLS), and
 * named subsets, each with labels and an optional policy of its own.
 */
module DestinationRules {
  import opened Wrappers
  import opened Errors
  import opened Durations
  import opened Domains
  import opened Messages
  import opened Primitives

  const CastDestinationRule := "cannot cast to destination rule"
  const EmptyTrafficPolicy := "traffic policy must have at least one field"
  const NegativeConsecutiveErrors := "outlier detection consecutive errors cannot be negative"
  const EmptyConnectionPool := "connection pool must have at least one field"
  const NegativePendingRequests := "http1 max pending requests must be non-negative"
  const NegativeHttp2Requests := "http2 max requests must be non-negative"
  const NegativeRequestsPerConnection := "max requests per connection must be non-negative"
  const NegativeRetries := "max retries must be non-negative"
  const NegativeConnections := "max connections must be non-negative"
  const ClientCertificateRequired := "client certificate required for mutual tls"
  const PrivateKeyRequired := "private key required for mutual tls"

  predicate OutlierDetectionOk(o: OutlierDetection)
  {
    && (o.baseEjectionTime.Some? ==> IsValidDuration(o.baseEjectionTime))
    && o.consecutiveErrors >= 0
    && (o.interval.Some? ==> IsValidDuration(o.interval))
    && 0 <= o.maxEjectionPercent <= PercentMax
  }

  /** validateOutlierDetection: nothing to check without a block; otherwise durations, a count and a percentage. */
  function ValidateOutlierDetection(outlier: Option<OutlierDetection>): (r: Error)
    ensures r == [] <==> (outlier.Some? ==> OutlierDetectionOk(outlier.value))
    ensures |r| <= 4
  {
    if outlier.None? then []
    else
      var o := outlier.value;
      (if o.baseEjectionTime.Some? then ValidateDuration(o.baseEjectionTime) else [])
      + (if o.consecutiveErrors < 0 then [NegativeConsecutiveErrors] else [])
      + (if o.interval.Some? then ValidateDuration(o.interval) else [])
      + ValidatePercent(o.maxEjectionPercent)
  }

  predicate ConnectionPoolOk(c: ConnectionPoolSettings)
  {
    && (c.http.Some? || c.tcp.Some?)
    && (c.http.Some? ==>
          var h := c.http.value;
          h.http1MaxPendingRequests >= 0 && h.http2MaxRequests >= 0 &&
          h.maxRequestsPerConnection >= 0 && h.maxRetries >= 0)
    && (c.tcp.Some? ==>
          c.tcp.value.maxConnections >= 0 &&
          (c.tcp.value.connectTimeout.Some? ==> IsValidDuration(c.tcp.value.connectTimeout)))
  }

  /**
   * validateConnectionPool: a block with neither HTTP nor TCP settings is
   * the single "at least one field" error; every limit is non-negative.
   */
  function ValidateConnectionPool(settings: Option<ConnectionPoolSettings>): (r: Error)
    ensures r == [] <==> (settings.Some? ==> ConnectionPoolOk(settings.value))
    ensures settings.Some? && settings.value.http.None? && settings.value.tcp.None? ==> r == [EmptyConnectionPool]
  {
    if settings.None? then []
    else if settings.value.http.None? && settings.value.tcp.None? then [EmptyConnectionPool]
    else
      (if settings.value.http.None? then []
       else
         var h := settings.value.http.value;
         (if h.http1MaxPendingRequests < 0 then [NegativePendingRequests] else [])
         + (if h.http2MaxRequests < 0 then [NegativeHttp2Requests] else [])
         + (if h.maxRequestsPerConnection < 0 then [NegativeRequestsPerConnection] else [])
         + (if h.maxRetries < 0 then [NegativeRetries] else []))
      + (if settings.value.tcp.None? then []
         else
           var t := settings.value.tcp.value;
           (if t.maxConnections < 0 then [NegativeConnections] else [])
           + (if t.connectTimeout.Some? then ValidateDuration(t.connectTimeout) else []))
  }

  /** validateLoadBalancer: every load-balancer setting is accepted. */
  function ValidateLoadBalancer(settings: Option<LoadBalancerSettings>): (r: Error)
    ensures r == []
  {
    []
  }

  predicate TLSSettingsOk(t: TLSSettings)
  {
    t.mode == TlsSettingsMutual ==> t.clientCertificate != "" && t.privateKey != ""
  }

  /** validateTLS: only mutual TLS has requirements, a client certificate and a private key. */
  function ValidateTLS(settings: Option<TLSSettings>): (r: Error)
    ensures r == [] <==> (settings.Some? ==> TLSSettingsOk(settings.value))
    ensures |r| <= 2
    ensures settings.Some? && settings.value.mode != TlsSettingsMutual ==> r == []
  {
    if settings.None? || settings.value.mode != TlsSettingsMutual then []
    else
      (if settings.value.clientCertificate == "" then [ClientCertificateRequired] else [])
      + (if settings.value.privateKey == "" then [PrivateKeyRequired] else [])
  }

  predicate TrafficPolicyOk(p: TrafficPolicy)
  {
    && (p.outlierDetection.Some? || p.connectionPool.Some? || p.loadBalancer.Some? || p.tls.Some?)
    && (p.outlierDetection.Some? ==> OutlierDetectionOk(p.outlierDetection.value))
    && (p.connectionPool.Some? ==> ConnectionPoolOk(p.connectionPool.value))
    && (p.tls.Some? ==> TLSSettingsOk(p.tls.value))
  }

  /** validateTrafficPolicy: a policy with no field set is the single "at least one field" error. */
  function ValidateTrafficPolicy(policy: Option<TrafficPolicy>): (r: Error)
    ensures r == [] <==> (policy.Some? ==> TrafficPolicyOk(policy.value))
    ensures policy.Some? && policy.value == TrafficPolicy(None, None, None, None) ==> r == [EmptyTrafficPolicy]
  {
    if policy.None? then []
    else
      var p := policy.value;
      if p.outlierDetection.None? && p.connectionPool.None? && p.loadBalancer.None? && p.tls.None? then [EmptyTrafficPolicy]
      else
        ValidateOutlierDetection(p.outlierDetection) + ValidateConnectionPool(p.connectionPool)
        + ValidateLoadBalancer(p.loadBalancer) + ValidateTLS(p.tls)
  }

  predicate SubsetOk(s: Subset)
  {
    IsDNS1123Label(s.name) && ValidTags(s.labels) && (s.trafficPolicy.Some? ==> TrafficPolicyOk(s.trafficPolicy.value))
  }

  /** validateSubset: a DNS-1123 label as name, valid labels, and a valid policy when given. */
  method ValidateSubset(s: Subset) returns (r: Error)
    ensures r == [] <==> SubsetOk(s)
    ensures s.name == "" ==> EmptySubsetName in r
  {
    var labelErrs := ValidateLabels(s.labels);
    r := ValidateSubsetName(s.name) + labelErrs + ValidateTrafficPolicy(s.trafficPolicy);
  }

  predicate DestinationRuleOk(rule: DestinationRule)
  {
    && (IsWildcardDomain(rule.host) || IsIPv4Subnet(rule.host))
    && (rule.trafficPolicy.Some? ==> TrafficPolicyOk(rule.trafficPolicy.value))
    && (forall i :: 0 <= i < |rule.subsets| ==> SubsetOk(rule.subsets[i]))
  }

  /**
   * ValidateDestinationRule: nil exactly for a host that is a wildcard
   * domain or an IPv4 subnet, a valid policy and valid subsets. Subset
   * names need not be distinct.
   */
  method ValidateDestinationRule(msg: ConfigMessage) returns (r: Error)
    ensures !msg.DestinationRuleMsg? ==> r == [CastDestinationRule]
    ensures msg.DestinationRuleMsg? ==> (r == [] <==> DestinationRuleOk(msg.destinationRule))
  {
    if !msg.DestinationRuleMsg? {
      return [CastDestinationRule];
    }
    var rule := msg.destinationRule;
    r := ValidateHost(rule.host);
    r := r + ValidateTrafficPolicy(rule.trafficPolicy);
    var subsetErrs := SubsetsErrors(rule.subsets);
    r := r + subsetErrs;
  }

  /** The subset loop of ValidateDestinationRule: nil exactly when every subset is valid. */
  method SubsetsErrors(subsets: seq<Subset>) returns (r: Error)
    ensures r == [] <==> forall i :: 0 <= i < |subsets| ==> SubsetOk(subsets[i])
  {
    r := [];
    for i := 0 to |subsets|
      invariant r == [] <==> forall j :: 0 <= j < i ==> SubsetOk(subsets[j])
    {
      var err := ValidateSubset(subsets[i]);
      r := r + err;
    }
  }

  /** Subset names may repeat: a valid rule stays valid with any of its subsets added again. */
  lemma SubsetNamesMayRepeat(rule: DestinationRule, i: int)
    requires DestinationRuleOk(rule) && 0 <= i < |rule.subsets|
    ensures DestinationRuleOk(rule.(subsets := rule.subsets + [rule.subsets[i]]))
  {
    var subsets := rule.subsets + [rule.subsets[i]];
    assert forall j :: 0 <= j < |subsets| ==> subsets[j] in rule.subsets;
  }

  /**
   * A witness, not a general property: one host the intended wildcard
   * grammar refuses, "a_b.com", is accepted as a destination rule's host,
   * because the host check follows the wildcard pattern as written.
   */
  lemma UnderscoreHostAccepted()
    ensures DestinationRuleOk(DestinationRule("a_b.com", None, []))
  {
    WildcardDomainPrecedence();
  }
}
