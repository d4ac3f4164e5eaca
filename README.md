# Istio Pilot configuration validation, modelled in Dafny

Pilot, the Istio control plane component that turns configuration into
proxy settings, refuses a configuration resource that does not pass a
validator. `pilot/pkg/model/validation.go` holds those validators: one per
resource kind (route rules, ingress and egress rules, destination
policies, gateways, virtual services, destination rules, service entries,
mixer API and quota specs and their bindings, authentication policies,
RBAC roles and bindings, the mesh and proxy configuration), plus the
field-level checks they share (ports, percentages, durations, DNS-1123
labels and domains, IPv4 addresses and subnets, header names, label tags,
port selectors) and the checks on the service registry's own records.

Every validator returns a Go `error` assembled with `multierror`. The
model represents such an error by the list of its messages (`Errors.Error`,
a `seq<string>`); the empty list is the nil error, and joining two errors
is concatenation, because `multierror.Append` flattens nested errors. Each
validator is a Dafny function or method that returns this list. Each one
is proved against a declarative predicate of the same module:

- it returns nil exactly when the input satisfies the predicate (both
  directions);
- where the Go code promises it, the specific message appears, or the
  number of messages of one kind is the number of repeated keys.

A validator that changes local state as it walks a list (an accumulator,
a map of names already seen) is a method with a loop and its invariants.
A validator that only combines sub-results is a function. The
configuration messages are datatypes (`Messages`). A message of the wrong
type becomes a different constructor of `Messages.ConfigMessage`, so the
"cannot cast" branch of each validator is modelled too.

Messages are short constants. The values Go formats into them (the
offending name, number or host) are dropped, so that contracts can count
and name messages.

The wildcard-label pattern of `validation.go` accepts more than its
comment describes (see Findings). The domain checks, and every resource
check that validates a host through them, follow the pattern as it is
written. The grammar the comment describes is kept beside it
(`Domains.IsIntendedWildcardDomain`) and proved to be accepted by the
check as written.

Helpers that live outside `validation.go` become parameters, gathered in
`Messages.Env`:

- the protocol parser and the egress protocol sets;
- `Hostname.Matches`;
- the JWKS URI parser;
- the protobuf type registry;
- the default authentication policy name;
- the mesh gateway name;
- the name of the special `uri` header.

Modules follow the Go code:

- `Errors`: the error accumulator and `appendErrors`.
- `Durations`: the protobuf duration checks.
- `Domains`: labels, domains, IPv4 addresses and subnets.
- `Primitives`: ports, percentages, header names, tags, port selectors.
- `Registry`: service, instance and descriptor checks.
- `RouteParts` and `RouteRules`: the v1alpha1 routing API.
- `Gateways`, `VirtualServices`, `DestinationRules`, `ServiceEntries`: the v1alpha3 networking API.
- `Mixer`: HTTP API specs, quota specs and their bindings.
- `Authn`: authentication policies.
- `Rbac`: RBAC roles and bindings.
- `Mesh`: mesh and proxy configuration.
- Support modules:
  - `Wrappers`: Option.
  - `Text`: `strings.Split`.
  - `Collections`: counting repeated keys.

## Model

| member | source | states |
|---|---|---|
| Errors.AppendError | pilot/pkg/model/validation.go:2316-2323 | joining two errors, either of which may be nil, yields exactly the messages of the first followed by those of the second |
| Errors.AppendErrors | pilot/pkg/model/validation.go:2315-2329 | folding the error list into the first error yields its messages followed by all messages of the list in order, so the result is nil exactly when every input is nil |
| Errors.Prefix | pilot/pkg/model/validation.go:338-341 | multierror.Prefix keeps the number of messages and puts the prefix in front of each one |
| Errors.CheckEach | pilot/pkg/model/validation.go:780-784 | a range loop appending each element's errors yields every element's messages in list order and is nil exactly when every element passes |
| Errors.CheckEachEntry | pilot/pkg/model/validation.go:796-804 | a range loop over a map appending each entry's errors is nil exactly when every entry passes, whatever the iteration order |
| Errors.FlattenConcat | pilot/pkg/model/validation.go:2315-2329 | appending the errors of two lists one after the other is the same as appending those of their concatenation (the fold is associative) |
| Errors.FlattenNil | pilot/pkg/model/validation.go:2313-2329 | the combined error is nil exactly when every combined error is nil |
| Errors.AppendErrorsNil | pilot/pkg/model/validation.go:2313-2329 | appendErrors returns nil exactly when its first argument and every other argument are nil |
| Errors.FlattenKeeps | pilot/pkg/model/validation.go:2315-2329 | each input's messages appear unchanged and contiguous at its place in the result |
| Errors.SingleNonNil | pilot/pkg/model/validation.go:2316-2323 | when every input but one is nil, that one comes back unchanged |
| Durations.Decode | pilot/pkg/model/validation.go:1291-1294 | a duration decodes exactly when it is set, has fewer than 1e9 nanoseconds in absolute value, seconds and nanoseconds do not have opposite signs, and the total fits in an int64; the value is seconds times 1e9 plus nanos |
| Durations.ValidateDuration | pilot/pkg/model/validation.go:1275-1310 | at most one message; nil exactly when the duration decodes, is at least 1ms and is a whole number of milliseconds; an accepted duration is non-negative in both fields (the gogo variants have the same body) |
| Durations.ValidateDurationRange | pilot/pkg/model/validation.go:1313-1319 | nil exactly when min <= dur <= max |
| Durations.ValidateRefreshDelay | pilot/pkg/model/validation.go:1365-1373 | nil exactly for a valid duration between 1s and 10 minutes |
| Durations.ValidateConnectTimeout | pilot/pkg/model/validation.go:1376-1384 | nil exactly for a valid duration between 1ms and 30s |
| Durations.CombinedErrors | pilot/pkg/model/validation.go:1336-1359 | the second stage of ValidateParentAndDrain: nil exactly when both durations are whole seconds, drain is below parent, drain is at most 1h and parent at most 1h |
| Durations.ValidateParentAndDrain | pilot/pkg/model/validation.go:1322-1362 | an invalid duration yields only its prefixed messages; for two valid durations the result is nil exactly when they are compatible; never more than five messages |
| Durations.ParentAndDrainBounds | pilot/pkg/model/validation.go:1322-1362 | an accepted pair has 1s <= drain < parent <= 1h |
| Durations.SubMillisecondRejected | pilot/pkg/model/validation.go:1295-1297 | every duration under 1ms, zero included, is refused as too short |
| Durations.FractionalMillisecondRejected | pilot/pkg/model/validation.go:1298-1300 | every decodable duration of at least 1ms that is not a whole number of milliseconds is refused for its precision, and for nothing else |
| Durations.WholeMillisecondsAccepted | pilot/pkg/model/validation.go:1290-1302 | every positive whole number of milliseconds (below 9e9 seconds) is accepted |
| Domains.LabelShape | pilot/pkg/model/validation.go:264-266 | a DNS-1123 label is 1 to 63 characters, starts and ends with a letter or digit, and holds only letters, digits and dashes |
| Domains.WildcardAsWrittenShape | pilot/pkg/model/validation.go:264-272 | IsWildcardDNS1123Label, with the pattern as written, holds exactly for the strings of at most 63 characters that start with `*` or end with a letter or digit |
| Domains.WildcardLabelInclusions | pilot/pkg/model/validation.go:264-272 | every label is a wildcard label of the intended grammar, and every such label passes IsWildcardDNS1123Label as written |
| Domains.WildcardLabelShape | pilot/pkg/model/validation.go:46-48 | a wildcard label of the intended grammar has 1 to 63 characters, only letters, digits and hyphens after an optional leading `*`, and ends in a letter or digit unless it is `*` alone |
| Domains.WildcardPatternPrecedence | pilot/pkg/model/validation.go:48 | "a_b" and "*!" pass IsWildcardDNS1123Label as written but are not wildcard labels of the intended grammar |
| Domains.CheckDNS1123Preconditions | pilot/pkg/model/validation.go:243-251 | nil exactly when the name has 1 to 255 characters |
| Domains.ValidateDNS1123Labels | pilot/pkg/model/validation.go:253-260 | at most one message; nil exactly when every dot-separated part is a label |
| Domains.ValidateFQDN | pilot/pkg/model/validation.go:223-225 | nil exactly when the name has 1 to 255 characters and every part is a label |
| Domains.ValidateWildcardDomain | pilot/pkg/model/validation.go:222-240 | at most one message; nil exactly when the domain has 1 to 255 characters, its first part passes IsWildcardDNS1123Label as written and every later part is a label |
| Domains.WildcardDomainByFirstSegment | pilot/pkg/model/validation.go:231-239 | the split at the first dot agrees with the part-wise definition: a first part that passes the wildcard-label check, and a tail, when there is one, made of labels |
| Domains.FQDNIsWildcardDomain | pilot/pkg/model/validation.go:223-240 | every FQDN passes the wildcard-domain check |
| Domains.WildcardDomainStar | pilot/pkg/model/validation.go:228-240 | "*" is a wildcard domain |
| Domains.IntendedWildcardDomainAccepted | pilot/pkg/model/validation.go:46-48 | every domain of the intended grammar (an anchored wildcard label first, labels after) passes the wildcard domain check as written |
| Domains.WildcardDomainPrecedence | pilot/pkg/model/validation.go:48 | "a_b.com" passes the wildcard domain check as written but is not a domain of the intended grammar |
| Domains.WildcardDomainGluedStar | pilot/pkg/model/validation.go:228-240 | "*foo.com" is a wildcard domain even under the intended grammar, so the check as written accepts it too: the star may be glued to a label |
| Domains.FQDNStartsAlphaNum | pilot/pkg/model/validation.go:223-225 | an FQDN starts with a letter or digit, so never with `*` |
| Domains.ValidateEgressRuleDomain | pilot/pkg/model/validation.go:1065-1081 | nil exactly for `*`, an FQDN, or an FQDN preceded by `*`, `*.` or `*-` |
| Domains.ValidateIPv4Address | pilot/pkg/model/validation.go:535-547 | nil exactly for a dotted quad of four decimal octets at most 255 |
| Domains.ValidateCIDR | pilot/pkg/model/validation.go:510-522 | nil exactly for a dotted quad followed by a slash and a prefix length of at most 32 |
| Domains.SubnetSlashes | pilot/pkg/model/validation.go:525-532 | an IPv4 address has no slash and a CIDR block has exactly one, so the slash count decides which check applies |
| Domains.ValidateIPv4Subnet | pilot/pkg/model/validation.go:504-532 | nil exactly for an IPv4 address or an IPv4 CIDR block |
| Domains.ValidateUnixAddress | pilot/pkg/model/validation.go:550-560 | nil exactly for a non-empty absolute path (one starting with `/`) |
| Domains.ValidateHost | pilot/pkg/model/validation.go:1935-1944 | nil exactly for a wildcard domain (as the check is written) or an IPv4 subnet; otherwise both messages |
| Primitives.ValidatePort | pilot/pkg/model/validation.go:90-95 | nil exactly for 1 <= port <= 65535 |
| Primitives.ValidatePercent | pilot/pkg/model/validation.go:409-414 | nil exactly for 0 <= val <= 100 |
| Primitives.ValidateFloatPercent | pilot/pkg/model/validation.go:417-422 | nil exactly for 0.0 <= val <= 100.0 |
| Primitives.ValidateHTTPStatus | pilot/pkg/model/validation.go:2079-2084 | nil exactly for 0 <= status <= 600 |
| Primitives.LowerFixed | pilot/pkg/model/validation.go:371-379 | a name equals its lower-case form exactly when it has no upper-case letter |
| Primitives.LowerIdempotent | pilot/pkg/model/validation.go:371-379 | lower-casing twice is lower-casing once |
| Primitives.ValidateHTTPHeaderName | pilot/pkg/model/validation.go:371-379 | nil exactly for a non-empty name without upper-case letters; the empty name gets the "empty" message |
| Primitives.ValidateStringMatch | pilot/pkg/model/validation.go:382-389 | nil exactly when one of exact, prefix or regex is set |
| Primitives.ValidateHTTPMethod | pilot/pkg/model/validation.go:2036-2041 | nil exactly for one of the nine methods of net/http |
| Primitives.TagErrors | pilot/pkg/model/validation.go:210-217 | one key message when the key is not a tag and one value message when the value is not a tag, nothing else |
| Primitives.ValidateLabels | pilot/pkg/model/validation.go:209-220 | one key message per bad key and one value message per bad value, nothing else; nil exactly when every key and value is a tag |
| Primitives.ValidateSubsetName | pilot/pkg/model/validation.go:2118-2126 | nil exactly for a label; the empty name gets the "empty" message |
| Primitives.ValidatePortName | pilot/pkg/model/validation.go:2299-2304 | nil exactly for a label |
| Primitives.ValidatePortSelector | pilot/pkg/model/validation.go:2128-2160 | nil for no selector; an unset selector gets both the name and the port message; otherwise a number is checked as a port and a name as a label |
| Primitives.PortSelectorCases | pilot/pkg/model/validation.go:2133-2142 | a numbered selector is checked exactly as a port, a named one exactly as a subset name, and an unset one yields two messages |
| Primitives.ValidateProtocol | pilot/pkg/model/validation.go:2306-2311 | nil exactly for a protocol the parser knows |
| Registry.GetPort | pilot/pkg/model/validation.go:190-191 | the port found is the first port in the list with that name; none is found exactly when no port has the name |
| Registry.Service.HostnameErrors | pilot/pkg/model/validation.go:136-144 | nil exactly for a non-empty hostname of labels; one part message per bad part; the empty hostname gets its message |
| Registry.Service.PortsErrors | pilot/pkg/model/validation.go:146-165 | nil exactly for at least one port, each valid and named with a label (unnamed only when alone); no port gets its message |
| Registry.Service.Validate | pilot/pkg/model/validation.go:134-167 | nil exactly for a valid service; one part message per bad hostname part; the empty hostname and the missing ports get their messages |
| Registry.ValidateNetworkEndpointAddress | pilot/pkg/model/validation.go:2333-2346 | a TCP address must be an IP address and a Unix address an absolute path |
| Registry.ServiceInstance.ServicePortErrors | pilot/pkg/model/validation.go:186-203 | nil exactly when the endpoint has a service port that, given a service, names one of its ports with the same number and protocol; a missing service port gets its message |
| Registry.ServiceInstance.Validate | pilot/pkg/model/validation.go:170-206 | nil exactly for a valid instance; a missing service and a missing service port get their messages |
| Registry.ConfigDescriptor.OwnErrors | pilot/pkg/model/validation.go:105-113 | nil exactly when type and plural are labels and the message type is registered; never a duplicate message |
| Registry.ConfigDescriptor.DuplicateErrors | pilot/pkg/model/validation.go:114-128 | one duplicate-type message when the type was seen, one duplicate-message message when the message name was seen in the same scope |
| Registry.ConfigDescriptor.Validate | pilot/pkg/model/validation.go:98-131 | nil exactly for a valid descriptor; one duplicate-type message per repeated type and one duplicate-message message per repeated (scope, message name) pair |
| RouteParts.ValidateEgressRuleService | pilot/pkg/model/validation.go:1052-1057 | nil exactly for a CIDR block or an egress domain, chosen by the slash count |
| RouteParts.ValidateIstioService | pilot/pkg/model/validation.go:275-311 | nil exactly for a valid service reference; naming neither or both of name and service gets its message |
| RouteParts.ValidateL4MatchAttributes | pilot/pkg/model/validation.go:392-406 | nil exactly when every source and destination subnet is an IPv4 subnet |
| RouteParts.HeaderMatchErrors | pilot/pkg/model/validation.go:336-361 | nil exactly for a valid header name, a set match, and, for the uri header, a non-empty match |
| RouteParts.ValidateMatchCondition | pilot/pkg/model/validation.go:314-368 | nil exactly for a valid match condition; a UDP match always gets its message |
| RouteParts.ValidateDestinationWeight | pilot/pkg/model/validation.go:425-437 | nil exactly for valid tags and a weight in 0..100 |
| RouteParts.ValidateWeights | pilot/pkg/model/validation.go:704-722 | at most one message; nil exactly when the weights sum to 100, or a single route has weight 0 |
| RouteParts.WeightsEdgeCases | pilot/pkg/model/validation.go:711-719 | the weight check accepts a single route exactly when its weight is 0 or 100, and refuses an empty list |
| RouteParts.ValidateHTTPTimeout | pilot/pkg/model/validation.go:440-450 | nil exactly when a simple timeout is a valid duration |
| RouteParts.ValidateHTTPRetries | pilot/pkg/model/validation.go:453-466 | nil exactly when simple retries have non-negative attempts and a valid per-try timeout; a missing per-try timeout is refused |
| RouteParts.ValidateDelay | pilot/pkg/model/validation.go:563-579 | nil exactly for a percentage in range and a valid fixed delay; an exponential delay is always refused |
| RouteParts.ValidateAbortHTTPStatus | pilot/pkg/model/validation.go:582-588 | nil exactly for 0 <= status <= 600 |
| RouteParts.ValidateAbort | pilot/pkg/model/validation.go:591-611 | nil exactly for a percentage in range, no gRPC status, and an HTTP status in range |
| RouteParts.ValidateHTTPFault | pilot/pkg/model/validation.go:469-483 | nil exactly when the delay and abort present are valid; nil without either |
| RouteParts.ValidateTerminate | pilot/pkg/model/validation.go:614-619 | nil exactly for a percentage in range |
| RouteParts.ValidateThrottle | pilot/pkg/model/validation.go:622-647 | nil exactly for a valid throttle; a throttle that is not "after a period" is refused |
| RouteParts.ValidateL4Fault | pilot/pkg/model/validation.go:486-501 | nil exactly without a terminate fault and with a valid throttle when present; a terminate fault always gets its message |
| RouteParts.ValidateLoadBalancing | pilot/pkg/model/validation.go:650-656 | nil exactly when a policy is named |
| RouteParts.ValidateCircuitBreaker | pilot/pkg/model/validation.go:659-701 | nil exactly when a simple policy has all its limits in range |
| RouteParts.HeaderNamesErrors | pilot/pkg/model/validation.go:817-827 | nil exactly when every header name is non-empty and lower-case |
| RouteParts.HTTPMethodsErrors | pilot/pkg/model/validation.go:829-833 | nil exactly when every method is supported |
| RouteParts.MaxAgeErrors | pilot/pkg/model/validation.go:807-815 | nil exactly when a given max age is a valid duration with no nanoseconds |
| RouteRules.RedirectRewriteErrors | pilot/pkg/model/validation.go:750-777 | nil exactly for a valid rewrite and redirect; a redirect with routes, with a fault or with a rewrite gets each message |
| RouteRules.RouteErrors | pilot/pkg/model/validation.go:779-788 | nil exactly for no routes, or routes each valid and with weights that pass |
| RouteRules.RouteRuleCorsErrors | pilot/pkg/model/validation.go:806-834 | nil exactly for a valid CORS policy |
| RouteRules.AppendHeaderErrors | pilot/pkg/model/validation.go:796-804 | nil exactly for a valid header name with a non-empty value |
| RouteRules.RuleDestinationErrors | pilot/pkg/model/validation.go:732-741 | nil exactly for a present, valid destination without labels; a missing one gets only its message |
| RouteRules.RouteRuleHeadErrors | pilot/pkg/model/validation.go:731-788 | nil exactly when destination, match, rewrite, redirect and routes pass; a redirect with routes gets its message |
| RouteRules.RouteRuleTailErrors | pilot/pkg/model/validation.go:790-860 | nil exactly when mirror, appended headers, CORS, timeout, retries and faults pass and there is no L4 fault, which always gets its message |
| RouteRules.ValidateRouteRule | pilot/pkg/model/validation.go:725-863 | the cast error for another message; otherwise nil exactly for a valid rule; an L4 fault, and a redirect with routes, always get their messages |
| RouteRules.ValidateIngressRule | pilot/pkg/model/validation.go:866-886 | the cast error for another message; otherwise nil exactly for a present, valid destination without labels |
| RouteRules.ValidateEgressRuleDestination | pilot/pkg/model/validation.go:1020-1047 | nil exactly for a valid egress destination; a missing one gets only its message |
| RouteRules.ValidateEgressRulePort | pilot/pkg/model/validation.go:1084-1094 | nil exactly for a valid port with an egress protocol |
| RouteRules.EgressPortErrors | pilot/pkg/model/validation.go:993-1008 | nil exactly for a port not seen before that passes on its own; one duplicate message exactly when seen |
| RouteRules.EgressPortsErrors | pilot/pkg/model/validation.go:991-1009 | one duplicate message per repeated port number; nil exactly when the numbers are distinct and every port passes |
| RouteRules.ValidateEgressRule | pilot/pkg/model/validation.go:972-1016 | the cast error for another message; otherwise nil exactly for a valid rule; the egress proxy always gets its message |
| RouteRules.ValidateDestinationPolicy | pilot/pkg/model/validation.go:1217-1249 | the cast error for another message; otherwise nil exactly for a valid policy; a missing destination gets its message |
| Gateways.ValidateTLSOptions | pilot/pkg/model/validation.go:951-969 | nil exactly without TLS options, in pass-through mode, or with the certificates the simple or mutual mode needs; a mutual mode without CA bundle gets its message |
| Gateways.ValidateServerPort | pilot/pkg/model/validation.go:934-949 | nil exactly for a present port with a known protocol, a name, and a valid number when positive; a missing port gets only "port is required" |
| Gateways.ServerPortZeroAccepted | pilot/pkg/model/validation.go:941-947 | a port numbered 0 or below is not range-checked: it passes exactly when its protocol is known and it has a name |
| Gateways.ValidateServer | pilot/pkg/model/validation.go:917-932 | nil exactly for at least one host, each a wildcard domain or an IPv4 subnet, valid TLS options and a valid port; a missing port gets its message |
| Gateways.PortNamesStep | pilot/pkg/model/validation.go:907-912 | the names seen after one more server are those before plus that server's port name, when it has a port |
| Gateways.DuplicatePortNamesAsWritten | pilot/pkg/model/validation.go:904-912 | the name loop as written panics exactly when some server has no port; otherwise one duplicate message per repeated name |
| Gateways.DuplicatePortNames | pilot/pkg/model/validation.go:904-912 | with servers without a port skipped: one duplicate message per repeated name and nothing else; nil exactly when the names are distinct |
| Gateways.ValidateGateway | pilot/pkg/model/validation.go:889-915 | with the nil-port check of Findings row :907-912 (Go panics there on a server without a port): the cast error for another message; otherwise nil exactly for a non-empty list of valid servers with distinct port names; a server without a port gets "port is required" |
| DestinationRules.ValidateOutlierDetection | pilot/pkg/model/validation.go:1128-1145 | nil exactly without a block, or with valid durations when given, a non-negative error count and an ejection percentage in 0..100 |
| DestinationRules.ValidateConnectionPool | pilot/pkg/model/validation.go:1147-1180 | nil exactly without settings, or with at least one of HTTP and TCP, non-negative limits and a valid connect timeout when given; settings with neither get only their message |
| DestinationRules.ValidateLoadBalancer | pilot/pkg/model/validation.go:1182-1191 | load-balancer settings always pass |
| DestinationRules.ValidateTLS | pilot/pkg/model/validation.go:1193-1208 | nil exactly without settings, or when mutual mode has a client certificate and a private key; other modes always pass |
| DestinationRules.ValidateTrafficPolicy | pilot/pkg/model/validation.go:1114-1126 | nil exactly without a policy, or with at least one field set and every field valid; an empty policy gets only its message |
| DestinationRules.ValidateSubset | pilot/pkg/model/validation.go:1210-1214 | nil exactly for a label as name, valid tags and a valid policy when given; an empty name gets its message |
| DestinationRules.SubsetsErrors | pilot/pkg/model/validation.go:1107-1109 | nil exactly when every subset is valid |
| DestinationRules.ValidateDestinationRule | pilot/pkg/model/validation.go:1097-1112 | the cast error for another message; otherwise nil exactly for a host that is a wildcard domain or an IPv4 subnet, a valid policy and valid subsets |
| DestinationRules.UnderscoreHostAccepted | pilot/pkg/model/validation.go:1103-1105 | a witness for Findings row :48, not a general property: a rule whose host is "a_b.com", outside the intended wildcard grammar, passes, because the host check follows the pattern as written |
| DestinationRules.SubsetNamesMayRepeat | pilot/pkg/model/validation.go:1107-1109 | a valid rule stays valid with any of its subsets listed again: subset names are not checked for uniqueness |
| VirtualServices.ValidateCORSPolicy | pilot/pkg/model/validation.go:2005-2034 | nil exactly without a policy, or with supported methods, non-empty lower-case header names and a max age that is a valid duration of whole seconds |
| VirtualServices.ValidateFaultAbort | pilot/pkg/model/validation.go:2058-2077 | nil exactly without an abort, or with a percentage in range, an HTTP status in 0..600 and neither a gRPC nor an HTTP/2 error; a gRPC abort always gets its message |
| VirtualServices.ValidateFaultDelay | pilot/pkg/model/validation.go:2086-2100 | nil exactly without a delay, or with a percentage in range and a valid fixed delay; an exponential delay always gets its message |
| VirtualServices.ValidateHTTPFaultInjection | pilot/pkg/model/validation.go:2043-2056 | nil exactly without a fault, or with an abort or a delay and each present one valid; a fault with neither gets only its message |
| VirtualServices.ValidateDestination | pilot/pkg/model/validation.go:2102-2116 | nil exactly without a destination, or with a host that is a wildcard domain or an IPv4 subnet, a label as subset when given and a valid port selector |
| VirtualServices.ValidateHTTPRetry | pilot/pkg/model/validation.go:2162-2174 | nil exactly without a policy, or with positive attempts and a valid per-try timeout when given; non-positive attempts get their message |
| VirtualServices.ValidateHTTPRedirect | pilot/pkg/model/validation.go:2176-2181 | nil exactly without a redirect or with a URI or an authority |
| VirtualServices.ValidateHTTPRewrite | pilot/pkg/model/validation.go:2183-2188 | nil exactly without a rewrite or with a URI or an authority |
| VirtualServices.RedirectConflictErrors | pilot/pkg/model/validation.go:1947-1966 | with a redirect, nil exactly without routes, fault, rewrite and WebSocket upgrade; without one, nil exactly when there are routes; neither gets only "route or redirect is required" |
| VirtualServices.ValidateMatchRequest | pilot/pkg/model/validation.go:1974-1981 | nil exactly when every header name is non-empty and lower-case and the source labels are valid tags |
| VirtualServices.Wrap32 | pilot/pkg/model/validation.go:1986-1993 | the int32 result of an addition: in the int32 range, equal to the exact sum modulo 2^32, and the sum itself when it fits |
| VirtualServices.Total32NoWrap | pilot/pkg/model/validation.go:1986-1997 | with weights in 0..100 and fewer than 2^24 routes, the int32 running total is the exact sum |
| VirtualServices.RouteDestinationEntryErrors | pilot/pkg/model/validation.go:1988-1992 | nil exactly for a present, valid destination with a weight in 0..100; a missing destination gets "destination is required" |
| VirtualServices.RouteDestinationErrors | pilot/pkg/model/validation.go:1986-1994 | nil exactly when every weighted destination passes; the total returned is the int32 running total of the weights |
| VirtualServices.AddWeight | pilot/pkg/model/validation.go:1993 | one wrapping int32 addition extends the running total by one route |
| VirtualServices.WeightErrors | pilot/pkg/model/validation.go:1995-1997 | several routes whose int32 total exceeds 100 get only the total-weight message; otherwise nil |
| VirtualServices.TimeoutErrors | pilot/pkg/model/validation.go:1998-2000 | nil exactly without a timeout or with a valid one |
| VirtualServices.HTTPRouteHeadErrors | pilot/pkg/model/validation.go:1947-1972 | nil exactly without redirect conflicts, with valid appended header names, CORS policy and fault; a redirect with routes gets its message |
| VirtualServices.MatchRequestsErrors | pilot/pkg/model/validation.go:1974-1981 | nil exactly when every match request passes |
| VirtualServices.ValidateHTTPRoute | pilot/pkg/model/validation.go:1946-2003 | nil exactly for a valid HTTP route; a redirect with routes, and several routes whose int32 total exceeds 100, get their messages |
| VirtualServices.PartialSplitAccepted | pilot/pkg/model/validation.go:1986-1997 | for valid destinations, the weight check passes exactly for a single route or a total of at most 100, so any partial split is accepted |
| VirtualServices.GatewaysErrors | pilot/pkg/model/validation.go:1880-1892 | nil exactly when every gateway is a label; the service applies to the mesh exactly when it names no gateway or the mesh gateway |
| VirtualServices.HostsErrors | pilot/pkg/model/validation.go:1898-1907 | nil exactly when every host is a wildcard domain or an IPv4 subnet and is not "*" for a mesh-bound service, which gets its message |
| VirtualServices.DuplicateHostsErrors | pilot/pkg/model/validation.go:1909-1922 | only duplicate-host messages; nil exactly when no host matches a later one |
| VirtualServices.HTTPRoutesErrors | pilot/pkg/model/validation.go:1927-1929 | nil exactly when every HTTP route passes |
| VirtualServices.ValidateVirtualService | pilot/pkg/model/validation.go:1874-1933 | the cast error for another message; otherwise nil exactly for label gateways, at least one valid host, no matching pair of hosts, HTTP or TCP routes, and valid HTTP routes; "*" on a mesh-bound service gets its message |
| ServiceEntries.EntryHostsErrors | pilot/pkg/model/validation.go:2200-2207 | nil exactly when every host is a wildcard domain with a dot and not "*" |
| ServiceEntries.PortRepeatErrors | pilot/pkg/model/validation.go:2215-2222 | one name message when the name was seen and one number message when the number was seen, nothing else |
| ServiceEntries.PortRepeatsErrors | pilot/pkg/model/validation.go:2212-2223 | one message per repeated port name and one per repeated port number; nil exactly when both are distinct; the names returned are the port names |
| ServiceEntries.EntryPortErrors | pilot/pkg/model/validation.go:2290-2293 | nil exactly for a label as name, a known protocol and a valid number |
| ServiceEntries.StaticEndpointErrors | pilot/pkg/model/validation.go:2237-2255 | nil exactly for a Unix endpoint with an absolute path and no ports, or an IPv4 endpoint whose port names are ports of the entry, with valid labels either way; a Unix endpoint with ports gets its message |
| ServiceEntries.StaticErrors | pilot/pkg/model/validation.go:2230-2259 | nil exactly for at least one endpoint, each valid, and exactly one service port when some endpoint is a Unix socket |
| ServiceEntries.DnsEndpointPortErrors | pilot/pkg/model/validation.go:2275-2282 | nil exactly for a port name of the entry that is a label, with a valid number |
| ServiceEntries.DnsEndpointErrors | pilot/pkg/model/validation.go:2270-2283 | nil exactly for an FQDN address, valid labels and valid ports |
| ServiceEntries.DnsErrors | pilot/pkg/model/validation.go:2260-2283 | nil exactly when, without endpoints, every host is an FQDN, and every endpoint passes |
| ServiceEntries.WildcardHostNeedsEndpoints | pilot/pkg/model/validation.go:2261-2267 | a host starting with `*` is never an FQDN, so DNS resolution without endpoints refuses it |
| ServiceEntries.ResolutionErrors | pilot/pkg/model/validation.go:2225-2287 | nil exactly when the resolution's own rule holds: no endpoints for NONE, the static rule, the DNS rule; any other resolution gets only its message |
| ServiceEntries.EntryPortsErrors | pilot/pkg/model/validation.go:2289-2294 | nil exactly when every port passes |
| ServiceEntries.EntryHeadErrors | pilot/pkg/model/validation.go:2197-2210 | nil exactly for at least one host, every host valid and every address a CIDR block |
| ServiceEntries.ValidateServiceEntry | pilot/pkg/model/validation.go:2191-2297 | the cast error for another message; otherwise nil exactly for valid hosts and addresses, distinct port names and numbers, a satisfied resolution rule and valid ports |
| Mixer.AttributeErrors | pilot/pkg/model/validation.go:1500-1532 | nil exactly for a valid value (non-empty string and bytes, a present valid duration, a present well-formed timestamp, a present string map with entries); a nil timestamp gets both the nil and the conversion message; a nil duration gets its nil message |
| Mixer.MixerAttributesErrors | pilot/pkg/model/validation.go:1495-1534 | nil exactly for a present, non-empty list of valid values; a nil or empty list gets only the "nil/empty" message |
| Mixer.ValidateMixerAttributes | pilot/pkg/model/validation.go:1490-1535 | with the nil duration reported, not dereferenced (Findings row :1506-1513): the cast error for another message; otherwise nil exactly for a present, non-empty list of valid values; a nil list gets only the "nil/empty" message |
| Mixer.ValidateMixerAttributesAsWritten | pilot/pkg/model/validation.go:1506-1513 | the code as written panics exactly when some entry holds a nil duration; otherwise its result agrees with ValidateMixerAttributes |
| Mixer.PatternErrors | pilot/pkg/model/validation.go:1557-1569 | nil exactly for a pattern with an HTTP method whose URI template or regex, when set, is non-empty |
| Mixer.APIKeyErrors | pilot/pkg/model/validation.go:1572-1585 | nil exactly when the query, header or cookie named is non-empty |
| Mixer.APIKeysErrors | pilot/pkg/model/validation.go:1571-1586 | nil exactly when every API key passes |
| Mixer.ValidateHTTPAPISpec | pilot/pkg/model/validation.go:1538-1588 | with the attribute list checked once, where it is optional: the cast error for another message; otherwise nil exactly for valid attributes when present, at least one pattern, and valid patterns and keys; no pattern gets its message |
| Mixer.ValidateHTTPAPISpecAsWritten | pilot/pkg/model/validation.go:1553-1556 | the code as written re-validates the attribute list for every pattern, so a spec without attributes is refused unless it is otherwise invalid: one "nil/empty" message per pattern |
| Mixer.SpecReferenceErrors | pilot/pkg/model/validation.go:1608-1615 | nil exactly for a named reference whose namespace, when given, is a label; a missing name gets the message of its kind |
| Mixer.BoundServicesErrors | pilot/pkg/model/validation.go:1597-1604 | nil exactly for at least one service, each a valid service reference; no service gets only its message |
| Mixer.SpecReferencesErrors | pilot/pkg/model/validation.go:1605-1615 | nil exactly for at least one reference, each valid; no reference gets only its message |
| Mixer.ValidateHTTPAPISpecBinding | pilot/pkg/model/validation.go:1591-1617 | the cast error for another message; otherwise nil exactly for some valid services bound to some valid spec references |
| Mixer.ValidateQuotaSpecBinding | pilot/pkg/model/validation.go:1667-1693 | the HTTP API spec binding's cast error for another message; otherwise nil exactly for some valid services bound to some valid quota spec references |
| Mixer.ClauseErrors | pilot/pkg/model/validation.go:1631-1649 | nil exactly when the exact, prefix or regex value of a clause, when set, is non-empty |
| Mixer.QuotaErrors | pilot/pkg/model/validation.go:1654-1661 | nil exactly for a named quota with a positive charge |
| Mixer.QuotaRuleErrors | pilot/pkg/model/validation.go:1630-1661 | nil exactly for valid match clauses and at least one valid quota; no quota gets its message |
| Mixer.ValidateQuotaSpec | pilot/pkg/model/validation.go:1620-1664 | the HTTP API spec binding's cast error for another message; otherwise nil exactly for at least one rule, each valid; no rule gets only its message |
| Mesh.IndexOf | pilot/pkg/model/validation.go:1253 | absent exactly when the character does not occur; otherwise the position of its first occurrence |
| Mesh.LastIndexOf | pilot/pkg/model/validation.go:1253 | absent exactly when the character does not occur; otherwise the position of its last occurrence |
| Mesh.SplitHostPort | pilot/pkg/model/validation.go:1253 | a successful split of `host:port` or `[host]:port` yields a port without a colon and a host without brackets |
| Mesh.SplitBracketed | pilot/pkg/model/validation.go:1253 | `[host]:port` splits back into exactly that host and port |
| Mesh.SplitPlain | pilot/pkg/model/validation.go:1253 | `host:port` with a colon-free host splits back into exactly that host and port |
| Mesh.SplitJoinHostPort | pilot/pkg/model/validation.go:1253 | splitting a joined host and port gives back the same host and port (the round trip) |
| Mesh.Atoi | pilot/pkg/model/validation.go:1257 | a result exactly for an optional sign followed by at least one decimal digit; the value is the decimal value, negated after a minus sign |
| Mesh.ValidateProxyAddress | pilot/pkg/model/validation.go:1252-1272 | at most one error; nil exactly when the address splits, its port is a number in 1..65535 and its host is an FQDN or an IP address; an address that does not split gets the split error |
| Mesh.NamedAddressAccepted | pilot/pkg/model/validation.go:1252-1272 | any FQDN joined with a decimal port in range is an accepted proxy address |
| Mesh.OptionalAddressErrors | pilot/pkg/model/validation.go:1458-1462 | nil exactly when the address is unset or a valid proxy address (the Zipkin, statsd and Mixer addresses) |
| Mesh.DiscoveryAddressErrors | pilot/pkg/model/validation.go:1452-1456 | nil exactly for a set and valid discovery address; an unset one gets the "must be set" error alone |
| Mesh.ParentAndDrainErrors | pilot/pkg/model/validation.go:1441-1443 | nil exactly for well-formed, compatible drain and parent-shutdown durations |
| Mesh.RefreshDelayErrors | pilot/pkg/model/validation.go:1445-1447 | nil exactly for a well-formed refresh delay inside its window |
| Mesh.ConnectTimeoutErrors | pilot/pkg/model/validation.go:1464-1466 | nil exactly for a well-formed connect timeout inside its window |
| Mesh.PortErrors | pilot/pkg/model/validation.go:1474-1476 | nil exactly for a port in 1..65535 |
| Mesh.RequiredErrors | pilot/pkg/model/validation.go:1429-1439 | nil exactly when the config path, binary path and service cluster are all set |
| Mesh.ValidateProxyConfig | pilot/pkg/model/validation.go:1428-1486 | nil exactly for a valid proxy configuration (every check of the function); an unset discovery address is always reported |
| Mesh.AcceptedDrainBounds | pilot/pkg/model/validation.go:1322-1362 | every accepted proxy configuration drains for at least a second, and for less than its parent shutdown, which is at most an hour |
| Mesh.ValidateMeshConfig | pilot/pkg/model/validation.go:1387-1425 | nil exactly for a valid mesh configuration including a valid default proxy configuration; a missing default configuration is always reported |
| Authn.EmptyStringErrors | pilot/pkg/model/validation.go:1830-1834 | nil exactly when no string of the list is empty; every error is the list's one message (also the header and query loops at 1842-1852) |
| Authn.ValidateJwt | pilot/pkg/model/validation.go:1823-1854 | nil exactly for a JWT with an issuer, non-empty audiences, headers and query parameters, and a parsable JWKS URI when one is set; a missing issuer is always reported; it never reports a duplicate issuer |
| Authn.JwtIssuerErrors | pilot/pkg/model/validation.go:1726-1744 | with origins without a JWT skipped (Findings row :1737-1743; Go panics on them): one "already defined" error per JWT whose issuer repeats an earlier peer or origin JWT's; nil exactly when issuers are distinct and every JWT is valid |
| Authn.JwtIssuerErrorsAsWritten | pilot/pkg/model/validation.go:1726-1744 | the origin loop as written panics exactly when some origin has no JWT; when it returns, it counts the repeated issuers and is nil exactly when the issuers are distinct and every JWT is valid, as the corrected loops |
| Authn.ValidateAuthNPolicyTarget | pilot/pkg/model/validation.go:1856-1871 | nil exactly when the target name is a DNS-1123 label and each port selector is valid |
| Authn.NamingErrors | pilot/pkg/model/validation.go:1705-1723 | nil exactly when a cluster-scoped policy has the default name and no targets, and when a namespaced policy has the default name exactly when it has no targets; at most one naming error for a namespaced policy |
| Authn.NamespacedDefaultIffUntargeted | pilot/pkg/model/validation.go:1705-1712 | in a namespace, a policy passes the naming checks exactly when "named default" and "has no targets" agree |
| Authn.TargetsErrors | pilot/pkg/model/validation.go:1713-1715 | nil exactly when every target is valid |
| Authn.ValidateAuthenticationPolicy | pilot/pkg/model/validation.go:1696-1747 | with origins without a JWT skipped (Findings row :1737-1743; Go panics on them): the cast error for another message; otherwise nil exactly for correct naming, valid targets (namespaced only), distinct issuers and valid JWTs; a cluster-scoped policy with targets is always reported |
| Rbac.ConstraintErrors | pilot/pkg/model/validation.go:1766-1773 | nil exactly for a constraint with a key and at least one value; at most two errors |
| Rbac.AccessRuleErrors | pilot/pkg/model/validation.go:1759-1774 | nil exactly for a rule with services, methods and valid constraints; a rule with no services is always reported |
| Rbac.ValidateServiceRole | pilot/pkg/model/validation.go:1750-1776 | the cast error for another message; otherwise nil exactly for at least one rule, each valid |
| Rbac.RoleRefErrors | pilot/pkg/model/validation.go:1793-1804 | nil exactly for a present reference of kind ServiceRole with a name; a missing one gets the "must be specified" error alone |
| Rbac.ValidateServiceRoleBinding | pilot/pkg/model/validation.go:1779-1806 | the cast error for another message; otherwise nil exactly for some subjects, each naming a user, group or properties, and a valid role reference |
| Rbac.ValidateRbacConfig | pilot/pkg/model/validation.go:1809-1821 | the cast error for another message; otherwise at most one error, nil exactly for the ON and OFF modes |

## Left out

- Exact message text and `multierror.Prefix` wording: messages are constants with the formatted values dropped, and a prefix keeps the number of messages. Properties are about which messages are present and how many there are.
- Go regular expressions: the label, wildcard-label and tag grammars are character-class predicates, not a regular-expression engine.
- IPv6: `net.ParseIP` and `net.ParseCIDR` are modelled on dotted-quad IPv4 only. Go also accepts IPv6 and IPv4-mapped forms; here those are rejected.
- Mesh.SplitHostPort: follows the bracket and colon rules of `net.SplitHostPort`, but every failure is the one split error; Go's distinct error kinds (missing port, too many colons, stray brackets) are not told apart.
- Mesh.Atoi: the decimal value is unbounded, so the out-of-range error `strconv.Atoi` gives above 64 bits is not modelled. Such a port fails the 1..65535 range check either way.
- Durations.Decode: a simplified version of the protobuf library's conversion. A nil duration, nanoseconds outside ±10^9, mismatched signs and results outside signed 64 bits are errors. The library's own message texts are not modelled.
- Mixer attribute timestamps: `types.TimestampFromProto` is abstracted as a flag saying whether the timestamp is in range.
- Floating-point percentages: `ValidateFloatPercent` and its callers `ValidateDelay`, `ValidateAbort`, `ValidateTerminate` and `ValidateThrottle` read the float32 value as an exact real. Rounding and NaN are not modelled.
- `strings.ToLower` is modelled on ASCII only; Unicode case mapping is not.
- Strings model byte sequences: one character stands for one byte, so Go's `len` limits (63 for a label, 255 for a domain) count characters here. Unicode text, where one character takes several bytes in UTF-8, is not modelled; a label of 41 non-ASCII characters that Go measures at over 63 bytes is not represented by a 41-character string.
- External helpers are parameters in `Messages.Env`, not definitions:
  - `ParseProtocol`, `IsEgressRulesSupportedProtocol`, `IsEgressRulesSupportedTCPProtocol`;
  - `Hostname.Matches`, `ParseJwksURI`, `proto.MessageType`;
  - `DefaultAuthenticationPolicyName`, `IstioMeshGateway` and `HeaderURI`.
- `mixerToProxyIstioService` is not part of this model. Mixer service references use the routing service record directly.
- Map iteration order: Go visits map entries in random order, so contracts about maps (labels, headers, attributes, endpoint ports) speak of error counts and of whether the result is nil, never of message order.
- Nil pointers inside lists: a nil element of a repeated field is not representable, except where a defect depends on it (see Findings). A nil `*MeshConfig` or `*ProxyConfig` passed to the mesh validators is not modelled; Go would dereference it.
- An empty Go slice and a nil one are the same empty sequence.
- TCP routes of a virtual service: `validation.go` has no checks for them, so the model keeps only their number.
- Registry.ValidateNetworkEndpointAddress: the address family is a two-value datatype, so the `panic` on an unknown family cannot happen.
- The `name` and `namespace` arguments the resource validators ignore are left out. Authentication policies use them, and there they are kept.

## Findings

| source | as written | input that shows it | evidently intended | confidence | as-written member | corrected member |
|---|---|---|---|---|---|---|
| pilot/pkg/model/validation.go:48 | the wildcard pattern `^\*\|(\*\|\*-)?(label)$`: alternation binds loosest, so IsWildcardDNS1123Label accepts anything starting with `*` or ending in a letter or digit (Domains.WildcardAsWrittenShape), and the domain checks built on it accept more than their comment says | `a_b` and `*!` pass as wildcard labels (Domains.WildcardPatternPrecedence); `a_b.com` passes as a wildcard domain, so a destination rule with that host is accepted | `*` alone, or an optional `*` or `*-` followed by a DNS-1123 label, as the comment on line 47 says (Domains.IsIntendedWildcardDomain, whose labels have the shape of Domains.WildcardLabelShape) | not executed | Domains.WildcardDomainPrecedence | Domains.IntendedWildcardDomainAccepted |
| pilot/pkg/model/validation.go:1553-1556 | `ValidateHTTPAPISpec` validates the top-level attribute list again for every pattern, without the nil check of line 1545 | a spec with no attributes and two valid patterns gets two "nil or empty" errors | attributes are optional, so this spec is valid | not executed | Mixer.ValidateHTTPAPISpecAsWritten | Mixer.ValidateHTTPAPISpec |
| pilot/pkg/model/validation.go:907-912 | the unique-port-name loop reads `s.Port.Name` without a nil check | a gateway with a server whose port is unset panics instead of reporting the missing port | a server without a port is reported by `validateServer` and skipped by the name check | not executed | Gateways.DuplicatePortNamesAsWritten | Gateways.DuplicatePortNames |
| pilot/pkg/model/validation.go:1737-1743 | the origin loop reads `method.Jwt.Issuer` without a nil check, unlike the peer loop's `GetJwt` | an authentication policy with one origin whose JWT is unset panics | an origin without a JWT is skipped, as a peer without one is | not executed | Authn.JwtIssuerErrorsAsWritten | Authn.JwtIssuerErrors |
| pilot/pkg/model/validation.go:1506-1513 | after reporting a nil duration attribute, the code still passes the nil pointer to `ValidateGogoDuration`, which reads its fields | an attribute map with one duration entry whose value is nil panics | the nil duration is reported once and not converted | not executed | Mixer.ValidateMixerAttributesAsWritten | Mixer.ValidateMixerAttributes |
