/**
 * Mixer client configuration: attribute lists, HTTP API specifications
 * (request patterns and API keys), quota specifications (match clauses
 * and quotas), and the bindings that attach specifications to services.
 */
module Mixer {
  import opened Wrappers
  import opened Errors
  import opened Durations
  import opened Domains
  import opened Messages
  import RouteParts

  const CastAttributes := "cannot case to attributes"
  const AttributesNilOrEmpty := "list of attributes is nil/empty"
  const EmptyStringAttribute := "string attribute should not be empty"
  const DurationNil := "duration attribute should not be nil"
  const EmptyBytesAttribute := "bytes attribute should not be "
  const TimestampNil := "timestamp attribute should not be nil"
  const InvalidTimestamp := "timestamp: invalid Timestamp"
  const StringMapNil := "stringmap attribute should not be nil"
  const CastHTTPAPISpec := "cannot case to HTTPAPISpec"
  const NoPatterns := "at least one pattern must be specified"
  const EmptyHttpMethod := "http_method cannot be empty"
  const EmptyUriTemplate := "uri_template cannot be empty"
  const EmptyPatternRegex := "regex cannot be empty"
  const EmptyQueryKey := "query cannot be empty"
  const EmptyHeaderKey := "header cannot be empty"
  const EmptyCookieKey := "cookie cannot be empty"
  /** The cast error of all three binding and quota validators. */
  const CastHTTPAPISpecBinding := "cannot case to HTTPAPISpecBinding"
  const NoBoundServices := "at least one service must be specified"
  const NoSpecs := "at least one spec must be specified"
  const APISpecNameMandatory := "name is mandatory for HTTPAPISpecReference"
  const QuotaSpecNameMandatory := "name is mandatory for QuotaSpecReference"
  const SpecNamespaceNotLabel := "namespace must be a valid label"
  const NoQuotaRules := "a least one rule must be specified"
  const EmptyExactClause := "StringMatch_Exact for attribute cannot be empty"
  const EmptyPrefixClause := "StringMatch_Prefix for attribute cannot be empty"
  const EmptyRegexClause := "StringMatch_Regex for attribute cannot be empty"
  const NoQuotas := "a least one quota must be specified"
  const EmptyQuotaName := "quota name cannot be empty"
  const NonPositiveCharge := "quota charge amount must be positive"

  // ------------------------------------------------------------ attributes

  /**
   * A valid attribute value: strings and bytes are non-empty, a duration is
   * present and valid, a timestamp is present and in range, a string map
   * and its entries are present. Numbers, booleans and an unset value pass.
   */
  predicate AttributeOk(v: AttributeValue)
  {
    match v
    case StringValue(s) => s != ""
    case BytesValue(b) => |b| > 0
    case TimestampValue(t) => t.Some? && t.value.wellFormed
    case DurationValue(d) => d.Some? && IsValidDuration(d)
    case StringMapValue(m) => m.Some? && m.value.entries.Some?
    case OtherValue => true
    case ValueUnset => true
  }

  /**
   * The errors of one attribute. A nil timestamp is reported twice: once
   * by the nil check and once by the conversion. A nil duration is
   * reported once, by the nil check (the code as written goes on to
   * dereference it; see ValidateMixerAttributesAsWritten).
   */
  function AttributeErrors(v: AttributeValue): (e: Error)
    ensures e == [] <==> AttributeOk(v)
    ensures |e| <= 2
    ensures AttributesNilOrEmpty !in e
    ensures v == TimestampValue(None) ==> e == [TimestampNil, InvalidTimestamp]
    ensures v == DurationValue(None) ==> e == [DurationNil]
  {
    match v
    case StringValue(s) => if s == "" then [EmptyStringAttribute] else []
    case BytesValue(b) => if |b| == 0 then [EmptyBytesAttribute] else []
    case TimestampValue(t) =>
      if t.None? then [TimestampNil, InvalidTimestamp]
      else if !t.value.wellFormed then [InvalidTimestamp]
      else []
    case DurationValue(d) => if d.None? then [DurationNil] else ValidateDuration(d)
    case StringMapValue(m) => if m.None? || m.value.entries.None? then [StringMapNil] else []
    case OtherValue => []
    case ValueUnset => []
  }

  /** A present, non-empty attribute list whose every value is valid. */
  predicate AttributesOk(attrs: Option<Attributes>)
  {
    attrs.Some? && |attrs.value.attributes| > 0 &&
    forall k :: k in attrs.value.attributes ==> AttributeOk(attrs.value.attributes[k])
  }

  /** The body of ValidateMixerAttributes after the cast. */
  method MixerAttributesErrors(attrs: Option<Attributes>) returns (r: Error)
    ensures r == [] <==> AttributesOk(attrs)
    ensures attrs.None? || |attrs.value.attributes| == 0 ==> r == [AttributesNilOrEmpty]
  {
    if attrs.None? || |attrs.value.attributes| == 0 {
      return [AttributesNilOrEmpty];
    }
    r := CheckEachEntry(attrs.value.attributes, (k: string, v: AttributeValue) => AttributeErrors(v));
  }

  /**
   * ValidateMixerAttributes, with the nil duration reported and not
   * dereferenced: nil exactly for a non-empty list of valid values; a nil
   * or empty list is the single "nil/empty" error.
   */
  method ValidateMixerAttributes(msg: ConfigMessage) returns (r: Error)
    ensures !msg.AttributesMsg? ==> r == [CastAttributes]
    ensures msg.AttributesMsg? ==> (r == [] <==> AttributesOk(msg.attrs))
    ensures msg.AttributesMsg? && msg.attrs.None? ==> r == [AttributesNilOrEmpty]
  {
    if !msg.AttributesMsg? {
      return [CastAttributes];
    }
    r := MixerAttributesErrors(msg.attrs);
  }

  /** Some entry of a non-empty list holds a nil duration. */
  predicate HasNilDuration(attrs: Option<Attributes>)
  {
    attrs.Some? && |attrs.value.attributes| > 0 &&
    exists k :: k in attrs.value.attributes && attrs.value.attributes[k] == DurationValue(None)
  }

  /**
   * ValidateMixerAttributes as written: after reporting a nil duration it
   * still passes the nil pointer to ValidateGogoDuration, which reads its
   * seconds and panics. The loop reaches every entry, so the validator
   * panics exactly when some entry holds a nil duration; otherwise it
   * returns what ValidateMixerAttributes returns.
   */
  method ValidateMixerAttributesAsWritten(msg: ConfigMessage) returns (o: Outcome)
    ensures o.Panic? <==> msg.AttributesMsg? && HasNilDuration(msg.attrs)
    ensures o.Returned? && !msg.AttributesMsg? ==> o.errs == [CastAttributes]
    ensures o.Returned? && msg.AttributesMsg? ==> (o.errs == [] <==> AttributesOk(msg.attrs))
  {
    if !msg.AttributesMsg? {
      return Returned([CastAttributes]);
    }
    if msg.attrs.None? || |msg.attrs.value.attributes| == 0 {
      return Returned([AttributesNilOrEmpty]);
    }
    var m := msg.attrs.value.attributes;
    var done: set<string> := {};
    while done != m.Keys
      invariant done <= m.Keys
      invariant forall k :: k in done ==> m[k] != DurationValue(None)
      decreases |m.Keys - done|
    {
      var k :| k in m.Keys - done;
      if m[k] == DurationValue(None) {
        return Panic;
      }
      done := done + {k};
    }
    var r := MixerAttributesErrors(msg.attrs);
    return Returned(r);
  }

  // -------------------------------------------------------- HTTP API specs

  /** A request pattern has an HTTP method, and its URI template or regex, when set, is non-empty. */
  predicate PatternOk(p: HTTPAPISpecPattern)
  {
    p.httpMethod != "" &&
    match p.pattern
    case UriTemplate(t) => t != ""
    case PatternRegex(x) => x != ""
    case PatternUnset => true
  }

  function PatternErrors(p: HTTPAPISpecPattern): (e: Error)
    ensures e == [] <==> PatternOk(p)
    ensures |e| <= 2
    ensures AttributesNilOrEmpty !in e
  {
    (if p.httpMethod == "" then [EmptyHttpMethod] else [])
    + match p.pattern
      case UriTemplate(t) => if t == "" then [EmptyUriTemplate] else []
      case PatternRegex(x) => if x == "" then [EmptyPatternRegex] else []
      case PatternUnset => []
  }

  /** An API key names a non-empty query parameter, header or cookie; an unset key passes. */
  predicate APIKeyOk(key: APIKey)
  {
    match key
    case QueryKey(q) => q != ""
    case HeaderKey(h) => h != ""
    case CookieKey(c) => c != ""
    case KeyUnset => true
  }

  function APIKeyErrors(key: APIKey): (e: Error)
    ensures e == [] <==> APIKeyOk(key)
    ensures |e| <= 1
    ensures AttributesNilOrEmpty !in e
  {
    match key
    case QueryKey(q) => if q == "" then [EmptyQueryKey] else []
    case HeaderKey(h) => if h == "" then [EmptyHeaderKey] else []
    case CookieKey(c) => if c == "" then [EmptyCookieKey] else []
    case KeyUnset => []
  }

  /** The API-key loop of ValidateHTTPAPISpec. */
  method APIKeysErrors(keys: seq<APIKey>) returns (e: Error)
    ensures e == [] <==> forall i :: 0 <= i < |keys| ==> APIKeyOk(keys[i])
    ensures AttributesNilOrEmpty !in e
  {
    e := [];
    for i := 0 to |keys|
      invariant e == [] <==> forall j :: 0 <= j < i ==> APIKeyOk(keys[j])
      invariant AttributesNilOrEmpty !in e
    {
      e := e + APIKeyErrors(keys[i]);
    }
  }

  /**
   * A valid HTTP API spec: the top-level attribute list is optional but
   * valid when present; at least one pattern; every pattern and every key
   * valid.
   */
  predicate HTTPAPISpecOk(s: HTTPAPISpec)
  {
    && (s.attributes.Some? ==> AttributesOk(s.attributes))
    && |s.patterns| > 0
    && (forall i :: 0 <= i < |s.patterns| ==> PatternOk(s.patterns[i]))
    && (forall i :: 0 <= i < |s.apiKeys| ==> APIKeyOk(s.apiKeys[i]))
  }

  /**
   * ValidateHTTPAPISpec with the attribute list checked once, at the top
   * level, where it is optional: nil exactly for a valid spec.
   */
  method ValidateHTTPAPISpec(msg: ConfigMessage) returns (r: Error)
    ensures !msg.HTTPAPISpecMsg? ==> r == [CastHTTPAPISpec]
    ensures msg.HTTPAPISpecMsg? ==> (r == [] <==> HTTPAPISpecOk(msg.httpAPISpec))
    ensures msg.HTTPAPISpecMsg? && |msg.httpAPISpec.patterns| == 0 ==> NoPatterns in r
  {
    if !msg.HTTPAPISpecMsg? {
      return [CastHTTPAPISpec];
    }
    var s := msg.httpAPISpec;
    r := [];
    if s.attributes.Some? {
      r := MixerAttributesErrors(s.attributes);
    }
    r := r + (if |s.patterns| == 0 then [NoPatterns] else []);
    var patternErrs := CheckEach(s.patterns, PatternErrors);
    var keyErrs := APIKeysErrors(s.apiKeys);
    r := r + patternErrs + keyErrs;
  }

  /**
   * ValidateHTTPAPISpec as written: inside the pattern loop it validates
   * the top-level attribute list again, without the nil check of the top
   * level. A spec is then accepted only with a valid attribute list, and a
   * spec without one gets one "nil/empty" error per pattern. The attribute
   * checks here are the corrected ones of MixerAttributesErrors: the nil
   * duration panic of ValidateMixerAttributesAsWritten is not repeated.
   */
  method ValidateHTTPAPISpecAsWritten(msg: ConfigMessage) returns (r: Error)
    ensures !msg.HTTPAPISpecMsg? ==> r == [CastHTTPAPISpec]
    ensures msg.HTTPAPISpecMsg? ==>
      (r == [] <==> HTTPAPISpecOk(msg.httpAPISpec) && msg.httpAPISpec.attributes.Some?)
    ensures msg.HTTPAPISpecMsg? && msg.httpAPISpec.attributes.None? ==>
      r != [] && Count(r, AttributesNilOrEmpty) == |msg.httpAPISpec.patterns|
  {
    if !msg.HTTPAPISpecMsg? {
      return [CastHTTPAPISpec];
    }
    var s := msg.httpAPISpec;
    var top: Error := [];
    if s.attributes.Some? {
      top := MixerAttributesErrors(s.attributes);
    }
    var head := top + (if |s.patterns| == 0 then [NoPatterns] else []);
    var patternErrs: Error := [];
    for i := 0 to |s.patterns|
      invariant patternErrs == [] <==> (i > 0 ==> AttributesOk(s.attributes)) && forall j :: 0 <= j < i ==> PatternOk(s.patterns[j])
      invariant s.attributes.None? ==> Count(patternErrs, AttributesNilOrEmpty) == i
    {
      var again := MixerAttributesErrors(s.attributes);
      var pe := PatternErrors(s.patterns[i]);
      if s.attributes.None? {
        CountAbsent(pe, AttributesNilOrEmpty);
        CountConcat(patternErrs, again, AttributesNilOrEmpty);
        CountConcat(patternErrs + again, pe, AttributesNilOrEmpty);
      }
      patternErrs := patternErrs + again + pe;
    }
    var keyErrs := APIKeysErrors(s.apiKeys);
    r := head + patternErrs + keyErrs;
    if s.attributes.None? {
      CountAbsent(keyErrs, AttributesNilOrEmpty);
      CountAbsent(head, AttributesNilOrEmpty);
      CountConcat(head, patternErrs, AttributesNilOrEmpty);
      CountConcat(head + patternErrs, keyErrs, AttributesNilOrEmpty);
    }
  }

  // -------------------------------------------------------------- bindings

  /** A specification reference: a name, and a label as namespace when one is given. */
  predicate SpecReferenceOk(ref: SpecReference)
  {
    ref.name != "" && (ref.namespace != "" ==> IsDNS1123Label(ref.namespace))
  }

  /** The checks of one reference; `nameMandatory` is the message of the kind of reference. */
  function SpecReferenceErrors(ref: SpecReference, nameMandatory: string): (e: Error)
    ensures e == [] <==> SpecReferenceOk(ref)
    ensures ref.name == "" ==> nameMandatory in e
    ensures |e| <= 2
  {
    (if ref.name == "" then [nameMandatory] else [])
    + (if ref.namespace != "" && !IsDNS1123Label(ref.namespace) then [SpecNamespaceNotLabel] else [])
  }

  /** The service half of both bindings: at least one service, each a valid service reference. */
  method BoundServicesErrors(services: seq<IstioService>) returns (r: Error)
    ensures r == [] <==> |services| > 0 && forall i :: 0 <= i < |services| ==> RouteParts.IstioServiceOk(services[i])
    ensures |services| == 0 ==> r == [NoBoundServices]
  {
    r := if |services| == 0 then [NoBoundServices] else [];
    for i := 0 to |services|
      invariant r == [] <==> |services| > 0 && forall j :: 0 <= j < i ==> RouteParts.IstioServiceOk(services[j])
      invariant |services| == 0 ==> r == [NoBoundServices]
    {
      var err := RouteParts.ValidateIstioService(services[i]);
      r := r + err;
    }
  }

  /** The reference half of both bindings: at least one reference, each valid. */
  method SpecReferencesErrors(refs: seq<SpecReference>, nameMandatory: string) returns (r: Error)
    ensures r == [] <==> |refs| > 0 && forall i :: 0 <= i < |refs| ==> SpecReferenceOk(refs[i])
    ensures |refs| == 0 ==> r == [NoSpecs]
  {
    r := if |refs| == 0 then [NoSpecs] else [];
    var err := CheckEach(refs, (ref: SpecReference) => SpecReferenceErrors(ref, nameMandatory));
    r := r + err;
  }

  predicate HTTPAPISpecBindingOk(b: HTTPAPISpecBinding)
  {
    && |b.services| > 0 && (forall i :: 0 <= i < |b.services| ==> RouteParts.IstioServiceOk(b.services[i]))
    && |b.apiSpecs| > 0 && (forall i :: 0 <= i < |b.apiSpecs| ==> SpecReferenceOk(b.apiSpecs[i]))
  }

  /** ValidateHTTPAPISpecBinding: nil exactly for some valid services bound to some valid spec references. */
  method ValidateHTTPAPISpecBinding(msg: ConfigMessage) returns (r: Error)
    ensures !msg.HTTPAPISpecBindingMsg? ==> r == [CastHTTPAPISpecBinding]
    ensures msg.HTTPAPISpecBindingMsg? ==> (r == [] <==> HTTPAPISpecBindingOk(msg.httpAPISpecBinding))
  {
    if !msg.HTTPAPISpecBindingMsg? {
      return [CastHTTPAPISpecBinding];
    }
    var b := msg.httpAPISpecBinding;
    r := BoundServicesErrors(b.services);
    var err := SpecReferencesErrors(b.apiSpecs, APISpecNameMandatory);
    r := r + err;
  }

  predicate QuotaSpecBindingOk(b: QuotaSpecBinding)
  {
    && |b.services| > 0 && (forall i :: 0 <= i < |b.services| ==> RouteParts.IstioServiceOk(b.services[i]))
    && |b.quotaSpecs| > 0 && (forall i :: 0 <= i < |b.quotaSpecs| ==> SpecReferenceOk(b.quotaSpecs[i]))
  }

  /**
   * ValidateQuotaSpecBinding: nil exactly for some valid services bound to
   * some valid quota spec references. Its cast error is the one of the
   * HTTP API spec binding.
   */
  method ValidateQuotaSpecBinding(msg: ConfigMessage) returns (r: Error)
    ensures !msg.QuotaSpecBindingMsg? ==> r == [CastHTTPAPISpecBinding]
    ensures msg.QuotaSpecBindingMsg? ==> (r == [] <==> QuotaSpecBindingOk(msg.quotaSpecBinding))
  {
    if !msg.QuotaSpecBindingMsg? {
      return [CastHTTPAPISpecBinding];
    }
    var b := msg.quotaSpecBinding;
    r := BoundServicesErrors(b.services);
    var err := SpecReferencesErrors(b.quotaSpecs, QuotaSpecNameMandatory);
    r := r + err;
  }

  // ----------------------------------------------------------- quota specs

  /** A match clause with an exact, prefix or regex value needs it non-empty; an unset clause passes. */
  predicate ClauseOk(m: StringMatch)
  {
    match m
    case ExactMatch(s) => s != ""
    case PrefixMatch(s) => s != ""
    case RegexMatch(s) => s != ""
    case MatchUnset => true
  }

  function ClauseErrors(m: StringMatch): (e: Error)
    ensures e == [] <==> ClauseOk(m)
    ensures |e| <= 1
  {
    match m
    case ExactMatch(s) => if s == "" then [EmptyExactClause] else []
    case PrefixMatch(s) => if s == "" then [EmptyPrefixClause] else []
    case RegexMatch(s) => if s == "" then [EmptyRegexClause] else []
    case MatchUnset => []
  }

  predicate AttributeMatchOk(a: AttributeMatch)
  {
    forall name :: name in a.clause ==> ClauseOk(a.clause[name])
  }

  predicate QuotaOk(q: Quota)
  {
    q.quota != "" && q.charge > 0
  }

  function QuotaErrors(q: Quota): (e: Error)
    ensures e == [] <==> QuotaOk(q)
    ensures |e| <= 2
  {
    (if q.quota == "" then [EmptyQuotaName] else []) + (if q.charge <= 0 then [NonPositiveCharge] else [])
  }

  /** A quota rule: every match clause valid, and at least one quota, each named and with a positive charge. */
  predicate QuotaRuleOk(rule: QuotaRule)
  {
    && (forall i :: 0 <= i < |rule.matches| ==> AttributeMatchOk(rule.matches[i]))
    && |rule.quotas| > 0
    && (forall i :: 0 <= i < |rule.quotas| ==> QuotaOk(rule.quotas[i]))
  }

  method QuotaRuleErrors(rule: QuotaRule) returns (e: Error)
    ensures e == [] <==> QuotaRuleOk(rule)
    ensures |rule.quotas| == 0 ==> NoQuotas in e
  {
    var matchErrs: Error := [];
    for i := 0 to |rule.matches|
      invariant matchErrs == [] <==> forall j :: 0 <= j < i ==> AttributeMatchOk(rule.matches[j])
    {
      var err := CheckEachEntry(rule.matches[i].clause, (name: string, m: StringMatch) => ClauseErrors(m));
      matchErrs := matchErrs + err;
    }
    var quotaErrs := CheckEach(rule.quotas, QuotaErrors);
    e := matchErrs + (if |rule.quotas| == 0 then [NoQuotas] else []) + quotaErrs;
  }

  predicate QuotaSpecOk(s: QuotaSpec)
  {
    |s.rules| > 0 && forall i :: 0 <= i < |s.rules| ==> QuotaRuleOk(s.rules[i])
  }

  /**
   * ValidateQuotaSpec: nil exactly for at least one rule, each valid. Its
   * cast error is the one of the HTTP API spec binding.
   */
  method ValidateQuotaSpec(msg: ConfigMessage) returns (r: Error)
    ensures !msg.QuotaSpecMsg? ==> r == [CastHTTPAPISpecBinding]
    ensures msg.QuotaSpecMsg? ==> (r == [] <==> QuotaSpecOk(msg.quotaSpec))
    ensures msg.QuotaSpecMsg? && |msg.quotaSpec.rules| == 0 ==> r == [NoQuotaRules]
  {
    if !msg.QuotaSpecMsg? {
      return [CastHTTPAPISpecBinding];
    }
    var rules := msg.quotaSpec.rules;
    r := if |rules| == 0 then [NoQuotaRules] else [];
    var ruleErrs: Error := [];
    for i := 0 to |rules|
      invariant ruleErrs == [] <==> forall j :: 0 <= j < i ==> QuotaRuleOk(rules[j])
    {
      var err := QuotaRuleErrors(rules[i]);
      ruleErrs := ruleErrs + err;
    }
    r := r + ruleErrs;
  }
}
