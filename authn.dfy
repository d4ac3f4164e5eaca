/**
 * Authentication policies: naming rules that tie the default policy name
 * to the absence of targets, target selectors, and the JWT settings of
 * peer and origin authentication, whose issuers must be distinct.
 */
module Authn {
  import opened Wrappers
  import opened Errors
  import opened Domains
  import opened Messages
  import opened Primitives
  import opened Collections

  const CastPolicy := "cannot cast to AuthenticationPolicy"
  const UntargetedNotDefault := "authentication policy with no target rules must be named the default name"
  const DefaultWithTargets := "authentication policy with the default name must not have any target rules"
  const ClusterNotDefault := "cluster-scoped authentication policy name must be the default name"
  const ClusterWithTargets := "cluster-scoped authentication policy must not have targets"
  const DuplicateIssuer := "jwt with issuer already defined"
  const IssuerRequired := "issuer must be set"
  const EmptyAudience := "audience must be non-empty string"
  const InvalidJwksUri := "invalid jwks uri"
  const EmptyJwtHeader := "location header must be non-empty string"
  const EmptyJwtParam := "location query must be non-empty string"
  const TargetNotLabel := "target name must be a valid label"

  // ------------------------------------------------------------------ JWT

  predicate NonEmpty(s: string) { s != "" }

  predicate JwtOk(env: Env, jwt: Jwt)
  {
    && jwt.issuer != ""
    && (forall i :: 0 <= i < |jwt.audiences| ==> NonEmpty(jwt.audiences[i]))
    && (jwt.jwksUri != "" ==> jwt.jwksUri in env.parsableJwksUris)
    && (forall i :: 0 <= i < |jwt.jwtHeaders| ==> NonEmpty(jwt.jwtHeaders[i]))
    && (forall i :: 0 <= i < |jwt.jwtParams| ==> NonEmpty(jwt.jwtParams[i]))
  }

  /** One loop of validateJwt: one `msg` error per empty string in the list. */
  method EmptyStringErrors(xs: seq<string>, msg: string) returns (e: Error)
    ensures e == [] <==> forall i :: 0 <= i < |xs| ==> NonEmpty(xs[i])
    ensures forall k :: 0 <= k < |e| ==> e[k] == msg
  {
    e := [];
    for i := 0 to |xs|
      invariant e == [] <==> forall j :: 0 <= j < i ==> NonEmpty(xs[j])
      invariant forall k :: 0 <= k < |e| ==> e[k] == msg
    {
      if xs[i] == "" {
        e := e + [msg];
      }
    }
  }

  /**
   * validateJwt: an issuer, non-empty audiences and locations, and a JWKS
   * URI that parses when one is given. It never reports a duplicate issuer.
   */
  method ValidateJwt(env: Env, jwt: Jwt) returns (r: Error)
    ensures r == [] <==> JwtOk(env, jwt)
    ensures DuplicateIssuer !in r
    ensures jwt.issuer == "" ==> IssuerRequired in r
  {
    var issuer: Error := if jwt.issuer == "" then [IssuerRequired] else [];
    var audiences := EmptyStringErrors(jwt.audiences, EmptyAudience);
    var jwks: Error := if jwt.jwksUri != "" && jwt.jwksUri !in env.parsableJwksUris then [InvalidJwksUri] else [];
    var headers := EmptyStringErrors(jwt.jwtHeaders, EmptyJwtHeader);
    var params := EmptyStringErrors(jwt.jwtParams, EmptyJwtParam);
    r := issuer + audiences + jwks + headers + params;
    assert DuplicateIssuer !in audiences && DuplicateIssuer !in headers && DuplicateIssuer !in params;
  }

  /** The JWTs of the peer methods, in order: non-JWT peers (mutual TLS, unset) have none. */
  function PeerJwts(peers: seq<PeerAuthenticationMethod>): (jwts: seq<Jwt>)
    ensures |jwts| <= |peers|
    ensures forall j :: j in jwts <==> exists i :: 0 <= i < |peers| && peers[i].PeerJwt? && peers[i].jwt == j
  {
    if |peers| == 0 then []
    else PeerJwts(peers[..|peers| - 1]) + (if peers[|peers| - 1].PeerJwt? then [peers[|peers| - 1].jwt] else [])
  }

  /** The JWTs of the origin methods, in order, skipping origins without one. */
  function OriginJwts(origins: seq<OriginAuthenticationMethod>): (jwts: seq<Jwt>)
    ensures |jwts| <= |origins|
    ensures forall j :: j in jwts <==> exists i :: 0 <= i < |origins| && origins[i].jwt == Some(j)
  {
    if |origins| == 0 then []
    else OriginJwts(origins[..|origins| - 1]) + (if origins[|origins| - 1].jwt.Some? then [origins[|origins| - 1].jwt.value] else [])
  }

  function Issuers(jwts: seq<Jwt>): (issuers: seq<string>)
    ensures |issuers| == |jwts| && forall i :: 0 <= i < |jwts| ==> issuers[i] == jwts[i].issuer
  {
    seq(|jwts|, i requires 0 <= i < |jwts| => jwts[i].issuer)
  }

  /**
   * The issuer loops of ValidateAuthenticationPolicy: the peer loop and the
   * origin loop share one map of seen issuers, so together they are one
   * loop over the peer JWTs followed by the origin JWTs. One "already
   * defined" error per JWT whose issuer repeats an earlier one.
   */
  method JwtIssuerErrors(env: Env, jwts: seq<Jwt>) returns (e: Error)
    ensures Count(e, DuplicateIssuer) == Repeats(Issuers(jwts))
    ensures e == [] <==> Distinct(Issuers(jwts)) && forall i :: 0 <= i < |jwts| ==> JwtOk(env, jwts[i])
  {
    var issuers := Issuers(jwts);
    e := [];
    var seen: set<string> := {};
    for i := 0 to |jwts|
      invariant seen == Elems(issuers[..i])
      invariant Count(e, DuplicateIssuer) == Repeats(issuers[..i])
      invariant e == [] <==> Repeats(issuers[..i]) == 0 && forall j :: 0 <= j < i ==> JwtOk(env, jwts[j])
    {
      RepeatsStep(issuers, i);
      var dup: Error := if jwts[i].issuer in seen then [DuplicateIssuer] else [];
      seen := seen + {jwts[i].issuer};
      var err := ValidateJwt(env, jwts[i]);
      CountAbsent(err, DuplicateIssuer);
      CountConcat(e, dup, DuplicateIssuer);
      CountConcat(e + dup, err, DuplicateIssuer);
      e := e + dup + err;
    }
    assert issuers[..|jwts|] == issuers;
    RepeatsDistinct(issuers);
  }

  /**
   * The issuer loops as written: the origin loop reads the issuer of each
   * origin's JWT without a nil check, so an origin without a JWT makes the
   * validator panic; otherwise the result is that of JwtIssuerErrors.
   */
  method JwtIssuerErrorsAsWritten(env: Env, peers: seq<PeerAuthenticationMethod>, origins: seq<OriginAuthenticationMethod>)
    returns (o: Outcome)
    ensures o.Panic? <==> exists i :: 0 <= i < |origins| && origins[i].jwt.None?
    ensures o.Returned? ==> Count(o.errs, DuplicateIssuer) == Repeats(Issuers(PeerJwts(peers) + OriginJwts(origins)))
    ensures o.Returned? ==>
      var jwts := PeerJwts(peers) + OriginJwts(origins);
      (o.errs == [] <==> Distinct(Issuers(jwts)) && forall i :: 0 <= i < |jwts| ==> JwtOk(env, jwts[i]))
  {
    for i := 0 to |origins|
      invariant forall j :: 0 <= j < i ==> origins[j].jwt.Some?
    {
      if origins[i].jwt.None? {
        return Panic;
      }
    }
    var e := JwtIssuerErrors(env, PeerJwts(peers) + OriginJwts(origins));
    return Returned(e);
  }

  // -------------------------------------------------------------- targets

  predicate TargetOk(t: TargetSelector)
  {
    IsDNS1123Label(t.name) && forall i :: 0 <= i < |t.ports| ==> ValidatePortSelector(Some(t.ports[i])) == []
  }

  /** validateAuthNPolicyTarget: the target name is a short name (a label) and each port selector is valid. */
  method ValidateAuthNPolicyTarget(t: TargetSelector) returns (r: Error)
    ensures r == [] <==> TargetOk(t)
  {
    r := if !IsDNS1123Label(t.name) then [TargetNotLabel] else [];
    var err := CheckEach(t.ports, (p: PortSelector) => ValidatePortSelector(Some(p)));
    r := r + err;
  }

  // ---------------------------------------------------------------- naming

  /**
   * The naming rule. A cluster-scoped policy (empty namespace) has the
   * default name and no targets; a namespaced one has the default name
   * exactly when it has no targets.
   */
  predicate NamingOk(env: Env, name: string, namespace: string, p: Policy)
  {
    if namespace == "" then name == env.defaultAuthnPolicyName && |p.targets| == 0
    else (|p.targets| == 0 <==> name == env.defaultAuthnPolicyName)
  }

  function NamingErrors(env: Env, name: string, namespace: string, p: Policy): (e: Error)
    ensures e == [] <==> NamingOk(env, name, namespace, p)
    ensures |e| <= 2
    ensures namespace != "" ==> |e| <= 1
  {
    if namespace != "" then
      (if |p.targets| == 0 && name != env.defaultAuthnPolicyName then [UntargetedNotDefault] else [])
      + (if |p.targets| > 0 && name == env.defaultAuthnPolicyName then [DefaultWithTargets] else [])
    else
      (if name != env.defaultAuthnPolicyName then [ClusterNotDefault] else [])
      + (if |p.targets| > 0 then [ClusterWithTargets] else [])
  }

  /** In one namespace only the default policy may leave out targets, and it must. */
  lemma NamespacedDefaultIffUntargeted(env: Env, name: string, namespace: string, p: Policy)
    requires namespace != ""
    ensures NamingErrors(env, name, namespace, p) == [] <==> (name == env.defaultAuthnPolicyName <==> |p.targets| == 0)
  {
  }

  // ---------------------------------------------------------- the resource

  predicate PolicyOk(env: Env, name: string, namespace: string, p: Policy)
  {
    && NamingOk(env, name, namespace, p)
    && (namespace != "" ==> forall i :: 0 <= i < |p.targets| ==> TargetOk(p.targets[i]))
    && Distinct(Issuers(PeerJwts(p.peers) + OriginJwts(p.origins)))
    && (forall j :: 0 <= j < |PeerJwts(p.peers) + OriginJwts(p.origins)| ==>
          JwtOk(env, (PeerJwts(p.peers) + OriginJwts(p.origins))[j]))
  }

  method TargetsErrors(targets: seq<TargetSelector>) returns (r: Error)
    ensures r == [] <==> forall i :: 0 <= i < |targets| ==> TargetOk(targets[i])
  {
    r := [];
    for i := 0 to |targets|
      invariant r == [] <==> forall j :: 0 <= j < i ==> TargetOk(targets[j])
    {
      var err := ValidateAuthNPolicyTarget(targets[i]);
      r := r + err;
    }
  }

  /**
   * ValidateAuthenticationPolicy, with the nil check the origin loop needs
   * (an origin without a JWT is skipped, as validateJwt itself accepts a nil
   * JWT): nil exactly when naming, targets and JWTs are valid and no two
   * JWTs share an issuer. Targets are checked only for namespaced policies.
   */
  method ValidateAuthenticationPolicy(env: Env, name: string, namespace: string, msg: ConfigMessage) returns (r: Error)
    ensures !msg.PolicyMsg? ==> r == [CastPolicy]
    ensures msg.PolicyMsg? ==> (r == [] <==> PolicyOk(env, name, namespace, msg.policy))
    ensures msg.PolicyMsg? && namespace == "" && |msg.policy.targets| > 0 ==> ClusterWithTargets in r
  {
    if !msg.PolicyMsg? {
      return [CastPolicy];
    }
    var p := msg.policy;
    r := NamingErrors(env, name, namespace, p);
    if namespace != "" {
      var err := TargetsErrors(p.targets);
      r := r + err;
    }
    var err := JwtIssuerErrors(env, PeerJwts(p.peers) + OriginJwts(p.origins));
    r := r + err;
  }
}
