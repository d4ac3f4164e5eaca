/**
 * Role-based access control: service roles (rules of services, methods
 * and constraints), bindings of subjects to a role, and the mesh-wide
 * RBAC switch.
 */
module Rbac {
  import opened Wrappers
  import opened Errors
  import opened Messages

  const CastServiceRole := "cannot cast to ServiceRole"
  const NoRules := "at least 1 rule must be specified"
  const NoServices := "at least 1 service must be specified for rule"
  const NoMethods := "at least 1 method must be specified for rule"
  const EmptyConstraintKey := "key cannot be empty for constraint"
  const NoConstraintValues := "at least 1 value must be specified for constraint"
  const CastServiceRoleBinding := "cannot cast to ServiceRoleBinding"
  const NoSubjects := "at least 1 subject must be specified"
  const EmptySubject := "at least 1 of user, group or properties must be specified for subject"
  const NoRoleRef := "roleRef must be specified"
  const WrongRoleKind := "kind set to an unsupported value, currently the only supported value is ServiceRole"
  const EmptyRoleName := "name cannot be empty"
  const CastRbacConfig := "cannot cast to RbacConfig"
  const ModeNotImplemented := "rbac mode not implemented, currently only supports ON/OFF"

  /** The only kind a role reference may name. */
  const ServiceRoleKind := "ServiceRole"

  // -------------------------------------------------------- service roles

  predicate ConstraintOk(c: AccessRuleConstraint)
  {
    c.key != "" && |c.values| > 0
  }

  function ConstraintErrors(c: AccessRuleConstraint): (e: Error)
    ensures e == [] <==> ConstraintOk(c)
    ensures |e| <= 2
  {
    (if c.key == "" then [EmptyConstraintKey] else []) + (if |c.values| == 0 then [NoConstraintValues] else [])
  }

  predicate AccessRuleOk(rule: AccessRule)
  {
    |rule.services| > 0 && |rule.methods| > 0 &&
    forall j :: 0 <= j < |rule.constraints| ==> ConstraintOk(rule.constraints[j])
  }

  /** The checks of one rule: some services, some methods, and constraints with a key and values. */
  method AccessRuleErrors(rule: AccessRule) returns (e: Error)
    ensures e == [] <==> AccessRuleOk(rule)
    ensures |rule.services| == 0 ==> NoServices in e
  {
    e := (if |rule.services| == 0 then [NoServices] else []) + (if |rule.methods| == 0 then [NoMethods] else []);
    var err := CheckEach(rule.constraints, ConstraintErrors);
    e := e + err;
  }

  predicate ServiceRoleOk(role: ServiceRole)
  {
    |role.rules| > 0 && forall i :: 0 <= i < |role.rules| ==> AccessRuleOk(role.rules[i])
  }

  /** ValidateServiceRole: nil exactly for at least one rule, every rule valid. */
  method ValidateServiceRole(msg: ConfigMessage) returns (r: Error)
    ensures !msg.ServiceRoleMsg? ==> r == [CastServiceRole]
    ensures msg.ServiceRoleMsg? ==> (r == [] <==> ServiceRoleOk(msg.serviceRole))
  {
    if !msg.ServiceRoleMsg? {
      return [CastServiceRole];
    }
    var rules := msg.serviceRole.rules;
    r := if |rules| == 0 then [NoRules] else [];
    var ruleErrs: Error := [];
    for i := 0 to |rules|
      invariant ruleErrs == [] <==> forall j :: 0 <= j < i ==> AccessRuleOk(rules[j])
    {
      var err := AccessRuleErrors(rules[i]);
      ruleErrs := ruleErrs + err;
    }
    r := r + ruleErrs;
  }

  // ------------------------------------------------------------- bindings

  /** A subject names a user, a group, or some properties. */
  predicate SubjectOk(s: Subject)
  {
    s.user != "" || s.group != "" || |s.properties| > 0
  }

  predicate RoleRefOk(ref: Option<RoleRef>)
  {
    ref.Some? && ref.value.kind == ServiceRoleKind && ref.value.name != ""
  }

  function RoleRefErrors(ref: Option<RoleRef>): (e: Error)
    ensures e == [] <==> RoleRefOk(ref)
    ensures ref.None? ==> e == [NoRoleRef]
    ensures |e| <= 2
  {
    if ref.None? then [NoRoleRef]
    else
      (if ref.value.kind != ServiceRoleKind then [WrongRoleKind] else [])
      + (if ref.value.name == "" then [EmptyRoleName] else [])
  }

  predicate ServiceRoleBindingOk(b: ServiceRoleBinding)
  {
    |b.subjects| > 0 && (forall i :: 0 <= i < |b.subjects| ==> SubjectOk(b.subjects[i])) && RoleRefOk(b.roleRef)
  }

  /** ValidateServiceRoleBinding: nil exactly for some subjects, each naming someone, and a reference to a named ServiceRole. */
  method ValidateServiceRoleBinding(msg: ConfigMessage) returns (r: Error)
    ensures !msg.ServiceRoleBindingMsg? ==> r == [CastServiceRoleBinding]
    ensures msg.ServiceRoleBindingMsg? ==> (r == [] <==> ServiceRoleBindingOk(msg.serviceRoleBinding))
  {
    if !msg.ServiceRoleBindingMsg? {
      return [CastServiceRoleBinding];
    }
    var b := msg.serviceRoleBinding;
    r := if |b.subjects| == 0 then [NoSubjects] else [];
    var err := CheckEach(b.subjects, (s: Subject) => if SubjectOk(s) then [] else [EmptySubject]);
    r := r + err + RoleRefErrors(b.roleRef);
  }

  // --------------------------------------------------------------- config

  /** ValidateRbacConfig: only the ON and OFF modes are implemented; the inclusion and exclusion modes are refused. */
  function ValidateRbacConfig(msg: ConfigMessage): (r: Error)
    ensures !msg.RbacConfigMsg? ==> r == [CastRbacConfig]
    ensures msg.RbacConfigMsg? ==> (r == [] <==> msg.rbacConfig.mode in {RbacOff, RbacOn})
    ensures |r| == 1 || r == []
  {
    if !msg.RbacConfigMsg? then [CastRbacConfig]
    else match msg.rbacConfig.mode
      case RbacOnWithExclusion => [ModeNotImplemented]
      case RbacOnWithInclusion => [ModeNotImplemented]
      case _ => []
  }
}
