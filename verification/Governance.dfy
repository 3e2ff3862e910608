/** Who may do what, how risky an action is, and what approval it needs. */
module Governance {
  import opened Common

  datatype Risk = Low | Medium | High | Critical

  datatype Principal = Principal(id: string, roles: seq<string>, permissions: seq<string>)

  /** Permissions a role brings with it. */
  function RolePermissions(role: string): seq<string>
  {
    if role == "admin" then
      ["action.request", "action.approve", "execution.prepare", "execution.execute", "execution.lock.manage",
       "audit.verify", "action:request", "action:approve", "action:execute", "action:cancel"]
    else if role == "executor" then ["execution.prepare", "execution.execute", "audit.verify", "action:execute"]
    else if role == "operator" then
      ["action.request", "action.approve", "execution.prepare", "audit.verify", "action:request", "action:approve"]
    else if role == "approver" then ["action.approve", "audit.verify", "action:approve"]
    else if role == "viewer" then ["audit.verify"]
    else []
  }

  function ReplaceChar(s: string, before: char, after: char): string
  {
    seq(|s|, i requires 0 <= i < |s| => if s[i] == before then after else s[i])
  }

  /** The dotted spelling of a colon permission and the other way round. */
  function Alternative(permission: string): string
  {
    if '.' in permission then ReplaceChar(permission, '.', ':') else ReplaceChar(permission, ':', '.')
  }

  predicate HasRole(p: Principal, role: string)
  {
    role in p.roles || "admin" in p.roles
  }

  predicate HasPermission(p: Principal, permission: string)
  {
    var alternative := Alternative(permission);
    || permission in p.permissions
    || alternative in p.permissions
    || "admin" in p.roles
    || exists i :: 0 <= i < |p.roles| &&
         (permission in RolePermissions(p.roles[i]) || alternative in RolePermissions(p.roles[i]))
  }

  predicate MayRequest(p: Principal)
  {
    HasRole(p, "operator") || HasPermission(p, "action:request")
  }

  predicate MayApprove(p: Principal)
  {
    HasRole(p, "approver") || HasPermission(p, "action:approve")
  }

  predicate IsSelfApproval(p: Principal, requestedBy: string, risk: Risk)
  {
    (risk.High? || risk.Critical?) && p.id == requestedBy
  }

  predicate MayCancel(p: Principal, requestedBy: string)
  {
    p.id == requestedBy || HasRole(p, "admin")
  }

  /** The payload flags that raise an action's risk, and the payload's canonical text. */
  datatype Payload = Payload(isDestructive: bool, systemWide: bool, force: bool, text: string)

  function EvaluateRisk(actionType: string, payload: Payload): Risk
  {
    if payload.isDestructive || payload.systemWide || payload.force then Critical
    else if actionType in ["PROFILE_CHANGE_APPLY", "SKILL_ASSIGNMENT_CHANGE"] then High
    else if actionType == "TASK_DISPATCH" then High
    else if actionType in ["SCHEDULE_CREATE", "SCHEDULE_UPDATE", "SCHEDULE_PAUSE", "SCHEDULE_CANCEL"] then Medium
    else if actionType == "TASK_CANCEL" then Medium
    else if actionType == "SAFETY_GATE_SELF_TEST" then Low
    else High
  }

  datatype Settings = Settings(defaultTtl: int, highRiskTtl: int, criticalRiskTtl: int)

  datatype ApprovalPolicy = ApprovalPolicy(
    requiresApproval: bool, minApprovers: nat, confirmationPhrase: Option<string>,
    ttlSeconds: int, allowSelfApproval: bool)

  function EvaluatePolicy(actionType: string, risk: Risk, settings: Settings): ApprovalPolicy
  {
    var friendly := ReplaceChar(actionType, '_', ' ');
    match risk
    case Low => ApprovalPolicy(false, 0, None, settings.defaultTtl, true)
    case Medium => ApprovalPolicy(true, 1, None, settings.defaultTtl, true)
    case High => ApprovalPolicy(true, 1, Some("APPROVE " + friendly), settings.highRiskTtl, false)
    case Critical => ApprovalPolicy(true, 2, Some("APPROVE CRITICAL " + friendly), settings.criticalRiskTtl, false)
  }

  /** Self-approval is refused exactly where the policy says it is not allowed. */
  lemma SelfApprovalMatchesPolicy(p: Principal, requestedBy: string, actionType: string, risk: Risk, settings: Settings)
    requires p.id == requestedBy
    ensures IsSelfApproval(p, requestedBy, risk) <==> !EvaluatePolicy(actionType, risk, settings).allowSelfApproval
  {
  }

  predicate IsSpace(c: char)
  {
    c == ' ' || '\t' <= c <= '\r'
  }

  function TrimLeft(s: string): string
  {
    if s != [] && IsSpace(s[0]) then TrimLeft(s[1..]) else s
  }

  function TrimRight(s: string): string
  {
    if s != [] && IsSpace(s[|s| - 1]) then TrimRight(s[..|s| - 1]) else s
  }

  function Strip(s: string): string
  {
    TrimRight(TrimLeft(s))
  }

  function Upper(s: string): string
  {
    seq(|s|, i requires 0 <= i < |s| => if 'a' <= s[i] <= 'z' then s[i] - 'a' + 'A' else s[i])
  }

  /** Whether the typed phrase is the one the policy asks for, if it asks for one. */
  predicate Confirmed(policy: ApprovalPolicy, typed: Option<string>)
  {
    policy.confirmationPhrase.Some? && policy.confirmationPhrase.value != "" ==>
      && typed.Some? && typed.value != ""
      && Upper(Strip(typed.value)) == Upper(Strip(policy.confirmationPhrase.value))
  }
}
