/** How policies compare: a tighter policy admits less, the canonical policies grow from
    one version to the next, and revoking tools tightens a policy only as long as a tool
    is left. */
module PolicyRefinement {
  import opened Common
  import opened ExecutionPolicy

  predicate Subset(a: seq<string>, b: seq<string>)
  {
    forall i :: 0 <= i < |a| ==> a[i] in b
  }

  predicate TighterRule(a: Rule, b: Rule)
  {
    && b.status != Disabled
    && Subset(a.actionTypes, b.actionTypes) && Subset(a.taskClasses, b.taskClasses)
    && Subset(a.modes, b.modes) && Subset(a.riskTiers, b.riskTiers)
    && (a.sideEffectsAllowed ==> b.sideEffectsAllowed)
  }

  /** Pointwise tighter: no more actions, profiles, tools or tool calls, and the same tool policy. */
  predicate Tighter(p: Policy, q: Policy)
  {
    && Subset(p.actionTypes, q.actionTypes)
    && (forall id :: id in p.profiles && p.profiles[id].status != Disabled ==>
          id in q.profiles && TighterRule(p.profiles[id], q.profiles[id]))
    && Subset(EffectiveTools(p), EffectiveTools(q))
    && p.maxToolInvocations <= q.maxToolInvocations
    && OrDefault(p.toolPolicyVersion, DEFAULT_TOOL_VERSION) == OrDefault(q.toolPolicyVersion, DEFAULT_TOOL_VERSION)
    && OrDefault(p.toolPolicyHash, DEFAULT_TOOL_HASH) == OrDefault(q.toolPolicyHash, DEFAULT_TOOL_HASH)
  }

  predicate Admits(p: Policy, d: Dispatch)
  {
    Validate(p, d) == Blocking([])
  }

  lemma SubsetMember(a: seq<string>, b: seq<string>, j: Json)
    requires Subset(a, b)
    ensures NamedIn(j, a) ==> NamedIn(j, b)
    ensures forall x :: x in a ==> x in b
  {
  }

  lemma InspectionRefines(p: Policy, q: Policy, d: Dispatch)
    requires Tighter(p, q) && InspectionPermitted(p, d)
    ensures InspectionPermitted(q, d)
  {
    hide TaskClass, Truthy, NamedIn, IsTrue, Field, BoundTo, Subset, ToolCount;
    SubsetMember(EffectiveTools(p), EffectiveTools(q), Field(d.payload, "tool_id"));
  }

  /** Refinement: whatever the tighter policy admits the other one admits too. */
  lemma TighterAdmitsLess(p: Policy, q: Policy, d: Dispatch)
    requires Tighter(p, q) && Admits(p, d)
    ensures Admits(q, d)
  {
    hide Validate, InspectionPermitted, ReasoningPermitted, TaskClass, Mode, NamedIn, Field, IsTrue, Subset;
    PermittedIff(p, d);
    PermittedIff(q, d);
    var a, b := p.profiles[d.profileId], q.profiles[d.profileId];
    SubsetMember(p.actionTypes, q.actionTypes, Null);
    SubsetMember(a.actionTypes, b.actionTypes, Null);
    SubsetMember(a.riskTiers, b.riskTiers, Null);
    SubsetMember(a.taskClasses, b.taskClasses, TaskClass(d.payload));
    SubsetMember(a.modes, b.modes, Mode(d.payload));
    if Mode(d.payload) == READ_ONLY {
      InspectionRefines(p, q, d);
    }
  }

  // ----------------------------------------------------------------------------
  // The canonical policies
  // ----------------------------------------------------------------------------

  const DISABLED_RULE := Rule(Disabled, [], [], [], [], 0, 0, false)

  const DRAFTING_RULE := Rule(Limited, ["TASK_DISPATCH"], ["REASONING_ONLY", "DRAFT_GENERATION"], ["SAFE_NO_TOOLS"],
                              ["HIGH", "MEDIUM"], 1, 3, false)

  const INSPECTING_RULE := Rule(Limited, ["TASK_DISPATCH"],
                                ["REASONING_ONLY", "DRAFT_GENERATION", "READ_ONLY_INSPECTION"],
                                ["SAFE_NO_TOOLS", "SAFE_READ_ONLY"], ["HIGH", "MEDIUM"], 1, 3, false)

  const V1 := Policy(
    "PRODUCTION_EXECUTION_POLICY_V1", 1, ["TASK_DISPATCH"],
    map["lead" := DISABLED_RULE, "personal" := DISABLED_RULE, "business" := DISABLED_RULE, "marketing" := DISABLED_RULE,
        "cs" := DISABLED_RULE, "it-support" := DISABLED_RULE, "it-coding" := DISABLED_RULE,
        "sagara-lab" := DRAFTING_RULE],
    None, None, [], 0)

  const V2 := Policy(
    "PRODUCTION_EXECUTION_POLICY_V2", 1, ["TASK_DISPATCH"], V1.profiles["sagara-lab" := INSPECTING_RULE],
    Some("TOOL_SECURITY_POLICY_V1"), Some("9bdd1d54102280e49f1d23a13be404c44bb0f22e2c3f100b8d6aed61e3ec033d"),
    ["runtime_status", "document_inspection"], 1)

  const V3 := V2.(version := "PRODUCTION_EXECUTION_POLICY_V3", profiles := V2.profiles["it-support" := INSPECTING_RULE])

  lemma V1TighterThanV2()
    ensures Tighter(V1, V2)
  {
  }

  lemma V2TighterThanV3()
    ensures Tighter(V2, V3)
  {
    assert forall id :: id in V2.profiles && V2.profiles[id].status != Disabled ==> id == "sagara-lab";
  }

  /** Each version admits everything the one before it does. */
  lemma CanonicalPoliciesGrow(d: Dispatch)
    ensures Admits(V1, d) ==> Admits(V2, d)
    ensures Admits(V2, d) ==> Admits(V3, d)
  {
    hide Admits, Tighter;
    V1TighterThanV2();
    V2TighterThanV3();
    if Admits(V1, d) {
      TighterAdmitsLess(V1, V2, d);
    }
    if Admits(V2, d) {
      TighterAdmitsLess(V2, V3, d);
    }
  }

  /** The first version admits exactly drafting and reasoning in the laboratory profile. */
  lemma V1AdmitsOnlyDrafting(d: Dispatch)
    ensures Admits(V1, d) <==>
      && d.profileId == "sagara-lab" && d.actionType == "TASK_DISPATCH" && d.risk in ["HIGH", "MEDIUM"]
      && Mode(d.payload) == NO_TOOLS && ReasoningPermitted(d)
      && !IsTrue(Field(d.payload, "side_effects_requested"))
  {
    hide Validate, InspectionPermitted, Mode, Field, IsTrue, TaskClass, AsksForTools;
    PermittedIff(V1, d);
  }

  // ----------------------------------------------------------------------------
  // Revocation
  // ----------------------------------------------------------------------------

  function Without(tools: seq<string>, t: string): seq<string>
  {
    if tools == [] then []
    else if tools[0] == t then Without(tools[1..], t)
    else [tools[0]] + Without(tools[1..], t)
  }

  function Revoke(p: Policy, t: string): Policy
  {
    p.(tools := Without(p.tools, t))
  }

  function RevokeAll(p: Policy, ts: seq<string>): Policy
    decreases |ts|
  {
    if ts == [] then p else RevokeAll(Revoke(p, ts[0]), ts[1..])
  }

  lemma {:induction false} WithoutMembers(tools: seq<string>, t: string)
    ensures forall x :: x in Without(tools, t) <==> x in tools && x != t
  {
    if tools != [] {
      WithoutMembers(tools[1..], t);
    }
  }

  /** Revocations in any order and number touch the tool list only. */
  lemma {:induction false} RevokeAllTools(p: Policy, ts: seq<string>)
    ensures var q := RevokeAll(p, ts);
            q == p.(tools := q.tools) && forall x :: x in q.tools <==> x in p.tools && x !in ts
    decreases |ts|
  {
    if ts != [] {
      WithoutMembers(p.tools, ts[0]);
      RevokeAllTools(Revoke(p, ts[0]), ts[1..]);
    }
  }

  /** Some profile may run inspections at all. */
  predicate OffersInspection(p: Policy, profileId: string, actionType: string, risk: string)
  {
    && profileId in p.profiles && p.maxToolInvocations >= 1
    && var rule := p.profiles[profileId];
       && rule.status != Disabled && actionType in p.actionTypes && actionType in rule.actionTypes
       && risk != "CRITICAL" && risk in rule.riskTiers
       && "READ_ONLY_INSPECTION" in rule.taskClasses && "SAFE_READ_ONLY" in rule.modes
  }

  ghost predicate InspectionOffered(p: Policy)
  {
    exists profileId, actionType, risk :: OffersInspection(p, profileId, actionType, risk)
  }

  predicate Uses(d: Dispatch, t: string)
  {
    Mode(d.payload) == READ_ONLY && Field(d.payload, "tool_id") == Str(t)
  }

  function Inspection(profileId: string, actionType: string, risk: string, t: string): Dispatch
  {
    Dispatch(actionType, profileId, map["task_class" := INSPECTION, "tool_id" := Str(t)], risk, None)
  }

  lemma AdmittedUseIsOffered(p: Policy, d: Dispatch)
    requires Admits(p, d) && Mode(d.payload) == READ_ONLY
    ensures OffersInspection(p, d.profileId, d.actionType, d.risk)
    ensures Field(d.payload, "tool_id").Str? && Field(d.payload, "tool_id").text in EffectiveTools(p)
  {
    hide Validate, ReasoningPermitted, Mode, OrDefault, IsTrue, BoundTo;
    PermittedIff(p, d);
    var tools := Field(d.payload, "tools");
    if Truthy(tools) && tools.Obj? {
      assert tools.members != map[];
    }
  }

  lemma OfferedUseIsAdmitted(p: Policy, profileId: string, actionType: string, risk: string, t: string)
    requires OffersInspection(p, profileId, actionType, risk) && t != "" && t in EffectiveTools(p)
    ensures Admits(p, Inspection(profileId, actionType, risk, t)) && Uses(Inspection(profileId, actionType, risk, t), t)
  {
    hide Validate;
    PermittedIff(p, Inspection(profileId, actionType, risk, t));
  }

  lemma OffersUnchanged(p: Policy, ts: seq<string>)
    ensures InspectionOffered(RevokeAll(p, ts)) <==> InspectionOffered(p)
  {
    RevokeAllTools(p, ts);
    var q := RevokeAll(p, ts);
    assert forall i, a, r :: OffersInspection(q, i, a, r) <==> OffersInspection(p, i, a, r);
  }

  lemma DefaultsNonempty()
    ensures forall t :: t in DEFAULT_TOOLS ==> t != ""
  {
  }

  /** After any series of revocations a revoked tool is out of reach exactly when some
      tool is left, or the tool is not a default one, or no inspection is offered at all. */
  lemma RevokedToolDeniedIff(p: Policy, ts: seq<string>, t: string)
    requires t in ts
    ensures (forall d :: Uses(d, t) ==> !Admits(RevokeAll(p, ts), d))
      <==> RevokeAll(p, ts).tools != [] || t !in DEFAULT_TOOLS || !InspectionOffered(p)
  {
    hide Admits, Uses, OffersInspection;
    var q := RevokeAll(p, ts);
    RevokeAllTools(p, ts);
    OffersUnchanged(p, ts);
    DefaultsNonempty();
    if q.tools == [] && t in DEFAULT_TOOLS && InspectionOffered(p) {
      var i, a, r :| OffersInspection(q, i, a, r);
      OfferedUseIsAdmitted(q, i, a, r, t);
      assert Uses(Inspection(i, a, r, t), t);
    } else {
      forall d | Uses(d, t) ensures !Admits(q, d) {
        RevokedUseDenied(q, d, t);
      }
    }
  }

  lemma RevokedUseDenied(q: Policy, d: Dispatch, t: string)
    requires Uses(d, t) && (t !in EffectiveTools(q) || !InspectionOffered(q))
    ensures !Admits(q, d)
  {
    hide Admits, OffersInspection;
    if Admits(q, d) {
      AdmittedUseIsOffered(q, d);
    }
  }

  /** Revocations only ever shrink what is admitted, exactly as long as a tool is left or
      the default tools were all allowed before or no inspection is offered. */
  lemma RevocationShrinksIff(p: Policy, ts: seq<string>)
    ensures (forall d :: Admits(RevokeAll(p, ts), d) ==> Admits(p, d))
      <==> RevokeAll(p, ts).tools != [] || Subset(DEFAULT_TOOLS, EffectiveTools(p)) || !InspectionOffered(p)
  {
    hide Admits, Uses, OffersInspection, Subset, DEFAULT_TOOLS;
    var q := RevokeAll(p, ts);
    RevokeAllTools(p, ts);
    if q.tools != [] || Subset(DEFAULT_TOOLS, EffectiveTools(p)) {
      RevokedIsTighter(p, q);
      forall d | Admits(q, d) ensures Admits(p, d) {
        TighterAdmitsLess(q, p, d);
      }
    } else if !InspectionOffered(p) {
      OffersUnchanged(p, ts);
      forall d | Admits(q, d) ensures Admits(p, d) {
        ToolsIrrelevantWithoutInspection(p, q, d);
      }
    } else {
      RevocationCanGrow(p, q);
    }
  }

  lemma RevokedIsTighter(p: Policy, q: Policy)
    requires q == p.(tools := q.tools) && (forall x :: x in q.tools ==> x in p.tools)
    requires q.tools != [] || Subset(DEFAULT_TOOLS, EffectiveTools(p))
    ensures Tighter(q, p)
  {
  }

  lemma ToolsIrrelevantWithoutInspection(p: Policy, q: Policy, d: Dispatch)
    requires q == p.(tools := q.tools) && !InspectionOffered(q) && Admits(q, d)
    ensures Admits(p, d)
  {
    hide Validate, InspectionPermitted, ReasoningPermitted, Mode, TaskClass, Field, OffersInspection;
    if Mode(d.payload) == READ_ONLY {
      AdmittedUseIsOffered(q, d);
    }
    PermittedIff(p, d);
    PermittedIff(q, d);
  }

  lemma RevocationCanGrow(p: Policy, q: Policy)
    requires q == p.(tools := q.tools) && q.tools == [] && InspectionOffered(p)
    requires !Subset(DEFAULT_TOOLS, EffectiveTools(p))
    ensures exists d :: Admits(q, d) && !Admits(p, d)
  {
    hide Admits, Uses;
    DefaultsNonempty();
    var k :| 0 <= k < |DEFAULT_TOOLS| && DEFAULT_TOOLS[k] !in EffectiveTools(p);
    var t := DEFAULT_TOOLS[k];
    var i, a, r :| OffersInspection(p, i, a, r);
    var d := Inspection(i, a, r, t);
    assert OffersInspection(q, i, a, r);
    OfferedUseIsAdmitted(q, i, a, r, t);
    RevokedUseDenied(p, d, t);
  }

  /** The emergency in which it matters: with both tools of the canonical policy revoked,
      both are admitted again. */
  lemma RevokingEveryToolRestoresBoth()
    ensures var q := RevokeAll(V3, ["runtime_status", "document_inspection"]);
            && Admits(q, Inspection("it-support", "TASK_DISPATCH", "HIGH", "runtime_status"))
            && Admits(q, Inspection("it-support", "TASK_DISPATCH", "HIGH", "document_inspection"))
  {
    hide Admits;
    var ts := ["runtime_status", "document_inspection"];
    RevokeAllTools(V3, ts);
    var q := RevokeAll(V3, ts);
    assert Revoke(V3, ts[0]).tools == ["document_inspection"];
    assert q == Revoke(Revoke(V3, ts[0]), ts[1]) && q.tools == [];
    OfferedUseIsAdmitted(q, "it-support", "TASK_DISPATCH", "HIGH", "runtime_status");
    OfferedUseIsAdmitted(q, "it-support", "TASK_DISPATCH", "HIGH", "document_inspection");
  }

  // ----------------------------------------------------------------------------
  // What validation does not look at
  // ----------------------------------------------------------------------------

  /** Payloads that agree on every field validation reads, except for the names of the tools. */
  predicate OtherTools(x: Payload, y: Payload)
  {
    && TaskClass(x) == TaskClass(y) && Field(x, "execution_mode") == Field(y, "execution_mode")
    && Field(x, "tool_security_policy_version") == Field(y, "tool_security_policy_version")
    && Field(x, "tool_security_policy_hash") == Field(y, "tool_security_policy_hash")
    && Field(x, "tool_id") == Field(y, "tool_id") && ToolCount(x) == ToolCount(y) && AsksForTools(x) == AsksForTools(y)
    && Field(x, "network_enabled") == Field(y, "network_enabled") && Field(x, "mcp_enabled") == Field(y, "mcp_enabled")
    && AsksForShell(x) == AsksForShell(y)
    && Field(x, "side_effects_requested") == Field(y, "side_effects_requested")
  }

  lemma SameReadOnlyReasons(p: Policy, d: Dispatch, y: Payload)
    requires OtherTools(d.payload, y)
    ensures ReadOnlyReasons(p, d) == ReadOnlyReasons(p, d.(payload := y))
  {
    hide TaskClass, Truthy, NamedIn, IsTrue, Field, If, ToolCount, AsksForTools, AsksForShell, ToolReason, OrDefault;
  }

  lemma SameModeReasons(p: Policy, d: Dispatch, y: Payload)
    requires OtherTools(d.payload, y)
    ensures ModeReasons(p, d) == ModeReasons(p, d.(payload := y)) && Mode(d.payload) == Mode(y)
  {
    hide ReadOnlyReasons, TaskClass, NamedIn, IsTrue, Field, If, ToolCount, AsksForTools, AsksForShell, Truthy;
    SameReadOnlyReasons(p, d, y);
  }

  /** Only the number of requested tools counts, never their names: an intent is judged
      the same whatever non-empty list of that length its payload carries. */
  lemma ToolNamesIgnored(p: Policy, d: Dispatch, a: seq<Json>, b: seq<Json>)
    requires |a| == |b| > 0
    ensures Validate(p, d.(payload := d.payload["tools" := Arr(a)]))
         == Validate(p, d.(payload := d.payload["tools" := Arr(b)]))
  {
    hide ModeReasons, TaskClass, NamedIn, IsTrue, Field, If, ToolCount, AsksForTools, AsksForShell, Truthy;
    var x, y := d.payload["tools" := Arr(a)], d.payload["tools" := Arr(b)];
    SameButTools(d.payload, a, b);
    SameModeReasons(p, d.(payload := x), y);
  }

  lemma SameButTools(p: Payload, a: seq<Json>, b: seq<Json>)
    requires |a| == |b| > 0
    ensures OtherTools(p["tools" := Arr(a)], p["tools" := Arr(b)])
  {
  }
}
