/** Production execution policies: which intents a policy admits, the canonical policies,
    and what revoking a tool does. */
module ExecutionPolicy {
  import opened Common

  /** A JSON value of a client's payload. */
  datatype Json =
    | Null | Bool(value: bool) | Num(number: real) | Str(text: string) | Arr(items: seq<Json>)
    | Obj(members: map<string, Json>)

  type Payload = map<string, Json>

  datatype RuleStatus = Disabled | Limited | Enabled

  datatype Rule = Rule(
    status: RuleStatus, actionTypes: seq<string>, taskClasses: seq<string>, modes: seq<string>, riskTiers: seq<string>,
    maxConcurrency: int, maxExecutionsPerHour: int, sideEffectsAllowed: bool)

  datatype Policy = Policy(
    version: string, maxGlobalConcurrency: int, actionTypes: seq<string>, profiles: map<string, Rule>,
    toolPolicyVersion: Option<string>, toolPolicyHash: Option<string>, tools: seq<string>, maxToolInvocations: int)

  /** What is asked of a policy; `activeToolHash` is the hash of the installed tool policy,
      where there is one. */
  datatype Dispatch = Dispatch(
    actionType: string, profileId: string, payload: Payload, risk: string, activeToolHash: Option<string>)

  datatype Reason =
    | ActionTypeDisabled | ProfileUnknown | ProfileDisabled | ProfileActionDisabled | RiskCritical | RiskNotPermitted
    | ModeDenied | ModeNotPermitted | TaskClassNotPermitted | ClassNeedsTools | ToolsNotAllowed | ClassNotReadOnly
    | ToolVersionMismatch | ToolHashMismatch | ActiveToolHashMismatch | ToolRequired | ToolUnauthorized
    | ToolBudgetExceeded | NetworkDenied | McpDenied | ShellDenied | ModeUnrecognized | SideEffectsDenied

  /** Taking the length of a value that has none raises. */
  datatype Verdict = Blocking(reasons: seq<Reason>) | TypeError

  const DEFAULT_TOOL_VERSION := "TOOL_SECURITY_POLICY_V1"
  const DEFAULT_TOOL_HASH := "9bdd1d54102280e49f1d23a13be404c44bb0f22e2c3f100b8d6aed61e3ec033d"
  const DEFAULT_TOOLS := ["runtime_status", "document_inspection"]
  const DENIED_MODES := [Str("APPROVED_TOOLS"), Str("SIDE_EFFECTING"), Str("UNRESTRICTED"), Str("UNKNOWN")]
  const NO_TOOLS := Str("SAFE_NO_TOOLS")
  const READ_ONLY := Str("SAFE_READ_ONLY")
  const INSPECTION := Str("READ_ONLY_INSPECTION")

  // ----------------------------------------------------------------------------
  // Dynamic values
  // ----------------------------------------------------------------------------

  predicate Truthy(j: Json)
  {
    match j
    case Null => false
    case Bool(b) => b
    case Num(n) => n != 0.0
    case Str(s) => s != ""
    case Arr(items) => items != []
    case Obj(members) => members != map[]
  }

  function Field(p: Payload, key: string): Json
  {
    if key in p then p[key] else Null
  }

  predicate IsTrue(j: Json)
  {
    j == Bool(true)
  }

  predicate NamedIn(j: Json, names: seq<string>)
  {
    j.Str? && j.text in names
  }

  function Length(j: Json): Option<nat>
  {
    match j
    case Str(s) => Some(|s|)
    case Arr(items) => Some(|items|)
    case Obj(members) => Some(|members|)
    case _ => None
  }

  function TaskClass(p: Payload): Json
  {
    if "task_class" in p then p["task_class"] else Str("UNKNOWN")
  }

  function Mode(p: Payload): Json
  {
    var raw := Field(p, "execution_mode");
    if Truthy(raw) then raw
    else if TaskClass(p) == INSPECTION then READ_ONLY
    else NO_TOOLS
  }

  /** An empty allow-list stands for the default one. */
  function EffectiveTools(p: Policy): seq<string>
  {
    if p.tools == [] then DEFAULT_TOOLS else p.tools
  }

  /** How many tools are asked for, if that can be told. */
  function ToolCount(p: Payload): Option<nat>
  {
    if Truthy(Field(p, "tools")) then Length(Field(p, "tools"))
    else Some(if Truthy(Field(p, "tool_id")) then 1 else 0)
  }

  predicate AsksForTools(p: Payload)
  {
    || Truthy(Field(p, "tool_id")) || Truthy(Field(p, "tools"))
    || IsTrue(Field(p, "tools_enabled")) || Field(p, "safe_mode") == Bool(false)
  }

  predicate AsksForShell(p: Payload)
  {
    IsTrue(Field(p, "shell_enabled")) || IsTrue(Field(p, "generic_shell_requested"))
  }

  // ----------------------------------------------------------------------------
  // The reasons, in the order they are found
  // ----------------------------------------------------------------------------

  function If(holds: bool, r: Reason): seq<Reason>
  {
    if holds then [r] else []
  }

  function ToolReason(p: Policy, tool: Json): seq<Reason>
  {
    if !Truthy(tool) then [ToolRequired] else If(!NamedIn(tool, EffectiveTools(p)), ToolUnauthorized)
  }

  function ReadOnlyReasons(p: Policy, d: Dispatch): Verdict
  {
    var version := Field(d.payload, "tool_security_policy_version");
    var hash := Field(d.payload, "tool_security_policy_hash");
    var tool := Field(d.payload, "tool_id");
    var expectedHash := OrDefault(p.toolPolicyHash, DEFAULT_TOOL_HASH);
    var count := ToolCount(d.payload);
    if count.None? then TypeError
    else Blocking(
      If(TaskClass(d.payload) != INSPECTION, ClassNotReadOnly)
      + If(Truthy(version) && version != Str(OrDefault(p.toolPolicyVersion, DEFAULT_TOOL_VERSION)), ToolVersionMismatch)
      + If(Truthy(hash) && hash != Str(expectedHash), ToolHashMismatch)
      + If(OrDefault(d.activeToolHash, expectedHash) != expectedHash, ActiveToolHashMismatch)
      + ToolReason(p, tool)
      + If(count.value > p.maxToolInvocations, ToolBudgetExceeded)
      + If(IsTrue(Field(d.payload, "network_enabled")), NetworkDenied)
      + If(IsTrue(Field(d.payload, "mcp_enabled")), McpDenied)
      + If(AsksForShell(d.payload), ShellDenied))
  }

  function ModeReasons(p: Policy, d: Dispatch): Verdict
  {
    var mode := Mode(d.payload);
    if mode == NO_TOOLS then Blocking(
      If(!NamedIn(TaskClass(d.payload), ["REASONING_ONLY", "DRAFT_GENERATION"]), ClassNeedsTools)
      + If(AsksForTools(d.payload), ToolsNotAllowed))
    else if mode == READ_ONLY then ReadOnlyReasons(p, d)
    else Blocking([ModeUnrecognized])
  }

  function Validate(p: Policy, d: Dispatch): Verdict
  {
    var actionReasons := If(d.actionType !in p.actionTypes, ActionTypeDisabled);
    if d.profileId !in p.profiles then Blocking(actionReasons + [ProfileUnknown])
    else
      var rule := p.profiles[d.profileId];
      if rule.status == Disabled then Blocking(actionReasons + [ProfileDisabled])
      else
        var early := actionReasons
          + If(d.actionType !in rule.actionTypes, ProfileActionDisabled)
          + (if d.risk == "CRITICAL" then [RiskCritical] else If(d.risk !in rule.riskTiers, RiskNotPermitted))
          + If(Field(d.payload, "execution_mode") in DENIED_MODES, ModeDenied);
        if !NamedIn(Mode(d.payload), rule.modes) then Blocking(early + [ModeNotPermitted])
        else if !NamedIn(TaskClass(d.payload), rule.taskClasses) then Blocking(early + [TaskClassNotPermitted])
        else
          var inMode := ModeReasons(p, d);
          if inMode.TypeError? then TypeError
          else Blocking(early + inMode.reasons
                        + If(!rule.sideEffectsAllowed && IsTrue(Field(d.payload, "side_effects_requested")),
                             SideEffectsDenied))
  }

  method CountTools(p: Payload) returns (count: Option<nat>)
    ensures count == ToolCount(p)
  {
    var requested := Field(p, "tools");
    if !Truthy(requested) {
      var tool := Field(p, "tool_id");
      requested := if Truthy(tool) then Arr([tool]) else Arr([]);
    }
    count := Length(requested);
  }

  /** The validation as the program runs it, growing the list of reasons. */
  method ValidateReadOnly(p: Policy, d: Dispatch) returns (v: Verdict)
    ensures v == ReadOnlyReasons(p, d)
  {
    hide If, Truthy, NamedIn, Field, TaskClass, IsTrue, OrDefault, ToolReason, ToolCount;
    var reasons := If(TaskClass(d.payload) != INSPECTION, ClassNotReadOnly);
    var expectedVersion := OrDefault(p.toolPolicyVersion, DEFAULT_TOOL_VERSION);
    var expectedHash := OrDefault(p.toolPolicyHash, DEFAULT_TOOL_HASH);
    var version := Field(d.payload, "tool_security_policy_version");
    reasons := reasons + If(Truthy(version) && version != Str(expectedVersion), ToolVersionMismatch);
    var hash := Field(d.payload, "tool_security_policy_hash");
    reasons := reasons + If(Truthy(hash) && hash != Str(expectedHash), ToolHashMismatch);
    var activeHash := OrDefault(d.activeToolHash, expectedHash);
    reasons := reasons + If(activeHash != expectedHash, ActiveToolHashMismatch);
    var tool := Field(d.payload, "tool_id");
    reasons := reasons + ToolReason(p, tool);
    var count := CountTools(d.payload);
    if count.None? {
      return TypeError;
    }
    reasons := reasons + If(count.value > p.maxToolInvocations, ToolBudgetExceeded);
    reasons := reasons + If(IsTrue(Field(d.payload, "network_enabled")), NetworkDenied);
    reasons := reasons + If(IsTrue(Field(d.payload, "mcp_enabled")), McpDenied);
    reasons := reasons + If(AsksForShell(d.payload), ShellDenied);
    v := Blocking(reasons);
  }

  method ValidateIntent(p: Policy, d: Dispatch) returns (v: Verdict)
    ensures v == Validate(p, d)
    ensures v == Blocking([]) <==> Permitted(p, d)
  {
    hide If, ReadOnlyReasons, Permitted, AsksForTools, TaskClass, Mode, NamedIn, Field, IsTrue;
    PermittedIff(p, d);
    var reasons := If(d.actionType !in p.actionTypes, ActionTypeDisabled);
    if d.profileId !in p.profiles {
      return Blocking(reasons + [ProfileUnknown]);
    }
    var rule := p.profiles[d.profileId];
    if rule.status == Disabled {
      return Blocking(reasons + [ProfileDisabled]);
    }
    reasons := reasons + If(d.actionType !in rule.actionTypes, ProfileActionDisabled);
    if d.risk == "CRITICAL" {
      reasons := reasons + [RiskCritical];
    } else {
      reasons := reasons + If(d.risk !in rule.riskTiers, RiskNotPermitted);
    }
    reasons := reasons + If(Field(d.payload, "execution_mode") in DENIED_MODES, ModeDenied);
    var taskClass, mode := TaskClass(d.payload), Mode(d.payload);
    if !NamedIn(mode, rule.modes) {
      return Blocking(reasons + [ModeNotPermitted]);
    }
    if !NamedIn(taskClass, rule.taskClasses) {
      return Blocking(reasons + [TaskClassNotPermitted]);
    }
    var inMode: Verdict;
    if mode == NO_TOOLS {
      inMode := Blocking(
        If(!NamedIn(taskClass, ["REASONING_ONLY", "DRAFT_GENERATION"]), ClassNeedsTools)
        + If(AsksForTools(d.payload), ToolsNotAllowed));
    } else if mode == READ_ONLY {
      inMode := ValidateReadOnly(p, d);
      if inMode.TypeError? {
        return TypeError;
      }
    } else {
      inMode := Blocking([ModeUnrecognized]);
    }
    reasons := reasons + inMode.reasons
      + If(!rule.sideEffectsAllowed && IsTrue(Field(d.payload, "side_effects_requested")), SideEffectsDenied);
    v := Blocking(reasons);
  }

  // ----------------------------------------------------------------------------
  // What admission means
  // ----------------------------------------------------------------------------

  predicate BoundTo(j: Json, expected: string)
  {
    Truthy(j) ==> j == Str(expected)
  }

  /** One approved tool, bound to the right tool policy, within budget, and no channel out. */
  predicate InspectionPermitted(p: Policy, d: Dispatch)
  {
    var hash := OrDefault(p.toolPolicyHash, DEFAULT_TOOL_HASH);
    var tool, count := Field(d.payload, "tool_id"), ToolCount(d.payload);
    && TaskClass(d.payload) == INSPECTION
    && Truthy(tool) && NamedIn(tool, EffectiveTools(p))
    && count.Some? && count.value <= p.maxToolInvocations
    && BoundTo(Field(d.payload, "tool_security_policy_version"), OrDefault(p.toolPolicyVersion, DEFAULT_TOOL_VERSION))
    && BoundTo(Field(d.payload, "tool_security_policy_hash"), hash)
    && OrDefault(d.activeToolHash, hash) == hash
    && !IsTrue(Field(d.payload, "network_enabled")) && !IsTrue(Field(d.payload, "mcp_enabled"))
    && !AsksForShell(d.payload)
  }

  predicate ReasoningPermitted(d: Dispatch)
  {
    NamedIn(TaskClass(d.payload), ["REASONING_ONLY", "DRAFT_GENERATION"]) && !AsksForTools(d.payload)
  }

  /** Every demand a policy makes of an intent, in no particular order. */
  predicate Permitted(p: Policy, d: Dispatch)
  {
    && d.profileId in p.profiles
    && var rule := p.profiles[d.profileId];
       && rule.status != Disabled
       && d.actionType in p.actionTypes && d.actionType in rule.actionTypes
       && d.risk != "CRITICAL" && d.risk in rule.riskTiers
       && NamedIn(TaskClass(d.payload), rule.taskClasses) && NamedIn(Mode(d.payload), rule.modes)
       && (IsTrue(Field(d.payload, "side_effects_requested")) ==> rule.sideEffectsAllowed)
       && (|| (Mode(d.payload) == NO_TOOLS && ReasoningPermitted(d))
           || (Mode(d.payload) == READ_ONLY && InspectionPermitted(p, d)))
  }

  lemma InspectionPermittedIff(p: Policy, d: Dispatch)
    ensures ReadOnlyReasons(p, d) == Blocking([]) <==> InspectionPermitted(p, d)
  {
  }

  lemma ReasoningPermittedIff(p: Policy, d: Dispatch)
    requires Mode(d.payload) == NO_TOOLS
    ensures ModeReasons(p, d) == Blocking([]) <==> ReasoningPermitted(d)
  {
  }

  /** Fail closed: no reasons are found exactly when every demand is met. The list of
      denied modes adds nothing to that. */
  lemma PermittedIff(p: Policy, d: Dispatch)
    ensures Validate(p, d) == Blocking([]) <==> Permitted(p, d)
  {
    hide ReadOnlyReasons, InspectionPermitted, ReasoningPermitted, AsksForTools, TaskClass;
    InspectionPermittedIff(p, d);
    if Mode(d.payload) == NO_TOOLS {
      ReasoningPermittedIff(p, d);
    }
  }
}
