/** The deployment agent's tools: an incremental deployment at resource-group or at
    subscription scope, and the prompt for missing fields. */
module Deployment {
  import opened Wrappers
  import opened Values
  import opened Records
  import opened Azure
  import opened Outcomes

  /** `deployment_status`, `deployment_error` and `deployment_result`. */
  const Keys := StatusKeys("deployment_status", "deployment_error", "deployment_result")

  /** `(parameter_file_content or {}).get("parameters", {})`, or the AttributeError a truthy
      non-dict raises before any guard. */
  function DeploymentParameters(pfc: Value): (r: Result<Value>)
    ensures !Truthy(pfc) ==> r == Ok(Obj([]))
    ensures pfc.Obj? ==> r == Ok(DictGet(pfc, "parameters", Obj([])))
    ensures Truthy(pfc) && !pfc.Obj? ==> r == Err(NoAttribute(pfc, "get"))
  {
    if !Truthy(pfc) then Ok(Obj([]))
    else if pfc.Obj? then Ok(DictGet(pfc, "parameters", Obj([])))
    else Err(NoAttribute(pfc, "get"))
  }

  /** The template as sent: a string is decoded as JSON (its error is caught with the
      deployment's own), anything else is sent as it is. */
  function SentTemplate(template: Value, parse: string -> Result<Value>): (r: Result<Value>)
    ensures template.Str? ==> r == parse(template.s)
    ensures !template.Str? ==> r == Ok(template)
  {
    if template.Str? then parse(template.s) else Ok(template)
  }

  /** The body of `begin_create_or_update` for a resource group: incremental mode, no
      location. */
  function GroupRequest(args: Record, template: Value, parameters: Value): DeploymentRequest {
    DeploymentRequest(Get(args, "subscription_id"), ResourceGroupScope(Get(args, "resource_group_name")),
                      "Incremental", template, parameters)
  }

  /** The body of `begin_create_or_update_at_subscription_scope`: incremental mode and the
      location. */
  function SubscriptionRequest(args: Record, template: Value, parameters: Value): DeploymentRequest {
    DeploymentRequest(Get(args, "subscription_id"), SubscriptionScope(Get(args, "location")),
                      "Incremental", template, parameters)
  }

  // ------------------------------------------------------------- resource group

  const GroupNamed: set<string> :=
    {"subscription_id", "resource_group_name", "template", "parameter_file_content", "location", "messages"}
  const GroupMissing := "Missing required fields for resource group deployment."

  predicate GroupReady(args: Record, parameters: Value) {
    && Truthy(Get(args, "subscription_id")) && Truthy(Get(args, "resource_group_name"))
    && Truthy(Get(args, "template")) && Truthy(parameters)
  }

  /** `deploy_resource_group_scope_tool` with the provider call `deploy`, which returns the
      deployment's result or the error it raised. */
  function DeployResourceGroupScopeTool(
    args: Record, parse: string -> Result<Value>, deploy: DeploymentRequest -> Result<Value>): (r: Step)
    requires ListOrFalsy(Get(args, "messages"))
    ensures !r.AwaitingInput?
    ensures DeploymentParameters(Get(args, "parameter_file_content")).Err? ==>
              r == Raised(DeploymentParameters(Get(args, "parameter_file_content")).error)
    ensures DeploymentParameters(Get(args, "parameter_file_content")).Ok? ==>
              var ps := DeploymentParameters(Get(args, "parameter_file_content")).value;
              var t := SentTemplate(Get(args, "template"), parse);
              && r.Next?
              && (!GroupReady(args, ps) ==> GuardFailed(Keys, args, r.state, GroupNamed, GroupMissing))
              && (GroupReady(args, ps) && t.Err? ==>
                    CallFailed(Keys, args, r.state, GroupNamed, "Resource group deployment", t.error))
              && (GroupReady(args, ps) && t.Ok? ==>
                    var d := deploy(GroupRequest(args, t.value, ps));
                    && (d.Ok? ==> Succeeded(Keys, args, r.state, GroupNamed, "Resource group deployment succeeded.", d.value))
                    && (d.Err? ==> CallFailed(Keys, args, r.state, GroupNamed, "Resource group deployment", d.error)))
  {
    match DeploymentParameters(Get(args, "parameter_file_content"))
    case Err(e) => Raised(e)
    case Ok(ps) =>
      if !GroupReady(args, ps) then Next(Refusal(Keys, args, GroupNamed, GroupMissing))
      else match SentTemplate(Get(args, "template"), parse)
        case Err(e) => Next(Failure(Keys, args, GroupNamed, "Resource group deployment", e))
        case Ok(t) =>
          match deploy(GroupRequest(args, t, ps))
          case Ok(result) => Next(Success(Keys, args, GroupNamed, "Resource group deployment succeeded.", result))
          case Err(e) => Next(Failure(Keys, args, GroupNamed, "Resource group deployment", e))
  }

  /** A resource-group deployment ignores `location`: two calls that differ only there return
      the same thing. */
  lemma GroupDeploymentIgnoresLocation(
    args: Record, a: Value, b: Value, parse: string -> Result<Value>, deploy: DeploymentRequest -> Result<Value>)
    requires ListOrFalsy(Get(args, "messages"))
    ensures DeployResourceGroupScopeTool(args["location" := a], parse, deploy)
         == DeployResourceGroupScopeTool(args["location" := b], parse, deploy)
  {
    var x, y := args["location" := a], args["location" := b];
    assert x - GroupNamed == y - GroupNamed;
    assert forall k :: k != "location" ==> Get(x, k) == Get(y, k);
  }

  // --------------------------------------------------------------- subscription

  const SubscriptionNamed: set<string> :=
    {"subscription_id", "template", "parameter_file_content", "location", "messages"}
  const SubscriptionMissing := "Missing required fields for subscription deployment."

  predicate SubscriptionReady(args: Record, parameters: Value) {
    && Truthy(Get(args, "subscription_id")) && Truthy(Get(args, "template"))
    && Truthy(parameters) && Truthy(Get(args, "location"))
  }

  /** `deploy_subscription_scope_tool` with the provider call `deploy`. */
  function DeploySubscriptionScopeTool(
    args: Record, parse: string -> Result<Value>, deploy: DeploymentRequest -> Result<Value>): (r: Step)
    requires ListOrFalsy(Get(args, "messages"))
    ensures !r.AwaitingInput?
    ensures DeploymentParameters(Get(args, "parameter_file_content")).Err? ==>
              r == Raised(DeploymentParameters(Get(args, "parameter_file_content")).error)
    ensures DeploymentParameters(Get(args, "parameter_file_content")).Ok? ==>
              var ps := DeploymentParameters(Get(args, "parameter_file_content")).value;
              var t := SentTemplate(Get(args, "template"), parse);
              && r.Next?
              && (!SubscriptionReady(args, ps) ==> GuardFailed(Keys, args, r.state, SubscriptionNamed, SubscriptionMissing))
              && (SubscriptionReady(args, ps) && t.Err? ==>
                    CallFailed(Keys, args, r.state, SubscriptionNamed, "Subscription scope deployment", t.error))
              && (SubscriptionReady(args, ps) && t.Ok? ==>
                    var d := deploy(SubscriptionRequest(args, t.value, ps));
                    && (d.Ok? ==> Succeeded(Keys, args, r.state, SubscriptionNamed, "Subscription scope deployment succeeded.", d.value))
                    && (d.Err? ==> CallFailed(Keys, args, r.state, SubscriptionNamed, "Subscription scope deployment", d.error)))
  {
    match DeploymentParameters(Get(args, "parameter_file_content"))
    case Err(e) => Raised(e)
    case Ok(ps) =>
      if !SubscriptionReady(args, ps) then Next(Refusal(Keys, args, SubscriptionNamed, SubscriptionMissing))
      else match SentTemplate(Get(args, "template"), parse)
        case Err(e) => Next(Failure(Keys, args, SubscriptionNamed, "Subscription scope deployment", e))
        case Ok(t) =>
          match deploy(SubscriptionRequest(args, t, ps))
          case Ok(result) => Next(Success(Keys, args, SubscriptionNamed, "Subscription scope deployment succeeded.", result))
          case Err(e) => Next(Failure(Keys, args, SubscriptionNamed, "Subscription scope deployment", e))
  }

  /** Neither tool calls the provider when its guard refuses, and a deployment needs non-empty
      parameters: a parameter file without a "parameters" entry is always refused. */
  lemma NoParametersNoDeployment(
    args: Record, parse: string -> Result<Value>, d1: DeploymentRequest -> Result<Value>, d2: DeploymentRequest -> Result<Value>)
    requires ListOrFalsy(Get(args, "messages"))
    requires Get(args, "parameter_file_content").Obj?
    requires Lookup(Get(args, "parameter_file_content").fields, "parameters").None?
    ensures DeployResourceGroupScopeTool(args, parse, d1) == DeployResourceGroupScopeTool(args, parse, d2)
    ensures DeploySubscriptionScopeTool(args, parse, d1) == DeploySubscriptionScopeTool(args, parse, d2)
    ensures Get(DeployResourceGroupScopeTool(args, parse, d1).state, "deployment_error") == Str(GroupMissing)
    ensures Get(DeploySubscriptionScopeTool(args, parse, d1).state, "deployment_error") == Str(SubscriptionMissing)
  {
    assert DeploymentParameters(Get(args, "parameter_file_content")) == Ok(Obj([]));
    assert !GroupReady(args, Obj([])) && !SubscriptionReady(args, Obj([]));
  }

  // --------------------------------------------------------------------- prompt

  const DeployFallback := "Missing or invalid fields for deployment."

  /** `prompt_for_missing_deploy_tool`: interrupts with the recorded error, or the fixed text
      when there is none. */
  function PromptForMissingDeployTool(args: Record): (r: Step)
    requires OptStr(Get(args, "deployment_error"))
    ensures Truthy(Get(args, "deployment_error")) ==> r == AwaitingInput(Get(args, "deployment_error").s)
    ensures !Truthy(Get(args, "deployment_error")) ==> r == AwaitingInput(DeployFallback)
  {
    AwaitingInput(PromptText(Get(args, "deployment_error"), DeployFallback))
  }
}
