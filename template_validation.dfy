/** The template-validation graph: the subscription and resource-group existence checks, the
    LLM-based template validation node, the prompt node and the route between them; and the
    ARM parameter type check. */
module TemplateValidation {
  import opened Wrappers
  import opened Text
  import opened Values
  import opened Records
  import opened Azure
  import ValidationAgent

  // ------------------------------------------------------------ ARM type check

  /** The Python types the ARM parameter types map to. */
  datatype PyType = StrType | IntType | BoolType | ListType | DictType

  /** The type table, keyed exactly as written: note the one key that is not lower-case. */
  const TypeMap: map<string, PyType> := map[
    "string" := StrType, "int" := IntType, "bool" := BoolType, "array" := ListType,
    "object" := DictType, "securestring" := StrType, "secureObject" := DictType]

  /** `isinstance(value, t)`. */
  predicate IsInstance(value: Value, t: PyType) {
    match t
    case StrType => value.Str?
    case IntType => value.Int? || value.Bool?
    case BoolType => value.Bool?
    case ListType => value.Arr?
    case DictType => value.Obj?
  }

  /** `int(value)` does not raise: booleans, integers and floats convert, a string converts when
      it is an integer literal (`intLiteral`, left abstract), nothing else does. */
  predicate IntConvertible(value: Value, intLiteral: string -> bool) {
    match value
    case Bool(_) => true
    case Int(_) => true
    case Float(_) => true
    case Str(s) => intLiteral(s)
    case _ => false
  }

  /** `_is_type_valid`: the lower-cased type name is looked up in the table; an unknown name
      accepts anything, "int" accepts what `int()` converts, the others need the mapped type. */
  function IsTypeValid(value: Value, expectedType: string, intLiteral: string -> bool): (r: bool)
    ensures Lower(expectedType) == "string" || Lower(expectedType) == "securestring" ==> (r <==> value.Str?)
    ensures Lower(expectedType) == "int" ==> (r <==> IntConvertible(value, intLiteral))
    ensures Lower(expectedType) == "bool" ==> (r <==> value.Bool?)
    ensures Lower(expectedType) == "array" ==> (r <==> value.Arr?)
    ensures Lower(expectedType) == "object" ==> (r <==> value.Obj?)
    ensures Lower(expectedType) !in {"string", "securestring", "int", "bool", "array", "object"} ==> r
  {
    var key := Lower(expectedType);
    assert key != "secureObject" by {
      if |key| == 12 {
        LowerIndex(expectedType, 6);
      }
    }
    if key !in TypeMap then true
    else if key == "int" then IntConvertible(value, intLiteral)
    else IsInstance(value, TypeMap[key])
  }

  /** The lower-cased form of the table key "secureObject". */
  lemma LowerSecureObject()
    ensures Lower("secureObject") == "secureobject"
  {
    LowerEq("secureObject", "secureobject");
  }

  /** Because its table key is not lower-case, "secureObject" in any casing accepts every value. */
  lemma SecureObjectAcceptsAnything(value: Value, expectedType: string, intLiteral: string -> bool)
    requires Lower(expectedType) == "secureobject"
    ensures IsTypeValid(value, expectedType, intLiteral)
  {
  }

  /** The check ignores the casing of the type name. */
  lemma TypeNameCaseInsensitive(value: Value, a: string, b: string, intLiteral: string -> bool)
    requires Lower(a) == Lower(b)
    ensures IsTypeValid(value, a, intLiteral) == IsTypeValid(value, b, intLiteral)
  {
  }

  /** The table with every key lower-case, as the lower-cased lookup needs it. */
  const LowerTypeMap: map<string, PyType> := map[
    "string" := StrType, "int" := IntType, "bool" := BoolType, "array" := ListType,
    "object" := DictType, "securestring" := StrType, "secureobject" := DictType]

  /** The type check as evidently intended: "secureObject" in any casing needs a dict. */
  function IsTypeValidCorrected(value: Value, expectedType: string, intLiteral: string -> bool): (r: bool)
    ensures Lower(expectedType) == "string" || Lower(expectedType) == "securestring" ==> (r <==> value.Str?)
    ensures Lower(expectedType) == "int" ==> (r <==> IntConvertible(value, intLiteral))
    ensures Lower(expectedType) == "bool" ==> (r <==> value.Bool?)
    ensures Lower(expectedType) == "array" ==> (r <==> value.Arr?)
    ensures Lower(expectedType) == "object" || Lower(expectedType) == "secureobject" ==> (r <==> value.Obj?)
    ensures Lower(expectedType) !in LowerTypeMap ==> r
  {
    var key := Lower(expectedType);
    if key !in LowerTypeMap then true
    else if key == "int" then IntConvertible(value, intLiteral)
    else IsInstance(value, LowerTypeMap[key])
  }

  /** The correction changes the answer for "secureObject" only. */
  lemma CorrectionOnlyTouchesSecureObject(value: Value, expectedType: string, intLiteral: string -> bool)
    requires Lower(expectedType) != "secureobject"
    ensures IsTypeValidCorrected(value, expectedType, intLiteral) == IsTypeValid(value, expectedType, intLiteral)
  {
  }

  /** An integer passed for a "secureObject" parameter: the check as written accepts it, the
      corrected check rejects it. */
  lemma SecureObjectAcceptsInteger(intLiteral: string -> bool)
    ensures IsTypeValid(Int(0), "secureObject", intLiteral)
    ensures !IsTypeValidCorrected(Int(0), "secureObject", intLiteral)
  {
    LowerSecureObject();
    SecureObjectAcceptsAnything(Int(0), "secureObject", intLiteral);
  }

  // ---------------------------------------------------------- existence checks

  /** Some listed subscription has exactly this id and is enabled; a failed listing counts as
      no subscription. */
  predicate SubscriptionExists(sid: Value, listing: Result<seq<Subscription>>) {
    listing.Ok? && exists i :: 0 <= i < |listing.value| && Str(listing.value[i].id) == sid && IsEnabled(listing.value[i])
  }

  /** `check_subscription_exists`: the search loop that returns at the first enabled
      subscription with the id. */
  method CheckSubscriptionExists(sid: Value, listing: Result<seq<Subscription>>) returns (found: bool)
    ensures found == SubscriptionExists(sid, listing)
  {
    if listing.Err? {
      return false;
    }
    var subs := listing.value;
    var i := 0;
    while i < |subs|
      invariant 0 <= i <= |subs|
      invariant forall j :: 0 <= j < i ==> !(Str(subs[j].id) == sid && IsEnabled(subs[j]))
    {
      if Str(subs[i].id) == sid && IsEnabled(subs[i]) {
        return true;
      }
      i := i + 1;
    }
    return false;
  }

  /** `check_resource_group_exists`: the provider's answer, `False` when it raises. */
  function ResourceGroupExists(answer: Result<bool>): (found: bool)
    ensures found <==> answer == Ok(true)
  {
    answer.Ok? && answer.value
  }

  /** `check_subscription_node`: looks the subscription up only when an id is given. */
  function CheckSubscriptionNode(state: Record, listing: Result<seq<Subscription>>): (r: Record)
    ensures MergedFrom(state, r, {}, {"subscription_exists"})
    ensures r["subscription_exists"]
              == Bool(Truthy(Get(state, "subscription_id")) && SubscriptionExists(Get(state, "subscription_id"), listing))
  {
    var sid := Get(state, "subscription_id");
    state["subscription_exists" := Bool(Truthy(sid) && SubscriptionExists(sid, listing))]
  }

  /** Without an id the subscription node's answer does not depend on the listing. */
  lemma SubscriptionNodeGuard(state: Record, l1: Result<seq<Subscription>>, l2: Result<seq<Subscription>>)
    requires !Truthy(Get(state, "subscription_id"))
    ensures CheckSubscriptionNode(state, l1) == CheckSubscriptionNode(state, l2)
    ensures CheckSubscriptionNode(state, l1)["subscription_exists"] == Bool(false)
  {
  }

  /** `check_resource_group_node`: asks the provider only when both the subscription and the
      resource group are given. */
  function CheckResourceGroupNode(state: Record, rgExists: (Value, Value) -> Result<bool>): (r: Record)
    ensures MergedFrom(state, r, {}, {"resource_group_exists"})
    ensures var sid := Get(state, "subscription_id");
      var rg := Get(state, "resource_group_name");
      r["resource_group_exists"] == Bool(Truthy(sid) && Truthy(rg) && rgExists(sid, rg) == Ok(true))
  {
    var sid := Get(state, "subscription_id");
    var rg := Get(state, "resource_group_name");
    state["resource_group_exists" := Bool(Truthy(sid) && Truthy(rg) && ResourceGroupExists(rgExists(sid, rg)))]
  }

  /** Without both fields the resource-group node's answer does not depend on the provider. */
  lemma ResourceGroupNodeGuard(state: Record, p1: (Value, Value) -> Result<bool>, p2: (Value, Value) -> Result<bool>)
    requires !Truthy(Get(state, "subscription_id")) || !Truthy(Get(state, "resource_group_name"))
    ensures CheckResourceGroupNode(state, p1) == CheckResourceGroupNode(state, p2)
    ensures CheckResourceGroupNode(state, p1)["resource_group_exists"] == Bool(false)
  {
  }

  // ------------------------------------------------------------------ validation

  /** The four results the validation node writes when the model judged the template. */
  const JudgedKeys: set<string> :=
    {"parameter_file_content", "missing_parameters", "extra_fields", "validation_error"}

  /** The state with the model's four results written over it. */
  function WriteJudgement(state: Record, v: ValidationAgent.Validation): (r: Record)
    requires v.Judged?
    ensures MergedFrom(state, r, {}, JudgedKeys)
    ensures r["parameter_file_content"] == v.parameterFileContent
    ensures r["missing_parameters"] == v.missingParameters
    ensures r["extra_fields"] == v.extraFields
    ensures r["validation_error"] == v.validationError
  {
    state["parameter_file_content" := v.parameterFileContent]["missing_parameters" := v.missingParameters]
         ["extra_fields" := v.extraFields]["validation_error" := v.validationError]
  }

  /** `template_validation_node`: a rejection writes only `validation_error`; a judgement
      writes the four results. Everything else in the state is kept. */
  function TemplateValidationNode(state: Record, llm: (Value, Value) -> string,
                                  parse: string -> Result<Value>): (r: Record)
    ensures var v := ValidationAgent.ValidateTemplate(
              Get(state, "template"), GetOr(state, "provided_fields", Obj([])), llm, parse);
      && (v.Rejected? ==>
            MergedFrom(state, r, {}, {"validation_error"}) && r["validation_error"] == Str(v.error))
      && (v.Judged? ==>
            && MergedFrom(state, r, {}, JudgedKeys)
            && r["parameter_file_content"] == v.parameterFileContent
            && r["missing_parameters"] == v.missingParameters
            && r["extra_fields"] == v.extraFields
            && r["validation_error"] == v.validationError)
    ensures !Truthy(Get(state, "template")) ==> r == state["validation_error" := Str(ValidationAgent.NoTemplate)]
  {
    var v := ValidationAgent.ValidateTemplate(Get(state, "template"), GetOr(state, "provided_fields", Obj([])), llm, parse);
    if v.Rejected? then state["validation_error" := Str(v.error)] else WriteJudgement(state, v)
  }

  /** `prompt_for_missing_node`: interrupts with the prompt, unless joining the missing names
      raises. */
  function PromptForMissingNode(state: Record, show: Value -> string): (r: Step)
    ensures !r.Next?
    ensures var m := ValidationAgent.PromptMessage(
              GetOr(state, "missing_parameters", Arr([])), Get(state, "validation_error"), show);
      && (m.Ok? ==> r == AwaitingInput(m.value))
      && (m.Err? ==> r == Raised(m.error))
  {
    match ValidationAgent.PromptMessage(GetOr(state, "missing_parameters", Arr([])), Get(state, "validation_error"), show)
    case Ok(message) => AwaitingInput(message)
    case Err(e) => Raised(e)
  }

  /** The node and the tool ask the user the same thing for the same record. */
  lemma PromptNodeMatchesTool(state: Record, show: Value -> string)
    ensures PromptForMissingNode(state, show) == ValidationAgent.PromptForMissingTool(state, show)
  {
    if "missing_parameters" !in state {
      assert !Truthy(GetOr(state, "missing_parameters", Arr([])));
      assert !Truthy(Get(state, "missing_parameters"));
    }
  }

  // ----------------------------------------------------------------------- graph

  /** The conditional edge out of validation: prompt when parameters are missing or
      `type_errors` is set. `validation_error` plays no part. */
  function RouteToPrompt(state: Record): (prompt: bool)
    ensures prompt <==> Truthy(Get(state, "missing_parameters")) || Truthy(Get(state, "type_errors"))
  {
    Truthy(Get(state, "missing_parameters")) || Truthy(Get(state, "type_errors"))
  }

  /** Setting `validation_error`, to any value, never changes where the route goes. */
  lemma ValidationErrorAloneEnds(state: Record, e: Value)
    ensures RouteToPrompt(state["validation_error" := e]) == RouteToPrompt(state)
  {
    var s' := state["validation_error" := e];
    assert Get(s', "missing_parameters") == Get(state, "missing_parameters");
    assert Get(s', "type_errors") == Get(state, "type_errors");
  }

  datatype Stage = CheckSubscription | CheckResourceGroup | Validate | PromptForMissing

  datatype Run = Run(trace: seq<Stage>, outcome: Step)

  /** The graph from START: both checks, validation, then the prompt when the route asks for
      it, otherwise the end. */
  function RunTemplateValidation(
    state: Record, listing: Result<seq<Subscription>>, rgExists: (Value, Value) -> Result<bool>,
    llm: (Value, Value) -> string, parse: string -> Result<Value>, show: Value -> string): (r: Run)
    ensures 3 <= |r.trace| <= 4
    ensures r.trace[0] == CheckSubscription && r.trace[1] == CheckResourceGroup && r.trace[2] == Validate
    ensures r.outcome.Next? <==> PromptForMissing !in r.trace
  {
    AfterValidation(TemplateValidationNode(
      CheckResourceGroupNode(CheckSubscriptionNode(state, listing), rgExists), llm, parse), show)
  }

  /** The run from the validated state on: the prompt when the route asks for it, otherwise
      the end. */
  function AfterValidation(validated: Record, show: Value -> string): (r: Run)
    ensures 3 <= |r.trace| <= 4
    ensures r.trace[0] == CheckSubscription && r.trace[1] == CheckResourceGroup && r.trace[2] == Validate
    ensures r.outcome.Next? <==> PromptForMissing !in r.trace
    ensures PromptForMissing in r.trace <==> RouteToPrompt(validated)
  {
    if RouteToPrompt(validated) then
      Run([CheckSubscription, CheckResourceGroup, Validate, PromptForMissing], PromptForMissingNode(validated, show))
    else Run([CheckSubscription, CheckResourceGroup, Validate], Next(validated))
  }

  /** No node writes `type_errors`: the route's second test only ever sees the value the run
      started with. */
  lemma TypeErrorsNeverWritten(
    state: Record, listing: Result<seq<Subscription>>, rgExists: (Value, Value) -> Result<bool>,
    llm: (Value, Value) -> string, parse: string -> Result<Value>)
    ensures Get(TemplateValidationNode(CheckResourceGroupNode(CheckSubscriptionNode(state, listing), rgExists), llm, parse),
                "type_errors") == Get(state, "type_errors")
  {
    var s1 := CheckSubscriptionNode(state, listing);
    var s2 := CheckResourceGroupNode(s1, rgExists);
    var s3 := TemplateValidationNode(s2, llm, parse);
    MergedKeeps(state, s1, {}, {"subscription_exists"}, "type_errors");
    MergedKeeps(s1, s2, {}, {"resource_group_exists"}, "type_errors");
    var v := ValidationAgent.ValidateTemplate(Get(s2, "template"), GetOr(s2, "provided_fields", Obj([])), llm, parse);
    if v.Rejected? {
      MergedKeeps(s2, s3, {}, {"validation_error"}, "type_errors");
    } else {
      MergedKeeps(s2, s3, {}, JudgedKeys, "type_errors");
    }
  }

  /** The run reaches the prompt exactly when validation left missing parameters, or the
      record already carried type errors when the run started. */
  lemma PromptIffMissingOrTypeErrors(
    state: Record, listing: Result<seq<Subscription>>, rgExists: (Value, Value) -> Result<bool>,
    llm: (Value, Value) -> string, parse: string -> Result<Value>, show: Value -> string)
    ensures var validated := TemplateValidationNode(
              CheckResourceGroupNode(CheckSubscriptionNode(state, listing), rgExists), llm, parse);
      (PromptForMissing in RunTemplateValidation(state, listing, rgExists, llm, parse, show).trace
       <==> Truthy(Get(validated, "missing_parameters")) || Truthy(Get(state, "type_errors")))
  {
    TypeErrorsNeverWritten(state, listing, rgExists, llm, parse);
  }

  /** A record without a template ends the run with the "No template found." error and no
      prompt, unless earlier missing parameters or type errors are still in the state. */
  lemma MissingTemplateEndsWithoutPrompt(
    state: Record, listing: Result<seq<Subscription>>, rgExists: (Value, Value) -> Result<bool>,
    llm: (Value, Value) -> string, parse: string -> Result<Value>, show: Value -> string)
    requires !Truthy(Get(state, "template"))
    requires !Truthy(Get(state, "missing_parameters")) && !Truthy(Get(state, "type_errors"))
    ensures var r := RunTemplateValidation(state, listing, rgExists, llm, parse, show);
      && PromptForMissing !in r.trace
      && r.outcome.Next?
      && r.outcome.state["validation_error"] == Str(ValidationAgent.NoTemplate)
  {
    var s1 := CheckSubscriptionNode(state, listing);
    var s2 := CheckResourceGroupNode(s1, rgExists);
    assert Get(s2, "template") == Get(state, "template");
    assert Get(s2, "missing_parameters") == Get(state, "missing_parameters");
    TypeErrorsNeverWritten(state, listing, rgExists, llm, parse);
  }

  /** Whenever the model reports missing parameters, the run ends in a prompt (or in the join
      error for a malformed list); it never ends quietly. */
  lemma MissingParametersPrompt(
    state: Record, listing: Result<seq<Subscription>>, rgExists: (Value, Value) -> Result<bool>,
    llm: (Value, Value) -> string, parse: string -> Result<Value>, show: Value -> string)
    requires Truthy(Get(TemplateValidationNode(
               CheckResourceGroupNode(CheckSubscriptionNode(state, listing), rgExists), llm, parse), "missing_parameters"))
    ensures var r := RunTemplateValidation(state, listing, rgExists, llm, parse, show);
      && r.trace == [CheckSubscription, CheckResourceGroup, Validate, PromptForMissing]
      && !r.outcome.Next?
  {
  }
}
