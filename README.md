# ARMA decision logic in Dafny

ARMA is a chat assistant that turns a request such as "create a storage account in rg-demo"
into an Azure Resource Manager (ARM) deployment. A chain of LangGraph agents does the work:

- intent detection reads the request with a language model, fetches a quickstart template
  from a local catalog and works out the deployment scope;
- validation checks the subscription and the resource group, asks the model to check the
  template's parameters and prompts the user for anything missing;
- resource actions get, list or delete existing resources;
- deployment runs an incremental deployment at resource-group or subscription scope;
- the chat front end turns the final state into a summary text.

This project models the deterministic layer inside those agents: the tools and graph nodes
over the shared conversation record, their guards, result records and error paths, the
routing between graph stages, the subscription scan, the clean-up of the model's answer, the
ARM parameter type check and the deployment summary.

How the model is built:

- The record is a `map<string, Value>` (`Records`). `Value` is a JSON-like datatype
  (`Values`); a dict keeps its entries in insertion order.
- A tool receives its keyword arguments as one record. `{**kwargs, ...}` is the record minus
  the tool's named parameters, with its own keys written over it. `Records.MergedFrom` states
  this shape, and with it that every other key is left alone.
- The language model, JSON decoding, the Azure SDK and the file system are function-typed
  parameters. `str()` of numbers, lists and dicts is the abstract `show`.
- A LangGraph `interrupt` is the outcome `AwaitingInput(message)`. An exception that escapes a
  tool or node is `Raised(text)`, with the text Python would give.
- Code that loops in the source is a method with a loop, proved equal to a specification
  function:
  - the two subscription scans and the missing-field list;
  - the fence stripping and the prompt composition;
  - the summary's output loop.

Where the specification and the code disagree, the model follows the code:

- The specification reads as if a validation error alone sends the template-validation graph
  to the prompt. The route at `agents/template_validation_agent.py:212` tests only
  `missing_parameters` and `type_errors`. No node writes `type_errors`, so a validation error
  alone ends the run (`TemplateValidation.TypeErrorsNeverWritten`).
- The intent tool stores the decoded template. The intent graph node stores the file's raw
  text. Both yield the same scope unless the text decodes to a bare JSON string
  (`IntentAgent.RawAndDecodedScopeAgree`).

## Model

| member | source | states |
|---|---|---|
| Values.LookupSpec | agents/intent_agent.py:69-76 | `dict.get` finds a value exactly when some entry has the key, and what it finds is that entry's value |
| Text.ContainsIffOccurs | agents/intent_agent.py:153 | The substring test `pat in s` holds exactly when `pat` occurs at some index of `s` |
| Text.SplitOnceOfJoin | agents/intent_agent.py:102 | `split("/", 1)` undoes joining two parts around the first separator |
| Text.JoinSplit | agents/validation_agent.py:220-224 | Joining the pieces of `s.split("\n")` with "\n" gives `s` back |
| ResourceTypes.SplitResourceType | agents/intent_agent.py:102 | Splitting succeeds exactly for a str with a "/": it gives the parts around the first "/" and the first part holds no "/". Without a "/" it is the unpack ValueError, and a non-str has no `split` |
| ResourceTypes.SplitResourceTypeOf | agents/intent_agent.py:102 | `ns + "/" + rest`, with no "/" in `ns`, splits back into `(ns, rest)` |
| IntentAgent.ExtractedFields | agents/intent_agent.py:69-76 | Exactly the eight extracted keys are written. Each plain field is `result.get(k)`, `provided_fields` defaults to `{}`, and `user_query` is the user's message |
| IntentAgent.Extract | agents/intent_agent.py:56-59 | Unparseable output leaves every plain field None and `provided_fields == {}`. Decoded fields are copied. An answer that decodes to a non-dict raises the AttributeError of `.get` |
| IntentAgent.ExtractedRecord | agents/intent_agent.py:61-77 | The other keyword arguments are kept, the extracted fields are written, and exactly one assistant message with the raw answer is appended |
| IntentAgent.ExtractIntentTool | agents/intent_agent.py:36-77 | Succeeds exactly when extraction does. It then appends exactly one assistant message with the raw answer, sets `user_query` to the last message's content and keeps every other argument |
| IntentAgent.CatalogFetch | agents/intent_agent.py:97-115 | No resource type gives "No resource_type provided." with an empty path. A failed split gives its error with an empty path. Otherwise the path is the catalog path, and a missing file gives "Template file not found: <path>" |
| IntentAgent.CatalogPathOf | agents/intent_agent.py:102-103 | The path of `ns/rest` is `"quickstarts/" + lower(ns) + "/" + lower(rest) + ".json"`; only the first "/" splits |
| IntentAgent.FetchTemplateTool | agents/intent_agent.py:84-127 | `template` is `{}` and `template_error` is set on every failure: "No resource_type provided.", the split error, "Template file not found: <path>", or the read error of an unreadable file. `template_error` is None exactly when the file was found, and then `template` is its content. One note names the path or "not found" |
| IntentAgent.ScopeOf | agents/intent_agent.py:146-158 | A `$schema` containing "subscription" gives "subscription", and any other str schema gives "resourceGroup". A list or dict schema tests membership of "subscription" as an item or a key. Any other schema value, no schema, an empty template or an undecodable string gives None |
| IntentAgent.RawAndDecodedScopeAgree | agents/intent_detection_langgraph.py:98-105 | The raw text and its decoded value give the same scope, unless it decodes to a bare string |
| IntentAgent.DetermineScopeTool | agents/intent_agent.py:134-169 | Writes the scope and one note "Scope determined: <scope>", and does not pass the template on |
| IntentAgent.ScopeFieldsMissing | agents/intent_agent.py:190-194 | "resource_group_name" is listed exactly when the group is falsy, and "subscription_id or subscription_name" exactly when both are falsy, in that order |
| IntentAgent.CollectMissingScopeFields | agents/intent_agent.py:190-194 | The list built by the two appends equals `ScopeFieldsMissing` |
| IntentAgent.ScopePrompts | agents/intent_agent.py:196-197 | The three possible prompts, with the names joined by ", " |
| IntentAgent.CheckScopeFieldsTool | agents/intent_agent.py:176-215 | Interrupts exactly when a scope field is missing, with the enumerated prompt. Otherwise it returns the three fields as given and appends exactly one note |
| IntentGraph.NodeUserMessage | agents/intent_detection_langgraph.py:42 | `state["messages"][-1].content`, or the KeyError, the IndexError or the AttributeError text |
| IntentGraph.IntentExtractionNode | agents/intent_detection_langgraph.py:35-62 | Overwrites only the eight extracted keys, with the extraction's values and `user_query`; every other key, messages included, is kept |
| IntentGraph.TemplateFetchNode | agents/intent_detection_langgraph.py:65-88 | Stores the raw file text and its path. On any failure it stores "{}", "" and the error text. Every other key is kept |
| IntentGraph.ScopeDeterminationNode | agents/intent_detection_langgraph.py:91-109 | Writes only `scope`, with the same mapping as the tool |
| IntentGraph.FailedFetchHasNoScope | agents/intent_detection_langgraph.py:86-109 | After a failed fetch the stored "{}" yields scope None |
| IntentGraph.ScopeFieldsCheckNode | agents/intent_detection_langgraph.py:112-129 | Returns the state unchanged exactly when the group and a subscription identifier are present, and otherwise interrupts with the tool's prompt |
| IntentGraph.RunIntentDetection | agents/intent_detection_langgraph.py:132-146 | Every run starts with extraction. Only extraction can raise, and only the scope-field check can interrupt |
| IntentGraph.RunShapes | agents/intent_detection_langgraph.py:139-146 | Each run follows one of three stage sequences, and every successful extraction is followed by the scope check. Template fetch is always followed by scope determination, which ends the run |
| IntentGraph.TemplateFetchIffCreateOrUpdate | agents/intent_detection_langgraph.py:139-144 | Template fetch runs exactly when extraction succeeded, the scope fields are present and the intent is "create" or "update" |
| IntentGraph.CreateRunScope | agents/intent_detection_langgraph.py:139-146 | A run through template fetch ends with the raw file text and its scope, or with `template_error` |
| ValidationAgent.FirstMatch | agents/validation_agent.py:61-78 | The first subscription matching by exact id or by trimmed, lower-cased name; none before it matches |
| ValidationAgent.SubscriptionVerdict | agents/validation_agent.py:54-78 | `exists` holds iff the first match is enabled. A match by id takes Azure's name, and a match by name takes Azure's id. A mismatch is flagged when a supplied name differs, or whenever an id was supplied in the name branch. No match returns the id and name as supplied |
| ValidationAgent.ScanSubscriptions | agents/validation_agent.py:54-78 | The loop with `break` computes `SubscriptionVerdict` |
| ValidationAgent.SubscriptionRecord | agents/validation_agent.py:80-97 | A mismatch adds the warning note before the status note. The record carries `subscription_exists` and the found id and name, and nothing else changes |
| ValidationAgent.CheckSubscriptionTool | agents/validation_agent.py:44-97 | A listing that raised reports "not found" with the supplied id and name; otherwise the scan's verdict is reported |
| ValidationAgent.SubscriptionExistsIffFirstMatchEnabled | agents/validation_agent.py:61-78 | `subscription_exists` holds exactly when the listing succeeded and the first matching subscription is enabled |
| ValidationAgent.CheckResourceGroupTool | agents/validation_agent.py:104-129 | The result is true exactly when both fields are truthy and the provider answers true. One note, "exists" or "not found" |
| ValidationAgent.ResourceGroupGuard | agents/validation_agent.py:112-117 | Without both fields the answer is false and does not depend on the provider |
| ValidationAgent.CreateResourceGroupTool | agents/validation_agent.py:136-174 | A missing group, subscription or location fails with the fixed error. Success writes status "success" and no error key. A provider error writes "failed" and the error text |
| ValidationAgent.CreateResourceGroupGuard | agents/validation_agent.py:145-152 | A creation missing a field does not depend on the provider |
| ValidationAgent.Unfenced | agents/validation_agent.py:218-224 | Text that does not start with a fence is only stripped |
| ValidationAgent.StripCodeFence | agents/validation_agent.py:218-224 | The step-by-step stripping computes `Unfenced` |
| ValidationAgent.UnfenceFenced | agents/validation_agent.py:218-224 | A body wrapped in "```tag" and "```" comes back as the stripped body |
| ValidationAgent.TemplateParameters | agents/validation_agent.py:198-201 | `t.get("parameters", {})` of the decoded template, the decoding error, or the AttributeError for a non-dict |
| ValidationAgent.FallbackEntries | agents/validation_agent.py:228 | The fallback record yields `{}`, `[]`, `[]` and "Failed to parse LLM output." |
| ValidationAgent.Interpret | agents/validation_agent.py:230-233 | Only a dict answer is judged, and the fallback record gives the fixed parse-failure judgement |
| ValidationAgent.ValidateTemplate | agents/validation_agent.py:190-239 | No template gives "No template found.", and empty parameters give "No parameters section in template.". An undecodable answer gives the fallback, and otherwise the answer is read |
| ValidationAgent.ValidationRecord | agents/validation_agent.py:240-253 | Writes the four results and one note, and never returns `template` |
| ValidationAgent.TemplateValidationTool | agents/validation_agent.py:181-253 | The four results are always written, as empty values and the error on every rejection, and the template is never returned |
| ValidationAgent.PromptMessage | agents/validation_agent.py:268-275 | The missing-parameters sentence, then "Validation error: e", joined by one space. With neither, the fixed text. A missing list that cannot be joined raises |
| ValidationAgent.ComposePromptMessage | agents/validation_agent.py:268-275 | The appends compute `PromptMessage` |
| ValidationAgent.MissingSentenceOfNames | agents/validation_agent.py:270 | A list of names gives "Missing required parameters: a, b." |
| ValidationAgent.PromptForMissingTool | agents/validation_agent.py:260-282 | Never returns a record: it interrupts with the prompt, or raises the join error |
| TemplateValidation.IsTypeValid | agents/template_validation_agent.py:71-92 | The type name is lower-cased. "string" and "securestring" need a str, "bool" a bool, "array" a list and "object" a dict. "int" accepts exactly what `int()` converts (every float in the model is finite), and any other name accepts everything |
| TemplateValidation.SecureObjectAcceptsAnything | agents/template_validation_agent.py:79-85 | "secureObject" in any casing accepts every value, because its table key is not lower-case |
| TemplateValidation.TypeNameCaseInsensitive | agents/template_validation_agent.py:83 | Two type names that lower-case alike give the same answer |
| TemplateValidation.IsTypeValidCorrected | agents/template_validation_agent.py:71-92 | As `IsTypeValid`, but "secureObject" in any casing needs a dict |
| TemplateValidation.CorrectionOnlyTouchesSecureObject | agents/template_validation_agent.py:73-85 | The corrected check agrees with the original on every other type name |
| TemplateValidation.SecureObjectAcceptsInteger | agents/template_validation_agent.py:80-85 | The integer 0 passes the check as written for "secureObject" and fails the corrected one |
| TemplateValidation.CheckSubscriptionExists | agents/template_validation_agent.py:26-40 | The search loop returns true iff some listed subscription has exactly the id and is enabled. A failed listing gives false |
| TemplateValidation.CheckSubscriptionNode | agents/template_validation_agent.py:57-60 | Writes only `subscription_exists`, false when no id is given |
| TemplateValidation.SubscriptionNodeGuard | agents/template_validation_agent.py:59 | Without an id the answer is false and does not depend on the listing |
| TemplateValidation.ResourceGroupExists | agents/template_validation_agent.py:42-55 | True exactly when the provider answers true. A provider error counts as no group |
| TemplateValidation.CheckResourceGroupNode | agents/template_validation_agent.py:62-69 | Writes only `resource_group_exists`, true exactly when both fields are given and the provider answers true |
| TemplateValidation.ResourceGroupNodeGuard | agents/template_validation_agent.py:65-68 | Without both fields the answer is false and does not depend on the provider |
| TemplateValidation.WriteJudgement | agents/template_validation_agent.py:170-176 | Writes the four results over the state and keeps every other key |
| TemplateValidation.TemplateValidationNode | agents/template_validation_agent.py:94-179 | A rejection, including a missing template or empty parameters, writes only `validation_error`. A judgement writes the four results, and every other key is kept |
| TemplateValidation.PromptForMissingNode | agents/template_validation_agent.py:181-197 | Interrupts with the composed prompt, or raises the join error |
| TemplateValidation.PromptNodeMatchesTool | agents/template_validation_agent.py:183-195 | The node and the tool ask the same thing for the same record |
| TemplateValidation.RunTemplateValidation | agents/template_validation_agent.py:199-215 | Every run goes through both checks and then validation. It ends quietly exactly when it skips the prompt stage |
| TemplateValidation.PromptIffMissingOrTypeErrors | agents/template_validation_agent.py:199-215 | The run reaches the prompt exactly when validation left missing parameters, or the record carried type errors from the start |
| TemplateValidation.ValidationErrorAloneEnds | agents/template_validation_agent.py:210-214 | Setting `validation_error` to any value never changes the route |
| TemplateValidation.TypeErrorsNeverWritten | agents/template_validation_agent.py:199-214 | No node writes `type_errors`: the route sees the value the run started with |
| TemplateValidation.MissingTemplateEndsWithoutPrompt | agents/template_validation_agent.py:97-99 | Without a template, and with no earlier missing parameters or type errors, the run ends without a prompt, with "No template found." |
| TemplateValidation.MissingParametersPrompt | agents/template_validation_agent.py:210-215 | Missing parameters always lead to the prompt stage, and the run does not end quietly |
| Outcomes.Refusal | agents/resource_action_agent.py:47-52 | A refused call keeps the other arguments, appends one note with the error and sets status "failed" and the error. It sets no result |
| Outcomes.Failure | agents/resource_action_agent.py:75-81 | A call that raised appends "<what> failed: <e>" and sets a None result, the error and status "failed" |
| Outcomes.Success | agents/resource_action_agent.py:67-72 | A successful call appends one note and sets the result and status "success". It sets no error key |
| ResourceAction.GetResourceTool | agents/resource_action_agent.py:36-81 | Without the subscription, group, type and name it refuses with the fixed error. A type without "/" or a provider error fails with a None result. Success stores the resource. The provider is called with the first-"/" split and API version 2021-04-01 |
| ResourceAction.GetGuardSkipsProvider | agents/resource_action_agent.py:46-52 | A refused get does not depend on the provider |
| ResourceAction.DeleteResourceTool | agents/resource_action_agent.py:140-190 | Has the same guard as get, with the delete error. A poller result of None gives "Resource <type> '<name>' deleted successfully." |
| ResourceAction.DeleteGuardSkipsProvider | agents/resource_action_agent.py:150-156 | A refused delete does not depend on the provider |
| ResourceAction.ListRequest | agents/resource_action_agent.py:106-116 | Unfiltered without a type. With a type the filter is "resourceType eq '<type>'", and a type without "/" gives the split error |
| ResourceAction.ListResourcesTool | agents/resource_action_agent.py:88-132 | Needs only the subscription and the group. A failed split or listing fails with a None result, and success stores the list |
| ResourceAction.PromptForMissingActionTool | agents/resource_action_agent.py:198-210 | Interrupts with `resource_action_error` when truthy, otherwise with the fixed text |
| Deployment.DeployResourceGroupScopeTool | agents/deployment_agent.py:31-86 | Needs the subscription, group, template and non-empty parameters, and otherwise refuses with the fixed error and no result key. It sends an "Incremental" deployment without a location. A decoding or provider error sets a None result and the error. Success sets status "success" and no error key |
| Deployment.GroupDeploymentIgnoresLocation | agents/deployment_agent.py:60-70 | The resource-group deployment does not depend on `location` |
| Deployment.DeploySubscriptionScopeTool | agents/deployment_agent.py:94-148 | Needs the subscription, template, non-empty parameters and location. It sends an "Incremental" deployment at the location. Failure and success records are as for the group tool |
| Deployment.NoParametersNoDeployment | agents/deployment_agent.py:44-51 | A parameter file without "parameters" is refused by both tools, whatever the provider would do |
| Deployment.PromptForMissingDeployTool | agents/deployment_agent.py:156-168 | Interrupts with `deployment_error` when truthy, otherwise with the fixed text |
| DeploymentSummary.FirstNonDict | chainlit_app.py:33-34 | The first output whose value is not a dict; all before it are dicts |
| DeploymentSummary.LinesUpToSpec | chainlit_app.py:33-34 | One "  - k: value" line per output, in iteration order |
| DeploymentSummary.LinkAfterSpec | chainlit_app.py:35-37 | There is a link exactly when some output qualifies (name ends in "id" in any case, value a str under "/subscriptions/"), and it is the last qualifying one |
| DeploymentSummary.CollectOutputs | chainlit_app.py:33-37 | The loop computes the output lines (or the first non-dict's error) and the last link |
| DeploymentSummary.CollectSuccessLines | chainlit_app.py:21-43 | The appends compute the header, the group, the outputs, the state and the link, in that order |
| DeploymentSummary.Summary | chainlit_app.py:18-47 | The presence of `deployment_error`, even None, wins. Otherwise a result gives a text that starts with the success header. Then comes the validation error, and otherwise "No deployment result available." |
| DeploymentSummary.FormatDeploymentSummary | chainlit_app.py:18-47 | The method computes `Summary` |
| DeploymentSummary.SuccessHeader | chainlit_app.py:23-27 | The first line is the header. The group line follows when the group is truthy. With a falsy group, no later line starts with the group line's "R" |
| DeploymentSummary.SuccessLineCount | chainlit_app.py:21-43 | The line count is one for the header, plus one for a truthy group, plus "Outputs:" and one per output when the outputs are truthy, plus one for a truthy state, plus one for a link |
| DeploymentSummary.SuccessOutputs | chainlit_app.py:29-34 | After the head come "Outputs:" and exactly the output lines, in order |
| DeploymentSummary.PortalLinkIsLastLine | chainlit_app.py:42-43 | When there is a link it is the last line |
| DeploymentSummary.ProvisioningStateBeforeLink | chainlit_app.py:39-43 | A truthy provisioning state is the last line, or the one just before the link |
| DeploymentSummary.SummarySplitsIntoLines | chainlit_app.py:44 | When no line holds a newline, splitting the summary at "\n" gives back its lines |

## Left out

- The language model and its prompt texts are left out. The model's answer is the function parameter `llm`, which always returns text.
- A failing model call (`get_llm()` or `invoke` raising) is not represented. In validation that exception becomes `validation_error = str(e)`; in intent extraction it escapes the tool or node.
- JSON decoding is the abstract partial function `parse`. The dumped request text is not modelled.
- Azure SDK calls are parameters that return a result or the error text: subscription listing, existence checks, creation, get, list, delete and deployment. Credential and client construction are not modelled, and an error raised there counts as the call's error. The source builds the client before it splits the resource type or decodes the template, so when both fail the source reports the client error while the model reports the split or decode error.
- The ARM validation tools (`arm_validation_*`) in `agents/validation_agent.py` are not part of this model.
- Deployment names built from the current time are not modelled, and neither is logging.
- File access in the template fetch is the parameter `read`, which answers missing, unreadable or the content.
- The LangGraph runtime is not modelled: `interrupt` resume, checkpointers, the `add_messages` reducer, and the ReAct and supervisor wiring in `arma.py` and `graph.py`. Only the two graphs' routing is modelled.
- Messages that a prompt tool appends before `interrupt` are lost with the interrupt, so the model returns only the interrupt text.
- Message objects are dicts of their attributes.
- Values.Render: `str()` of numbers, lists and dicts is the abstract `show`. Only None, booleans and strings are exact.
- Text.Lower: only ASCII letters are case-mapped, while Python's `lower()` maps all of Unicode.
- TemplateValidation.IntConvertible: the string grammar `int()` accepts is the abstract predicate `intLiteral`.
- Azure.Subscription: `state` is assumed present. A None state would make `sub.state.lower()` raise. `check_subscription_exists` catches that and reports False. `check_subscription_tool` catches it after recording the match's id, name and mismatch, and reports them with "not found or not enabled".
- Values.Value: a float is a finite real. NaN and ±Infinity, which `json.loads` accepts, are not represented; `int()` rejects them and `bool()` of NaN is True, so `TemplateValidation.IsTypeValid` as modelled accepts every float for "int".
- TemplateValidation.IsTypeValid: does not reject NaN or ±Infinity for "int", as `_is_type_valid` does, because the model has no non-finite floats.
- `as_dict()` conversions and the `str(result)` fallback are not modelled. The provider returns the stored value directly.
- ResourceAction.ListResourcesTool: a listing fails or succeeds as a whole. Errors raised part-way through iterating the pager are not modelled separately.
- Dict keys are unique and kept in insertion order. A dict is a list of entries, and `get` finds the first entry with the key.
- Parameters that the source declares as `Optional[str]` (`subscription_name`, `*_error`) are required to be None or a str. Parameters declared as lists (`messages`) are required to be a list or falsy. Other values would make the Python string and list operations behave differently.
- `streamlit_app.py`, the chat handlers in `chainlit_app.py`, `factory/` and `prompts/` are not part of this model.

## Findings

| source | as written | input that shows it | evidently intended | confidence | as-written member | corrected member |
|---|---|---|---|---|---|---|
| agents/template_validation_agent.py:80-83 | The type table's key "secureObject" is not lower-case, but lookups use `expected_type.lower()`, so no lookup can reach it and a secure object accepts any value. The defect is latent: `_is_type_valid` has no caller in the files modelled, so no graph run reaches it | `_is_type_valid(0, "secureObject")` returns True | A "secureObject" parameter needs a dict, like "object" | high, not executed | TemplateValidation.SecureObjectAcceptsInteger | TemplateValidation.IsTypeValidCorrected |
