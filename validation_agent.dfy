/** The validation agent's tools: the subscription and resource-group checks, resource-group
    creation, LLM-based template validation and the prompt for missing parameters. */
module ValidationAgent {
  import opened Wrappers
  import opened Text
  import opened Values
  import opened Records
  import opened Azure

  // ---------------------------------------------------------- subscription check

  /** `(sub.display_name or '')`. */
  function DisplayName(sub: Subscription): string {
    match sub.displayName
    case Some(n) => n
    case None => ""
  }

  /** `sub.display_name` as a state value. */
  function DisplayValue(sub: Subscription): Value {
    match sub.displayName
    case Some(n) => Str(n)
    case None => Null
  }

  /** The comparison form of a subscription name: trimmed and lower-cased. */
  function Norm(name: string): string {
    Lower(Strip(name))
  }

  /** The subscription carries the supplied id. */
  predicate MatchesById(sub: Subscription, sid: Value) {
    Truthy(sid) && Str(sub.id) == sid
  }

  /** The subscription's display name and `name` agree once both are trimmed and lower-cased. */
  predicate NameAgrees(sub: Subscription, name: string) {
    Norm(DisplayName(sub)) == Norm(name)
  }

  /** The subscription's display name equals the supplied name, both trimmed and lower-cased. */
  predicate MatchesByName(sub: Subscription, sname: Value)
    requires OptStr(sname)
  {
    Truthy(sname) && NameAgrees(sub, sname.s)
  }

  predicate Matches(sub: Subscription, sid: Value, sname: Value)
    requires OptStr(sname)
  {
    MatchesById(sub, sid) || MatchesByName(sub, sname)
  }

  /** The index of the first matching subscription, `|subs|` when none matches. */
  function FirstMatch(subs: seq<Subscription>, sid: Value, sname: Value): (k: nat)
    requires OptStr(sname)
    ensures k <= |subs|
    ensures forall j :: 0 <= j < k ==> !Matches(subs[j], sid, sname)
    ensures k < |subs| ==> Matches(subs[k], sid, sname)
  {
    if subs == [] then 0
    else if Matches(subs[0], sid, sname) then 0
    else 1 + FirstMatch(subs[1..], sid, sname)
  }

  /** What the subscription scan settles on. */
  datatype SubscriptionCheck = SubscriptionCheck(enabled: bool, id: Value, name: Value, mismatch: bool)

  /** The outcome of scanning `subs` in order and stopping at the first match. A match by id
      takes the name from Azure and flags a mismatch when a supplied name differs from it; a
      match by name takes the id from Azure and flags a mismatch whenever an id was supplied.
      Without a match the supplied id and name come back unchanged. */
  function SubscriptionVerdict(subs: seq<Subscription>, sid: Value, sname: Value): (c: SubscriptionCheck)
    requires OptStr(sname)
    ensures var k := FirstMatch(subs, sid, sname);
      && (c.enabled <==> k < |subs| && IsEnabled(subs[k]))
      && (k == |subs| ==> c == SubscriptionCheck(false, sid, sname, false))
      && (k < |subs| && MatchesById(subs[k], sid) ==>
            && c.id == sid && c.name == DisplayValue(subs[k])
            && (c.mismatch <==> Truthy(sname) && !NameAgrees(subs[k], sname.s)))
      && (k < |subs| && !MatchesById(subs[k], sid) ==>
            c.id == Str(subs[k].id) && c.name == sname && (c.mismatch <==> Truthy(sid)))
    ensures c.mismatch ==> Truthy(sid) && Truthy(sname)
    ensures OptStr(sid) ==> OptStr(c.id) && OptStr(c.name)
  {
    var k := FirstMatch(subs, sid, sname);
    if k == |subs| then SubscriptionCheck(false, sid, sname, false)
    else
      var sub := subs[k];
      if MatchesById(sub, sid) then
        SubscriptionCheck(IsEnabled(sub), sid, DisplayValue(sub),
                          Truthy(sname) && !NameAgrees(sub, sname.s))
      else
        SubscriptionCheck(IsEnabled(sub), Str(sub.id), sname, Truthy(sid) && Str(sub.id) != sid)
  }

  /** A subscription that matches after none before it did is the first match. */
  lemma FirstMatchAt(subs: seq<Subscription>, sid: Value, sname: Value, i: nat)
    requires OptStr(sname)
    requires i < |subs| && Matches(subs[i], sid, sname)
    requires forall j :: 0 <= j < i ==> !Matches(subs[j], sid, sname)
    ensures FirstMatch(subs, sid, sname) == i
  {
  }

  /** The scan loop of `check_subscription_tool`, updating its four variables and breaking out
      at the first match. The flags start out false and are set at most once, right before the
      `break`, so setting them to the tested condition is the same as setting them when it
      holds. */
  method ScanSubscriptions(subs: seq<Subscription>, sid: Value, sname: Value) returns (c: SubscriptionCheck)
    requires OptStr(sname)
    ensures c == SubscriptionVerdict(subs, sid, sname)
  {
    var enabled := false;
    var foundId := sid;
    var foundName := sname;
    var mismatch := false;
    var i := 0;
    while i < |subs|
      invariant 0 <= i <= |subs|
      invariant FirstMatch(subs, sid, sname) >= i
    {
      var sub := subs[i];
      if MatchesById(sub, sid) {
        foundName := DisplayValue(sub);
        mismatch := Truthy(sname) && !NameAgrees(sub, sname.s);
        enabled := IsEnabled(sub);
        break;
      }
      if MatchesByName(sub, sname) {
        foundId := Str(sub.id);
        mismatch := Truthy(sid) && Str(sub.id) != sid;
        enabled := IsEnabled(sub);
        break;
      }
      i := i + 1;
    }
    c := SubscriptionCheck(enabled, foundId, foundName, mismatch);
  }

  const MismatchWarning := "Warning: Provided subscription_id and subscription_name do not match. Using values from Azure."

  /** The status note of the subscription check. */
  function SubscriptionNote(c: SubscriptionCheck): string
    requires OptStr(c.id) && OptStr(c.name)
  {
    "Subscription check: " + (if c.enabled then "exists" else "not found or not enabled")
    + " (ID: " + OptText(c.id) + ", Name: " + OptText(c.name) + ")"
  }

  /** The record `check_subscription_tool` returns once the scan settled on `c`: the scan's
      outcome, a warning note on a mismatch, then the status note. */
  function SubscriptionRecord(args: Record, c: SubscriptionCheck): (r: Record)
    requires OptStr(c.id) && OptStr(c.name)
    requires ListOrFalsy(Get(args, "messages"))
    ensures MergedFrom(args, r, {"subscription_id", "subscription_name", "messages"},
                       {"messages", "subscription_exists", "subscription_id", "subscription_name"})
    ensures r["subscription_exists"] == Bool(c.enabled)
    ensures r["subscription_id"] == c.id
    ensures r["subscription_name"] == c.name
    ensures r["messages"] == Appended(Get(args, "messages"),
              (if c.mismatch then [Note(MismatchWarning)] else []) + [Note(SubscriptionNote(c))])
  {
    var notes := (if c.mismatch then [Note(MismatchWarning)] else []) + [Note(SubscriptionNote(c))];
    (args - {"subscription_id", "subscription_name", "messages"})
      ["messages" := Appended(Get(args, "messages"), notes)]
      ["subscription_exists" := Bool(c.enabled)]
      ["subscription_id" := c.id]
      ["subscription_name" := c.name]
  }

  /** `check_subscription_tool` over the provider's listing (`Err` when listing raised): the
      scan's outcome when listing succeeded, "not found" with the supplied id and name when it
      raised. */
  function CheckSubscriptionTool(args: Record, listing: Result<seq<Subscription>>): (r: Record)
    requires OptStr(Get(args, "subscription_id")) && OptStr(Get(args, "subscription_name"))
    requires ListOrFalsy(Get(args, "messages"))
    ensures listing.Ok? ==>
              r == SubscriptionRecord(args, SubscriptionVerdict(listing.value, Get(args, "subscription_id"), Get(args, "subscription_name")))
    ensures listing.Err? ==>
              r == SubscriptionRecord(args, SubscriptionCheck(false, Get(args, "subscription_id"), Get(args, "subscription_name"), false))
  {
    var sid := Get(args, "subscription_id");
    var sname := Get(args, "subscription_name");
    match listing
    case Ok(subs) => SubscriptionRecord(args, SubscriptionVerdict(subs, sid, sname))
    case Err(_) => SubscriptionRecord(args, SubscriptionCheck(false, sid, sname, false))
  }

  /** The check reports an existing subscription exactly when listing succeeded and the first
      subscription matching by id or by name is enabled. */
  lemma {:induction false} SubscriptionExistsIffFirstMatchEnabled(args: Record, listing: Result<seq<Subscription>>)
    requires OptStr(Get(args, "subscription_id")) && OptStr(Get(args, "subscription_name"))
    requires ListOrFalsy(Get(args, "messages"))
    ensures var sid := Get(args, "subscription_id");
      var sname := Get(args, "subscription_name");
      CheckSubscriptionTool(args, listing)["subscription_exists"] == Bool(true) <==>
        && listing.Ok?
        && exists k :: && 0 <= k < |listing.value| && Matches(listing.value[k], sid, sname)
                       && IsEnabled(listing.value[k])
                       && forall j :: 0 <= j < k ==> !Matches(listing.value[j], sid, sname)
  {
    var sid := Get(args, "subscription_id");
    var sname := Get(args, "subscription_name");
    if listing.Ok? {
      var subs := listing.value;
      var k := FirstMatch(subs, sid, sname);
      if exists i :: && 0 <= i < |subs| && Matches(subs[i], sid, sname) && IsEnabled(subs[i])
                     && forall j :: 0 <= j < i ==> !Matches(subs[j], sid, sname) {
        var i :| && 0 <= i < |subs| && Matches(subs[i], sid, sname) && IsEnabled(subs[i])
                 && forall j :: 0 <= j < i ==> !Matches(subs[j], sid, sname);
        FirstMatchAt(subs, sid, sname, i);
      }
    }
  }

  // -------------------------------------------------------- resource group tools

  /** `check_resource_group_tool`: asks the provider only when both the subscription and the
      resource group are given; a provider error counts as "not found". The two named
      parameters are not passed on. */
  function CheckResourceGroupTool(args: Record, rgExists: (Value, Value) -> Result<bool>): (r: Record)
    requires ListOrFalsy(Get(args, "messages"))
    ensures MergedFrom(args, r, {"resource_group_name", "subscription_id", "messages"},
                       {"messages", "resource_group_exists"})
    ensures r["resource_group_exists"] == Bool(
              && Truthy(Get(args, "subscription_id")) && Truthy(Get(args, "resource_group_name"))
              && rgExists(Get(args, "subscription_id"), Get(args, "resource_group_name")) == Ok(true))
    ensures r["messages"] == Appended(Get(args, "messages"),
              [Note("Resource group check: " + if r["resource_group_exists"] == Bool(true) then "exists" else "not found")])
  {
    var sid := Get(args, "subscription_id");
    var rg := Get(args, "resource_group_name");
    var exists_ := Truthy(sid) && Truthy(rg) && rgExists(sid, rg) == Ok(true);
    (args - {"resource_group_name", "subscription_id", "messages"})
      ["messages" := Appended(Get(args, "messages"),
                      [Note("Resource group check: " + if exists_ then "exists" else "not found")])]
      ["resource_group_exists" := Bool(exists_)]
  }

  /** Without a subscription and a resource group the check reports `false` whatever the
      provider would answer: the provider is not consulted. */
  lemma ResourceGroupGuard(args: Record, p1: (Value, Value) -> Result<bool>, p2: (Value, Value) -> Result<bool>)
    requires ListOrFalsy(Get(args, "messages"))
    requires !Truthy(Get(args, "subscription_id")) || !Truthy(Get(args, "resource_group_name"))
    ensures CheckResourceGroupTool(args, p1) == CheckResourceGroupTool(args, p2)
    ensures CheckResourceGroupTool(args, p1)["resource_group_exists"] == Bool(false)
  {
  }

  const MissingRgCreationFields := "Missing required fields for resource group creation."

  /** `create_resource_group_tool` with the provider call `create(rg, sid, location)`. */
  function CreateResourceGroupTool(args: Record, create: (Value, Value, Value) -> Completion): (r: Record)
    requires ListOrFalsy(Get(args, "messages"))
    ensures var named := {"resource_group_name", "subscription_id", "location", "messages"};
      var rg := Get(args, "resource_group_name");
      var sid := Get(args, "subscription_id");
      var loc := Get(args, "location");
      && (!(Truthy(rg) && Truthy(sid) && Truthy(loc)) ==>
            && MergedFrom(args, r, named, CreationFailureKeys)
            && r["messages"] == Appended(Get(args, "messages"), [Note(MissingRgCreationFields)])
            && r["resource_group_creation_status"] == Str("failed")
            && r["resource_group_creation_error"] == Str(MissingRgCreationFields))
      && (Truthy(rg) && Truthy(sid) && Truthy(loc) && create(rg, sid, loc).Completed? ==>
            && MergedFrom(args, r, named, {"messages", "resource_group_creation_status"})
            && r["messages"] == Appended(Get(args, "messages"), [Note("Resource group created successfully.")])
            && r["resource_group_creation_status"] == Str("success"))
      && (Truthy(rg) && Truthy(sid) && Truthy(loc) && create(rg, sid, loc).Failed? ==>
            && MergedFrom(args, r, named, CreationFailureKeys)
            && r["messages"] == Appended(Get(args, "messages"),
                 [Note("Failed to create resource group: " + create(rg, sid, loc).error)])
            && r["resource_group_creation_status"] == Str("failed")
            && r["resource_group_creation_error"] == Str(create(rg, sid, loc).error))
  {
    var rest := args - {"resource_group_name", "subscription_id", "location", "messages"};
    var rg := Get(args, "resource_group_name");
    var sid := Get(args, "subscription_id");
    var loc := Get(args, "location");
    if !(Truthy(rg) && Truthy(sid) && Truthy(loc)) then
      rest["messages" := Appended(Get(args, "messages"), [Note(MissingRgCreationFields)])]
          ["resource_group_creation_status" := Str("failed")]
          ["resource_group_creation_error" := Str(MissingRgCreationFields)]
    else match create(rg, sid, loc)
      case Completed =>
        rest["messages" := Appended(Get(args, "messages"), [Note("Resource group created successfully.")])]
            ["resource_group_creation_status" := Str("success")]
      case Failed(e) =>
        rest["messages" := Appended(Get(args, "messages"), [Note("Failed to create resource group: " + e)])]
            ["resource_group_creation_status" := Str("failed")]
            ["resource_group_creation_error" := Str(e)]
  }

  const CreationFailureKeys: set<string> :=
    {"messages", "resource_group_creation_status", "resource_group_creation_error"}

  /** A creation missing a field fails the same way whatever the provider would do. */
  lemma CreateResourceGroupGuard(args: Record, c1: (Value, Value, Value) -> Completion,
                                 c2: (Value, Value, Value) -> Completion)
    requires ListOrFalsy(Get(args, "messages"))
    requires !(Truthy(Get(args, "resource_group_name")) && Truthy(Get(args, "subscription_id"))
               && Truthy(Get(args, "location")))
    ensures CreateResourceGroupTool(args, c1) == CreateResourceGroupTool(args, c2)
  {
  }

  // ---------------------------------------------------------- LLM post-processing

  /** The model's answer with surrounding white space removed and, when it starts with a
      Markdown fence, without its first line and without a last line that is a closing fence. */
  function Unfenced(response: string): (r: string)
    ensures !StartsWith(Strip(response), "```") ==> r == Strip(response)
  {
    var content := Strip(response);
    if StartsWith(content, "```") then
      var lines := Split(content, '\n')[1..];
      var kept := if lines != [] && StartsWith(Strip(lines[|lines| - 1]), "```") then lines[..|lines| - 1] else lines;
      Strip(Join("\n", kept))
    else content
  }

  /** The fence stripping as the tool and the node do it, reassigning `lines` and `content`. */
  method StripCodeFence(response: string) returns (content: string)
    ensures content == Unfenced(response)
  {
    content := Strip(response);
    if StartsWith(content, "```") {
      var lines := Split(content, '\n');
      lines := lines[1..];
      if |lines| > 0 && StartsWith(Strip(lines[|lines| - 1]), "```") {
        lines := lines[..|lines| - 1];
      }
      content := Strip(Join("\n", lines));
    }
  }

  /** A fenced text is its own strip and starts with the fence. */
  lemma FencedIsTrimmed(tag: string, body: string)
    ensures var raw := "```" + tag + "\n" + body + "\n```";
      Strip(raw) == raw && StartsWith(raw, "```")
  {
    var raw := "```" + tag + "\n" + body + "\n```";
    assert raw[0] == '`' && raw[|raw| - 1] == '`';
    StripUnpadded(raw);
    assert raw[..3] == "```";
  }

  /** The lines of a fenced text after the opening line: the body's lines, then the fence. */
  lemma FencedLines(tag: string, body: string)
    requires '\n' !in tag
    ensures Split("```" + tag + "\n" + body + "\n```", '\n')[1..] == Split(body, '\n') + ["```"]
  {
    var raw := "```" + tag + "\n" + body + "\n```";
    var head := "```" + tag;
    assert '\n' !in head;
    assert raw == head + ['\n'] + (body + ['\n'] + "```");
    SplitCons(head, '\n', body + ['\n'] + "```");
    assert '\n' !in "```";
    SplitSnoc(body, '\n', "```");
  }

  /** A body wrapped in a fence with an optional language tag comes back as the trimmed body. */
  lemma {:induction false} UnfenceFenced(tag: string, body: string)
    requires '\n' !in tag
    ensures Unfenced("```" + tag + "\n" + body + "\n```") == Strip(body)
  {
    var raw := "```" + tag + "\n" + body + "\n```";
    FencedIsTrimmed(tag, body);
    FencedLines(tag, body);
    var lines := Split(raw, '\n')[1..];
    StripUnpadded("```");
    assert lines[..|lines| - 1] == Split(body, '\n');
    JoinSplit(body, '\n');
  }

  const ParseFailure := "Failed to parse LLM output."

  /** The record used in place of an answer that does not decode. */
  const FallbackResult: Value := Obj([
    ("parameter_file_content", Obj([])), ("missing_parameters", Arr([])),
    ("extra_fields", Arr([])), ("validation_error", Str(ParseFailure))])

  /** The decoded answer, or the fallback record when decoding fails. */
  function ValidationAnswer(response: string, parse: string -> Result<Value>): (v: Value)
    ensures parse(Unfenced(response)).Ok? ==> v == parse(Unfenced(response)).value
    ensures parse(Unfenced(response)).Err? ==> v == FallbackResult
  {
    match parse(Unfenced(response))
    case Ok(v) => v
    case Err(_) => FallbackResult
  }

  // ------------------------------------------------------------ template validation

  /** How validation ended: rejected before or while reading the answer (the tool then records
      empty results, the node only the error), or judged by the model. */
  datatype Validation =
    | Rejected(error: string)
    | Judged(parameterFileContent: Value, missingParameters: Value, extraFields: Value, validationError: Value)

  const NoTemplate := "No template found."
  const NoParameters := "No parameters section in template."

  /** `t.get("parameters", {})` of the (decoded) template, or the error that raises. */
  function TemplateParameters(template: Value, parse: string -> Result<Value>): (r: Result<Value>)
    ensures template.Obj? ==> r == Ok(DictGet(template, "parameters", Obj([])))
    ensures template.Str? && parse(template.s).Err? ==> r == Err(parse(template.s).error)
    ensures !template.Str? && !template.Obj? ==> r == Err(NoAttribute(template, "get"))
  {
    var t := if template.Str? then parse(template.s) else Ok(template);
    match t
    case Err(e) => Err(e)
    case Ok(v) => if v.Obj? then Ok(DictGet(v, "parameters", Obj([]))) else Err(NoAttribute(v, "get"))
  }

  /** The fallback record's four entries, as `get` finds them. */
  lemma FallbackEntries()
    ensures Lookup(FallbackResult.fields, "parameter_file_content") == Some(Obj([]))
    ensures Lookup(FallbackResult.fields, "missing_parameters") == Some(Arr([]))
    ensures Lookup(FallbackResult.fields, "extra_fields") == Some(Arr([]))
    ensures Lookup(FallbackResult.fields, "validation_error") == Some(Str(ParseFailure))
  {
    var fields := FallbackResult.fields;
    LookupFirst(fields, "parameter_file_content", 0);
    LookupFirst(fields, "missing_parameters", 1);
    LookupFirst(fields, "extra_fields", 2);
    LookupFirst(fields, "validation_error", 3);
  }

  /** The four results read from the decoded answer. */
  function Interpret(result: Value): (v: Validation)
    ensures v.Rejected? <==> !result.Obj?
    ensures result == FallbackResult ==> v == Judged(Obj([]), Arr([]), Arr([]), Str(ParseFailure))
  {
    FallbackEntries();
    if result.Obj? then
      Judged(DictGet(result, "parameter_file_content", Obj([])), DictGet(result, "missing_parameters", Arr([])),
             DictGet(result, "extra_fields", Arr([])), DictGet(result, "validation_error", Null))
    else Rejected(NoAttribute(result, "get"))
  }

  /** The validation the tool and the node share, with the model `llm` asked about the template
      parameters and the provided fields. */
  function ValidateTemplate(template: Value, provided: Value, llm: (Value, Value) -> string,
                            parse: string -> Result<Value>): (v: Validation)
    ensures !Truthy(template) ==> v == Rejected(NoTemplate)
    ensures Truthy(template) && TemplateParameters(template, parse).Err? ==>
              v == Rejected(TemplateParameters(template, parse).error)
    ensures Truthy(template) && TemplateParameters(template, parse).Ok? ==>
              var ps := TemplateParameters(template, parse).value;
              && (!Truthy(ps) ==> v == Rejected(NoParameters))
              && (Truthy(ps) && parse(Unfenced(llm(ps, provided))).Err? ==>
                    v == Judged(Obj([]), Arr([]), Arr([]), Str(ParseFailure)))
              && (Truthy(ps) ==> v == Interpret(ValidationAnswer(llm(ps, provided), parse)))
  {
    if !Truthy(template) then Rejected(NoTemplate)
    else match TemplateParameters(template, parse)
      case Err(e) => Rejected(e)
      case Ok(ps) =>
        if !Truthy(ps) then Rejected(NoParameters)
        else Interpret(ValidationAnswer(llm(ps, provided), parse))
  }

  /** The keys `template_validation_tool` writes. */
  const ValidationKeys: set<string> :=
    {"messages", "parameter_file_content", "missing_parameters", "extra_fields", "validation_error"}

  /** The record `template_validation_tool` returns for the four results. */
  function ValidationRecord(args: Record, content: Value, missing: Value, extra: Value, error: Value): (r: Record)
    requires ListOrFalsy(Get(args, "messages"))
    ensures MergedFrom(args, r, {"template", "provided_fields", "messages"}, ValidationKeys)
    ensures "template" !in r
    ensures r["messages"] == Appended(Get(args, "messages"), [Note("Template validation completed.")])
    ensures && r["parameter_file_content"] == content && r["missing_parameters"] == missing
            && r["extra_fields"] == extra && r["validation_error"] == error
  {
    (args - {"template", "provided_fields", "messages"})
      ["messages" := Appended(Get(args, "messages"), [Note("Template validation completed.")])]
      ["parameter_file_content" := content]
      ["missing_parameters" := missing]
      ["extra_fields" := extra]
      ["validation_error" := error]
  }

  /** `template_validation_tool`: always writes the four results and a completion note, and
      never returns the template. */
  function TemplateValidationTool(args: Record, llm: (Value, Value) -> string, parse: string -> Result<Value>): (r: Record)
    requires ListOrFalsy(Get(args, "messages"))
    ensures MergedFrom(args, r, {"template", "provided_fields", "messages"}, ValidationKeys)
    ensures "template" !in r
    ensures r["messages"] == Appended(Get(args, "messages"), [Note("Template validation completed.")])
    ensures var pf := Get(args, "provided_fields");
      var v := ValidateTemplate(Get(args, "template"), if Truthy(pf) then pf else Obj([]), llm, parse);
      && (v.Rejected? ==>
            && r["parameter_file_content"] == Obj([]) && r["missing_parameters"] == Arr([])
            && r["extra_fields"] == Arr([]) && r["validation_error"] == Str(v.error))
      && (v.Judged? ==>
            && r["parameter_file_content"] == v.parameterFileContent
            && r["missing_parameters"] == v.missingParameters
            && r["extra_fields"] == v.extraFields && r["validation_error"] == v.validationError)
    ensures !Truthy(Get(args, "template")) ==> r["validation_error"] == Str(NoTemplate)
  {
    var pf := Get(args, "provided_fields");
    var v := ValidateTemplate(Get(args, "template"), if Truthy(pf) then pf else Obj([]), llm, parse);
    if v.Rejected? then ValidationRecord(args, Obj([]), Arr([]), Arr([]), Str(v.error))
    else ValidationRecord(args, v.parameterFileContent, v.missingParameters, v.extraFields, v.validationError)
  }

  // -------------------------------------------------------------- missing prompt

  const NothingMissing := "No missing or invalid parameters detected."

  /** The sentence naming the missing parameters, or the TypeError `join` raises. */
  function MissingSentence(missing: Value): Result<string> {
    match JoinStrings(", ", missing)
    case Ok(names) => Ok("Missing required parameters: " + names + ".")
    case Err(e) => Err(e)
  }

  /** The prompt for the user: the missing-parameters sentence, then the validation error,
      joined by one space, or the fixed text when there is neither. */
  function PromptMessage(missing: Value, err: Value, show: Value -> string): (r: Result<string>)
    ensures !Truthy(missing) && !Truthy(err) ==> r == Ok(NothingMissing)
    ensures !Truthy(missing) && Truthy(err) ==> r == Ok("Validation error: " + Render(err, show))
    ensures Truthy(missing) ==> (r.Ok? <==> MissingSentence(missing).Ok?)
    ensures Truthy(missing) && MissingSentence(missing).Ok? && !Truthy(err) ==>
              r == Ok(MissingSentence(missing).value)
    ensures Truthy(missing) && MissingSentence(missing).Ok? && Truthy(err) ==>
              r == Ok(MissingSentence(missing).value + " " + ("Validation error: " + Render(err, show)))
  {
    if Truthy(missing) && MissingSentence(missing).Err? then Err(MissingSentence(missing).error)
    else
      var parts := (if Truthy(missing) then [MissingSentence(missing).value] else [])
                   + (if Truthy(err) then ["Validation error: " + Render(err, show)] else []);
      if Truthy(missing) && Truthy(err) then
        var a := MissingSentence(missing).value;
        var b := "Validation error: " + Render(err, show);
        assert parts == [a, b];
        JoinTwo(" ", a, b);
        Ok(Join(" ", parts))
      else Ok(Join(" ", if parts == [] then [NothingMissing] else parts))
  }

  /** The prompt as the tool and the node build it, one `append` at a time. */
  method ComposePromptMessage(missing: Value, err: Value, show: Value -> string) returns (r: Result<string>)
    ensures r == PromptMessage(missing, err, show)
  {
    var parts: seq<string> := [];
    if Truthy(missing) {
      var sentence := MissingSentence(missing);
      if sentence.Err? {
        return Err(sentence.error);
      }
      parts := parts + [sentence.value];
    }
    if Truthy(err) {
      parts := parts + ["Validation error: " + Render(err, show)];
    }
    if parts == [] {
      parts := parts + [NothingMissing];
    }
    r := Ok(Join(" ", parts));
  }

  /** Missing names that are all strings give the sentence listing them in order. */
  lemma MissingSentenceOfNames(names: seq<string>)
    ensures MissingSentence(Arr(seq(|names|, i requires 0 <= i < |names| => Str(names[i]))))
              == Ok("Missing required parameters: " + Join(", ", names) + ".")
  {
    var v := Arr(seq(|names|, i requires 0 <= i < |names| => Str(names[i])));
    assert forall x :: x in v.items ==> x.Str?;
    assert seq(|v.items|, i requires 0 <= i < |v.items| => v.items[i].s) == names;
  }

  /** `prompt_for_missing_tool`: always interrupts with the prompt, unless joining the missing
      names raises. */
  function PromptForMissingTool(args: Record, show: Value -> string): (r: Step)
    ensures !r.Next?
    ensures var m := PromptMessage(Get(args, "missing_parameters"), Get(args, "validation_error"), show);
      && (m.Ok? ==> r == AwaitingInput(m.value))
      && (m.Err? ==> r == Raised(m.error))
  {
    match PromptMessage(Get(args, "missing_parameters"), Get(args, "validation_error"), show)
    case Ok(message) => AwaitingInput(message)
    case Err(e) => Raised(e)
  }
}
