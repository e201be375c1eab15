/** The intent-detection graph: four nodes over the whole state and the route between them
    (intent extraction, then the scope-field check, then template fetch and scope
    determination for a create or update). */
module IntentGraph {
  import opened Wrappers
  import opened Values
  import opened Records
  import opened ResourceTypes
  import opened IntentAgent

  /** `state["messages"][-1].content`, with the KeyError, IndexError or AttributeError text
      when that fails. A message object is represented by the dict of its attributes. */
  function NodeUserMessage(state: Record): (r: Result<Value>)
    requires "messages" in state ==> state["messages"].Arr?
    ensures "messages" !in state ==> r == Err("'messages'")
    ensures "messages" in state && state["messages"].items == [] ==> r == Err("list index out of range")
    ensures r.Ok? ==>
              var h := state["messages"].items;
              h != [] && h[|h| - 1].Obj? && Lookup(h[|h| - 1].fields, "content") == Some(r.value)
  {
    if "messages" !in state then Err("'messages'")
    else
      var h := state["messages"].items;
      if h == [] then Err("list index out of range")
      else
        var last := h[|h| - 1];
        if last.Obj? && Lookup(last.fields, "content").Some? then Ok(Lookup(last.fields, "content").value)
        else Err(NoAttribute(last, "content"))
  }

  /** `intent_extraction_node`: the extracted fields are written over the state; every other
      key, the messages included, is kept. */
  function IntentExtractionNode(state: Record, llm: Value -> string, parse: string -> Result<Value>): (r: Step)
    requires "messages" in state ==> state["messages"].Arr?
    ensures NodeUserMessage(state).Err? ==> r == Raised(NodeUserMessage(state).error)
    ensures !r.AwaitingInput?
    ensures NodeUserMessage(state).Ok? ==>
              var q := NodeUserMessage(state).value;
              var x := Extract(llm(q), parse, q);
              && (r.Next? <==> x.Ok?)
              && (x.Err? ==> r == Raised(x.error))
              && (r.Next? ==>
                    && MergedFrom(state, r.state, {}, ExtractedKeys)
                    && r.state["user_query"] == q
                    && forall k :: k in ExtractedKeys ==> r.state[k] == x.value[k])
  {
    match NodeUserMessage(state)
    case Err(e) => Raised(e)
    case Ok(q) =>
      match Extract(llm(q), parse, q)
      case Err(e) => Raised(e)
      case Ok(fields) => Next(state + fields)
  }

  /** The state after a fetch that loaded `text` from `path`. */
  function StoredTemplate(state: Record, text: string, path: string): (r: Record)
    ensures MergedFrom(state, r, {}, {"template", "template_path"})
    ensures r["template"] == Str(text) && r["template_path"] == Str(path)
  {
    state["template" := Str(text)]["template_path" := Str(path)]
  }

  /** The state after a fetch that failed with `e`. */
  function FailedTemplate(state: Record, e: string): (r: Record)
    ensures MergedFrom(state, r, {}, {"template", "template_path", "template_error"})
    ensures r["template"] == Str("{}") && r["template_path"] == Str("") && r["template_error"] == Str(e)
  {
    state["template" := Str("{}")]["template_path" := Str("")]["template_error" := Str(e)]
  }

  /** `template_fetch_node`: stores the catalog file's raw text and its path. On any failure
      the template becomes the text "{}", the path "" and the error is recorded; a success
      leaves an earlier `template_error` in place. */
  function TemplateFetchNode(state: Record, read: string -> Fetched<string>): (r: Record)
    ensures "template" in r && "template_path" in r
    ensures var f := CatalogFetch(Get(state, "resource_type"), read);
      && (f.outcome.Err? ==>
            && "template_error" in r
            && MergedFrom(state, r, {}, {"template", "template_path", "template_error"})
            && r["template"] == Str("{}") && r["template_path"] == Str("")
            && r["template_error"] == Str(f.outcome.error))
      && (f.outcome.Ok? ==>
            && MergedFrom(state, r, {}, {"template", "template_path"})
            && r["template_path"] == Str(f.path)
            && r["template"] == Str(f.outcome.value))
  {
    var f := CatalogFetch(Get(state, "resource_type"), read);
    match f.outcome
    case Ok(text) => StoredTemplate(state, text, f.path)
    case Err(e) => FailedTemplate(state, e)
  }

  /** `scope_determination_node`: only the scope is written. */
  function ScopeDeterminationNode(state: Record, parse: string -> Result<Value>): (r: Record)
    ensures MergedFrom(state, r, {}, {"scope"})
    ensures r["scope"] == ScopeOf(Get(state, "template"), parse)
  {
    state["scope" := ScopeOf(Get(state, "template"), parse)]
  }

  /** After a failed fetch the stored "{}" declares no scope, as long as "{}" decodes to the
      empty dict or does not decode at all. */
  lemma FailedFetchHasNoScope(state: Record, read: string -> Fetched<string>, parse: string -> Result<Value>)
    requires CatalogFetch(Get(state, "resource_type"), read).outcome.Err?
    requires parse("{}").Err? || parse("{}") == Ok(Obj([]))
    ensures ScopeDeterminationNode(TemplateFetchNode(state, read), parse)["scope"] == Null
  {
    assert Get(TemplateFetchNode(state, read), "template") == Str("{}");
  }

  /** `scope_fields_check_node`: interrupts with the same prompt as the tool, otherwise returns
      the state unchanged. */
  function ScopeFieldsCheckNode(state: Record): (r: Step)
    ensures !r.Raised?
    ensures r.Next? <==>
              Truthy(Get(state, "resource_group_name"))
              && (Truthy(Get(state, "subscription_id")) || Truthy(Get(state, "subscription_name")))
    ensures r.Next? ==> r.state == state
    ensures r.AwaitingInput? ==>
              r.message == MissingFieldsPrompt(ScopeFieldsMissing(
                Get(state, "resource_group_name"), Get(state, "subscription_id"), Get(state, "subscription_name")))
  {
    var missing := ScopeFieldsMissing(
      Get(state, "resource_group_name"), Get(state, "subscription_id"), Get(state, "subscription_name"));
    if missing != [] then AwaitingInput(MissingFieldsPrompt(missing)) else Next(state)
  }

  // ----------------------------------------------------------------------- graph

  datatype Stage = IntentExtraction | ScopeFieldsCheck | TemplateFetch | ScopeDetermination

  /** The conditional edge out of the scope-field check: template fetch for a create or an
      update, the end of the graph (`None`) otherwise. */
  function RouteAfterScopeCheck(state: Record): (next: Option<Stage>)
    ensures next == Some(TemplateFetch) <==> Get(state, "intent") in {Str("create"), Str("update")}
    ensures next.None? <==> Get(state, "intent") !in {Str("create"), Str("update")}
  {
    if Get(state, "intent") == Str("create") || Get(state, "intent") == Str("update") then Some(TemplateFetch)
    else None
  }

  /** One run of the graph: the stages it visited, in order, and how it ended. */
  datatype Run = Run(trace: seq<Stage>, outcome: Step)

  /** The graph from START: extraction, the scope-field check, then (after a create or update)
      template fetch and scope determination. An interrupt or an exception ends the run at the
      stage that raised it. */
  function RunIntentDetection(
    state: Record, llm: Value -> string, parse: string -> Result<Value>, read: string -> Fetched<string>): (r: Run)
    requires "messages" in state ==> state["messages"].Arr?
    ensures |r.trace| >= 1 && r.trace[0] == IntentExtraction
    ensures r.outcome.Raised? ==> r.trace == [IntentExtraction]
    ensures r.outcome.AwaitingInput? ==> r.trace == [IntentExtraction, ScopeFieldsCheck]
  {
    AfterExtraction(IntentExtractionNode(state, llm, parse), parse, read)
  }

  /** The run from extraction's step on: a raised extraction ends it, otherwise the scope
      check and the route decide. */
  function AfterExtraction(extraction: Step, parse: string -> Result<Value>, read: string -> Fetched<string>): (r: Run)
    requires !extraction.AwaitingInput?
    ensures |r.trace| >= 1 && r.trace[0] == IntentExtraction
    ensures r.outcome.Raised? ==> r.trace == [IntentExtraction]
    ensures r.outcome.AwaitingInput? ==> r.trace == [IntentExtraction, ScopeFieldsCheck]
  {
    match extraction
    case Next(extracted) =>
      (match ScopeFieldsCheckNode(extracted)
       case Next(checked) =>
         if RouteAfterScopeCheck(checked) == Some(TemplateFetch) then
           Run([IntentExtraction, ScopeFieldsCheck, TemplateFetch, ScopeDetermination],
               Next(ScopeDeterminationNode(TemplateFetchNode(checked, read), parse)))
         else Run([IntentExtraction, ScopeFieldsCheck], Next(checked))
       case stopped => Run([IntentExtraction, ScopeFieldsCheck], stopped))
    case stopped => Run([IntentExtraction], stopped)
  }

  /** Every run starts with extraction; the scope-field check follows every successful
      extraction whatever the intent; template fetch is always followed by scope determination
      and then the end. */
  lemma RunShapes(state: Record, llm: Value -> string, parse: string -> Result<Value>, read: string -> Fetched<string>)
    requires "messages" in state ==> state["messages"].Arr?
    ensures var r := RunIntentDetection(state, llm, parse, read);
      && (r.trace == [IntentExtraction]
          || r.trace == [IntentExtraction, ScopeFieldsCheck]
          || r.trace == [IntentExtraction, ScopeFieldsCheck, TemplateFetch, ScopeDetermination])
      && (IntentExtractionNode(state, llm, parse).Next? ==> ScopeFieldsCheck in r.trace)
      && (TemplateFetch in r.trace <==> ScopeDetermination in r.trace)
      && (TemplateFetch in r.trace ==> r.trace[|r.trace| - 1] == ScopeDetermination && r.outcome.Next?)
  {
  }

  /** Template fetch runs exactly when extraction succeeded, the scope fields are present and
      the extracted intent is "create" or "update". */
  lemma TemplateFetchIffCreateOrUpdate(
    state: Record, llm: Value -> string, parse: string -> Result<Value>, read: string -> Fetched<string>)
    requires "messages" in state ==> state["messages"].Arr?
    ensures TemplateFetch in RunIntentDetection(state, llm, parse, read).trace <==>
      && IntentExtractionNode(state, llm, parse).Next?
      && ScopeFieldsCheckNode(IntentExtractionNode(state, llm, parse).state).Next?
      && IntentExtractionNode(state, llm, parse).state["intent"] in {Str("create"), Str("update")}
  {
    var x := IntentExtractionNode(state, llm, parse);
    if x.Next? {
      assert "intent" in ExtractedKeys;
      assert Get(x.state, "intent") == x.state["intent"];
    }
  }

  /** A create or update whose catalog file is found ends with the file's raw text as the
      template and the scope that text declares. */
  lemma CreateRunScope(
    state: Record, llm: Value -> string, parse: string -> Result<Value>, read: string -> Fetched<string>)
    requires "messages" in state ==> state["messages"].Arr?
    requires TemplateFetch in RunIntentDetection(state, llm, parse, read).trace
    ensures var x := IntentExtractionNode(state, llm, parse).state;
      var f := CatalogFetch(x["resource_type"], read);
      var r := RunIntentDetection(state, llm, parse, read);
      && r.outcome.Next?
      && (f.outcome.Ok? ==>
            r.outcome.state["template"] == Str(f.outcome.value)
            && r.outcome.state["scope"] == ScopeOf(Str(f.outcome.value), parse))
      && (f.outcome.Err? ==> r.outcome.state["template_error"] == Str(f.outcome.error))
  {
    TemplateFetchIffCreateOrUpdate(state, llm, parse, read);
    var x := IntentExtractionNode(state, llm, parse).state;
    assert ScopeFieldsCheckNode(x).state == x;
    assert "resource_type" in ExtractedKeys;
    assert Get(x, "resource_type") == x["resource_type"];
    var fetched := TemplateFetchNode(x, read);
    var final := ScopeDeterminationNode(fetched, parse);
    assert RunIntentDetection(state, llm, parse, read).outcome == Next(final);
    MergedKeeps(fetched, final, {}, {"scope"}, "template");
    MergedKeeps(fetched, final, {}, {"scope"}, "template_error");
  }


}
