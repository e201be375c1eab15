/** The intent agent's tools: intent extraction from the user's last message, template fetch
    from the quickstart catalog, deployment-scope detection and the scope-field check. */
module IntentAgent {
  import opened Wrappers
  import opened Text
  import opened Values
  import opened Records
  import opened ResourceTypes

  // ------------------------------------------------------------------ extraction

  /** The six plain fields extraction reads from the model's answer. */
  const ScalarFields: set<string> :=
    {"intent", "resource_type", "resource_group_name", "subscription_id", "subscription_name", "location"}

  /** Every field extraction writes. */
  const ExtractedKeys: set<string> := ScalarFields + {"provided_fields", "user_query"}

  /** The fields read from the decoded answer `result` with `result.get(...)`: `None` for a
      plain field the answer lacks, `{}` for a missing `provided_fields`. */
  function ExtractedFields(result: Value, userQuery: Value): (r: Record)
    requires result.Obj?
    ensures r.Keys == ExtractedKeys
    ensures r["user_query"] == userQuery
    ensures forall k :: k in ScalarFields ==> r[k] == DictGet(result, k, Null)
    ensures r["provided_fields"] == DictGet(result, "provided_fields", Obj([]))
  {
    map k | k in ExtractedKeys ::
      if k == "user_query" then userQuery
      else if k == "provided_fields" then DictGet(result, k, Obj([]))
      else DictGet(result, k, Null)
  }

  /** Decodes the model's answer (`{}` when it is not JSON) and reads the extracted fields
      from it. An answer that decodes to something other than a dict has no `.get`. */
  function Extract(response: string, parse: string -> Result<Value>, userQuery: Value): (r: Result<Record>)
    ensures r.Ok? <==> parse(response).Err? || parse(response).value.Obj?
    ensures r.Ok? ==> r.value.Keys == ExtractedKeys && r.value["user_query"] == userQuery
    ensures parse(response).Err? ==>
              && r.Ok?
              && r.value["provided_fields"] == Obj([])
              && forall k :: k in ScalarFields ==> r.value[k] == Null
    ensures parse(response).Ok? && parse(response).value.Obj? ==>
              forall k :: k in ScalarFields ==>
                (Lookup(parse(response).value.fields, k).Some? ==>
                   r.value[k] == Lookup(parse(response).value.fields, k).value)
    ensures r.Err? ==> r.error == NoAttribute(parse(response).value, "get")
  {
    var result := match parse(response) case Ok(v) => v case Err(_) => Obj([]);
    if result.Obj? then Ok(ExtractedFields(result, userQuery))
    else Err(NoAttribute(result, "get"))
  }

  /** `messages[-1]["content"]` for a dict message, `getattr(messages[-1], "content", "")`
      otherwise; the IndexError or KeyError text when that fails. */
  function ToolUserMessage(history: seq<Value>): (r: Result<Value>)
    ensures history == [] ==> r == Err("list index out of range")
    ensures history != [] && history[|history| - 1].Obj? ==>
              match Lookup(history[|history| - 1].fields, "content")
              case Some(c) => r == Ok(c)
              case None => r == Err("'content'")
    ensures history != [] && !history[|history| - 1].Obj? ==> r == Ok(Str(""))
  {
    if history == [] then Err("list index out of range")
    else
      var last := history[|history| - 1];
      if last.Obj? then
        match Lookup(last.fields, "content")
        case Some(c) => Ok(c)
        case None => Err("'content'")
      else Ok(Str(""))
  }

  /** The record `extract_intent_tool` returns: the other keyword arguments, the extracted
      fields over them and the messages with the model's raw answer appended. */
  function ExtractedRecord(args: Record, fields: Record, response: string): (r: Record)
    requires "messages" in args && args["messages"].Arr?
    requires fields.Keys == ExtractedKeys
    ensures MergedFrom(args, r, {"messages"}, ExtractedKeys + {"messages"})
    ensures r["messages"] == Arr(args["messages"].items + [Message("assistant", Str(response))])
    ensures forall k :: k in ExtractedKeys ==> r[k] == fields[k]
  {
    (args - {"messages"}) + fields + map["messages" := Arr(args["messages"].items + [Message("assistant", Str(response))])]
  }

  /** `extract_intent_tool`: asks the model about the last message, appends exactly one
      assistant message carrying the raw answer, and writes the extracted fields over the other
      keyword arguments. */
  function ExtractIntentTool(args: Record, llm: Value -> string, parse: string -> Result<Value>): (r: Step)
    requires "messages" in args && args["messages"].Arr?
    ensures ToolUserMessage(args["messages"].items).Err? ==>
              r == Raised(ToolUserMessage(args["messages"].items).error)
    ensures !r.AwaitingInput?
    ensures ToolUserMessage(args["messages"].items).Ok? ==>
              var q := ToolUserMessage(args["messages"].items).value;
              var x := Extract(llm(q), parse, q);
              && (r.Next? <==> x.Ok?)
              && (x.Err? ==> r == Raised(x.error))
              && (r.Next? ==>
                    && MergedFrom(args, r.state, {"messages"}, ExtractedKeys + {"messages"})
                    && r.state["messages"] == Arr(args["messages"].items + [Message("assistant", Str(llm(q)))])
                    && r.state["user_query"] == q
                    && forall k :: k in ExtractedKeys ==> r.state[k] == x.value[k])
  {
    var history := args["messages"].items;
    match ToolUserMessage(history)
    case Err(e) => Raised(e)
    case Ok(q) =>
      var response := llm(q);
      match Extract(response, parse, q)
      case Err(e) => Raised(e)
      case Ok(fields) => Next(ExtractedRecord(args, fields, response))
  }

  // -------------------------------------------------------------- template fetch

  const NoResourceType := "No resource_type provided."

  /** The FileNotFoundError text for a catalog file that does not exist. */
  function NotFoundError(path: string): string {
    "Template file not found: " + path
  }

  /** What reading a catalog file gives: the file does not exist, opening or decoding it
      raised, or its content. */
  datatype Fetched<T> = Missing | Unreadable(error: string) | Found(content: T)

  /** The path a fetch settled on (`""` when it never got one) and what it loaded. */
  datatype Fetch<T> = Fetch(path: string, outcome: Result<T>)

  /** The template lookup the fetch tool and the fetch node share: the resource type is split at
      its first "/", lower-cased into a catalog path and read with `read`. */
  function CatalogFetch<T>(rt: Value, read: string -> Fetched<T>): (r: Fetch<T>)
    ensures !Truthy(rt) ==> r == Fetch("", Err(NoResourceType))
    ensures Truthy(rt) && SplitResourceType(rt).Err? ==> r == Fetch("", Err(SplitResourceType(rt).error))
    ensures SplitResourceType(rt).Ok? ==>
              && r.path == TemplatePath(SplitResourceType(rt).value.0, SplitResourceType(rt).value.1)
              && (read(r.path).Missing? ==> r.outcome == Err(NotFoundError(r.path)))
              && (read(r.path).Unreadable? ==> r.outcome == Err(read(r.path).error))
              && (read(r.path).Found? ==> r.outcome == Ok(read(r.path).content))
    ensures r.outcome.Ok? ==> r.path != ""
  {
    if !Truthy(rt) then Fetch("", Err(NoResourceType))
    else match SplitResourceType(rt)
      case Err(e) => Fetch("", Err(e))
      case Ok((ns, rest)) =>
        var path := TemplatePath(ns, rest);
        match read(path)
        case Missing => Fetch(path, Err(NotFoundError(path)))
        case Unreadable(e) => Fetch(path, Err(e))
        case Found(c) => Fetch(path, Ok(c))
  }

  /** The catalog path of `Namespace/Rest` is the lower-cased namespace directory and the
      lower-cased rest as a `.json` file; only the first "/" splits. */
  lemma CatalogPathOf<T>(ns: string, rest: string, read: string -> Fetched<T>)
    requires '/' !in ns
    ensures CatalogFetch(Str(ns + "/" + rest), read).path
              == "quickstarts/" + Lower(ns) + "/" + Lower(rest) + ".json"
  {
    SplitResourceTypeOf(ns, rest);
  }

  /** The keys the fetch tool writes. */
  const FetchKeys: set<string> := {"messages", "template", "template_path", "template_error"}

  /** The status note the fetch tool appends. */
  function FetchNote(path: string): string {
    "Template fetch: " + (if path == "" then "not found" else path)
  }

  /** `fetch_template_tool`: loads the catalog template as a JSON value; on any failure the
      template stays `{}` and the error text is recorded. */
  function FetchTemplateTool(args: Record, load: string -> Fetched<Value>): (r: Record)
    requires ListOrFalsy(Get(args, "messages"))
    ensures MergedFrom(args, r, {"resource_type", "messages"}, FetchKeys)
    ensures r["template_path"].Str?
    ensures r["messages"] == Appended(Get(args, "messages"), [Note(FetchNote(r["template_path"].s))])
    ensures !Truthy(Get(args, "resource_type")) ==>
              && r["template"] == Obj([]) && r["template_path"] == Str("")
              && r["template_error"] == Str(NoResourceType)
    ensures Truthy(Get(args, "resource_type")) && SplitResourceType(Get(args, "resource_type")).Err? ==>
              && r["template"] == Obj([]) && r["template_path"] == Str("")
              && r["template_error"] == Str(SplitResourceType(Get(args, "resource_type")).error)
    ensures SplitResourceType(Get(args, "resource_type")).Ok? ==>
              var (ns, rest) := SplitResourceType(Get(args, "resource_type")).value;
              && r["template_path"] == Str(TemplatePath(ns, rest))
              && (load(TemplatePath(ns, rest)).Missing? ==>
                    r["template"] == Obj([]) && r["template_error"] == Str(NotFoundError(TemplatePath(ns, rest))))
              && (load(TemplatePath(ns, rest)).Unreadable? ==>
                    r["template"] == Obj([]) && r["template_error"] == Str(load(TemplatePath(ns, rest)).error))
    ensures r["template_error"] == Null <==> r["template_path"] != Str("") && load(r["template_path"].s).Found?
    ensures r["template_error"] == Null ==> load(r["template_path"].s) == Found(r["template"])
    ensures r["template_error"] != Null ==> r["template"] == Obj([])
  {
    var f := CatalogFetch(Get(args, "resource_type"), load);
    (args - {"resource_type", "messages"})
      ["messages" := Appended(Get(args, "messages"), [Note(FetchNote(f.path))])]
      ["template" := if f.outcome.Ok? then f.outcome.value else Obj([])]
      ["template_path" := Str(f.path)]
      ["template_error" := if f.outcome.Err? then Str(f.outcome.error) else Null]
  }

  // ----------------------------------------------------------------------- scope

  /** The template after `json.loads` of a str template; `None` when decoding raised. */
  function Decoded(template: Value, parse: string -> Result<Value>): Option<Value> {
    if template.Str? then
      match parse(template.s)
      case Ok(v) => Some(v)
      case Err(_) => None
    else Some(template)
  }

  /** The `$schema` entry of the (decoded) template. Only a non-empty dict holding the key has
      one: for any other value the membership test or the subscript raises, and the scope
      stays `None`. */
  function Schema(template: Value, parse: string -> Result<Value>): Option<Value> {
    match Decoded(template, parse)
    case Some(Obj(fields)) => Lookup(fields, "$schema")
    case _ => None
  }

  /** The deployment scope a template's `$schema` declares: "subscription" when the schema
      contains that word, "resourceGroup" for any other schema, `None` when there is no schema
      or the test raises. */
  function ScopeOf(template: Value, parse: string -> Result<Value>): (r: Value)
    ensures r == Null || r == Str("subscription") || r == Str("resourceGroup")
    ensures Schema(template, parse).None? ==> r == Null
    ensures Schema(template, parse).Some? && Schema(template, parse).value.Str? ==>
              r == if Contains(Schema(template, parse).value.s, "subscription")
                   then Str("subscription") else Str("resourceGroup")
    ensures Schema(template, parse).Some? && Schema(template, parse).value.Arr? ==>
              r == if Str("subscription") in Schema(template, parse).value.items
                   then Str("subscription") else Str("resourceGroup")
    ensures Schema(template, parse).Some? && Schema(template, parse).value.Obj? ==>
              r == if Lookup(Schema(template, parse).value.fields, "subscription").Some?
                   then Str("subscription") else Str("resourceGroup")
    ensures Schema(template, parse).Some? ==>
              var url := Schema(template, parse).value;
              (r == Null <==> !(url.Str? || url.Arr? || url.Obj?))
    ensures r != Null ==> Schema(template, parse).Some?
    ensures template.Str? && parse(template.s).Err? ==> r == Null
    ensures template == Obj([]) ==> r == Null
  {
    match Schema(template, parse)
    case None => Null
    case Some(url) =>
      match StrIn("subscription", url)
      case None => Null
      case Some(found) => if found then Str("subscription") else Str("resourceGroup")
  }

  /** The fetch node stores the raw file text and the fetch tool the decoded value: both give
      the same scope, unless the text decodes to a bare JSON string. */
  lemma RawAndDecodedScopeAgree(text: string, parse: string -> Result<Value>)
    requires parse(text).Ok? && !parse(text).value.Str?
    ensures ScopeOf(Str(text), parse) == ScopeOf(parse(text).value, parse)
  {
  }

  /** `determine_scope_tool`: records the scope and a status note; the template, a named
      parameter, is not passed on. */
  function DetermineScopeTool(args: Record, parse: string -> Result<Value>): (r: Record)
    requires ListOrFalsy(Get(args, "messages"))
    ensures MergedFrom(args, r, {"template", "messages"}, {"messages", "scope"})
    ensures "template" !in r
    ensures r["scope"] == ScopeOf(Get(args, "template"), parse)
    ensures r["messages"] == Appended(Get(args, "messages"), [Note("Scope determined: " + OptText(r["scope"]))])
  {
    var scope := ScopeOf(Get(args, "template"), parse);
    (args - {"template", "messages"})
      ["messages" := Appended(Get(args, "messages"), [Note("Scope determined: " + OptText(scope))])]
      ["scope" := scope]
  }

  // ---------------------------------------------------------------- scope fields

  const ResourceGroupField := "resource_group_name"
  const SubscriptionFields := "subscription_id or subscription_name"

  /** The missing scope fields, in order: the resource group when it is falsy, then the
      subscription when neither its id nor its name is truthy. */
  function ScopeFieldsMissing(rg: Value, sid: Value, sname: Value): (r: seq<string>)
    ensures ResourceGroupField in r <==> !Truthy(rg)
    ensures SubscriptionFields in r <==> !Truthy(sid) && !Truthy(sname)
    ensures forall x :: x in r ==> x == ResourceGroupField || x == SubscriptionFields
    ensures |r| == (if Truthy(rg) then 0 else 1) + (if Truthy(sid) || Truthy(sname) then 0 else 1)
    ensures |r| == 2 ==> r[0] == ResourceGroupField
  {
    (if Truthy(rg) then [] else [ResourceGroupField])
    + (if Truthy(sid) || Truthy(sname) then [] else [SubscriptionFields])
  }

  /** The `missing` list as the tool and the node build it, one `append` at a time. */
  method CollectMissingScopeFields(rg: Value, sid: Value, sname: Value) returns (missing: seq<string>)
    ensures missing == ScopeFieldsMissing(rg, sid, sname)
  {
    missing := [];
    if !Truthy(rg) {
      missing := missing + [ResourceGroupField];
    }
    if !(Truthy(sid) || Truthy(sname)) {
      missing := missing + [SubscriptionFields];
    }
  }

  /** The interrupt prompt naming the missing fields. */
  function MissingFieldsPrompt(missing: seq<string>): string {
    "Please provide the following required fields: " + Join(", ", missing) + "."
  }

  /** The three prompts the scope check can raise. */
  lemma ScopePrompts(rg: Value, sid: Value, sname: Value)
    ensures !Truthy(rg) && (Truthy(sid) || Truthy(sname)) ==>
              MissingFieldsPrompt(ScopeFieldsMissing(rg, sid, sname))
                == "Please provide the following required fields: " + ResourceGroupField + "."
    ensures Truthy(rg) && !Truthy(sid) && !Truthy(sname) ==>
              MissingFieldsPrompt(ScopeFieldsMissing(rg, sid, sname))
                == "Please provide the following required fields: " + SubscriptionFields + "."
    ensures !Truthy(rg) && !Truthy(sid) && !Truthy(sname) ==>
              MissingFieldsPrompt(ScopeFieldsMissing(rg, sid, sname))
                == "Please provide the following required fields: "
                   + ResourceGroupField + ", " + SubscriptionFields + "."
  {
    if !Truthy(rg) && !Truthy(sid) && !Truthy(sname) {
      assert ScopeFieldsMissing(rg, sid, sname) == [ResourceGroupField, SubscriptionFields];
      assert Join(", ", [ResourceGroupField, SubscriptionFields])
        == ResourceGroupField + ", " + SubscriptionFields;
    }
  }

  /** `check_scope_fields_tool`: interrupts with the prompt when a scope field is missing,
      otherwise passes the three fields on unchanged with one status note. */
  function CheckScopeFieldsTool(args: Record): (r: Step)
    requires ListOrFalsy(Get(args, "messages"))
    ensures !r.Raised?
    ensures r.AwaitingInput? <==>
              (!Truthy(Get(args, "resource_group_name"))
               || !(Truthy(Get(args, "subscription_id")) || Truthy(Get(args, "subscription_name"))))
    ensures r.AwaitingInput? ==>
              r.message == MissingFieldsPrompt(ScopeFieldsMissing(
                Get(args, "resource_group_name"), Get(args, "subscription_id"), Get(args, "subscription_name")))
    ensures r.Next? ==>
              && MergedFrom(args, r.state, ScopeKeys, ScopeKeys)
              && r.state["resource_group_name"] == Get(args, "resource_group_name")
              && r.state["subscription_id"] == Get(args, "subscription_id")
              && r.state["subscription_name"] == Get(args, "subscription_name")
              && r.state["messages"] == Appended(Get(args, "messages"), [Note("All required scope fields are present.")])
  {
    var rg := Get(args, "resource_group_name");
    var sid := Get(args, "subscription_id");
    var sname := Get(args, "subscription_name");
    var missing := ScopeFieldsMissing(rg, sid, sname);
    if missing != [] then AwaitingInput(MissingFieldsPrompt(missing))
    else
      Next((args - ScopeKeys)
        ["messages" := Appended(Get(args, "messages"), [Note("All required scope fields are present.")])]
        ["resource_group_name" := rg]["subscription_id" := sid]["subscription_name" := sname])
  }

  /** The scope check's named parameters, which it also writes back. */
  const ScopeKeys: set<string> := {"resource_group_name", "subscription_id", "subscription_name", "messages"}
}
