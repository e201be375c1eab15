/** The resource-action agent's tools: get, list and delete a resource through the generic
    resources API, and the prompt for missing fields. */
module ResourceAction {
  import opened Wrappers
  import opened Values
  import opened Records
  import opened ResourceTypes
  import opened Azure
  import opened Outcomes

  /** `resource_action_status`, `resource_action_error` and `resource_action_result`. */
  const Keys := StatusKeys("resource_action_status", "resource_action_error", "resource_action_result")

  // ---------------------------------------------------------------- get, delete

  /** `(provided_fields or {}).get("name")`, or the AttributeError for a truthy non-dict. */
  function ResourceName(pf: Value): (r: Result<Value>)
    ensures !Truthy(pf) ==> r == Ok(Null)
    ensures pf.Obj? ==> r == Ok(DictGet(pf, "name", Null))
    ensures Truthy(pf) && !pf.Obj? ==> r == Err(NoAttribute(pf, "get"))
  {
    if !Truthy(pf) then Ok(Null)
    else if pf.Obj? then Ok(DictGet(pf, "name", Null))
    else Err(NoAttribute(pf, "get"))
  }

  /** The named parameters of the get and delete tools. */
  const SingleNamed: set<string> :=
    {"subscription_id", "resource_group_name", "resource_type", "provided_fields", "messages"}

  /** Both get and delete need the subscription, the resource group, the type and the name. */
  predicate SingleReady(args: Record, name: Value) {
    && Truthy(Get(args, "subscription_id")) && Truthy(Get(args, "resource_group_name"))
    && Truthy(Get(args, "resource_type")) && Truthy(name)
  }

  /** The resource a get or delete addresses, once the type is split. */
  function Target(args: Record, ns: string, typeName: string, name: Value): ResourceRef {
    ResourceRef(Get(args, "subscription_id"), Get(args, "resource_group_name"), ns, typeName, name, ApiVersion)
  }

  const GetMissing := "Missing required fields for get operation."

  /** `get_resource_tool` with the provider call `get`. */
  function GetResourceTool(args: Record, get: ResourceRef -> Result<Value>): (r: Step)
    requires ListOrFalsy(Get(args, "messages"))
    ensures !r.AwaitingInput?
    ensures ResourceName(Get(args, "provided_fields")).Err? ==>
              r == Raised(ResourceName(Get(args, "provided_fields")).error)
    ensures ResourceName(Get(args, "provided_fields")).Ok? ==>
              var name := ResourceName(Get(args, "provided_fields")).value;
              var split := SplitResourceType(Get(args, "resource_type"));
              && r.Next?
              && (!SingleReady(args, name) ==> GuardFailed(Keys, args, r.state, SingleNamed, GetMissing))
              && (SingleReady(args, name) && split.Err? ==>
                    CallFailed(Keys, args, r.state, SingleNamed, "Get resource", split.error))
              && (SingleReady(args, name) && split.Ok? ==>
                    var ref := Target(args, split.value.0, split.value.1, name);
                    && (get(ref).Ok? ==> Succeeded(Keys, args, r.state, SingleNamed, "Resource details fetched.", get(ref).value))
                    && (get(ref).Err? ==> CallFailed(Keys, args, r.state, SingleNamed, "Get resource", get(ref).error)))
  {
    match ResourceName(Get(args, "provided_fields"))
    case Err(e) => Raised(e)
    case Ok(name) =>
      if !SingleReady(args, name) then Next(Refusal(Keys, args, SingleNamed, GetMissing))
      else match SplitResourceType(Get(args, "resource_type"))
        case Err(e) => Next(Failure(Keys, args, SingleNamed, "Get resource", e))
        case Ok((ns, typeName)) =>
          match get(Target(args, ns, typeName, name))
          case Ok(v) => Next(Success(Keys, args, SingleNamed, "Resource details fetched.", v))
          case Err(e) => Next(Failure(Keys, args, SingleNamed, "Get resource", e))
  }

  /** A refused get does not depend on the provider: it is never called. */
  lemma GetGuardSkipsProvider(args: Record, g1: ResourceRef -> Result<Value>, g2: ResourceRef -> Result<Value>)
    requires ListOrFalsy(Get(args, "messages"))
    requires ResourceName(Get(args, "provided_fields")).Ok?
    requires !SingleReady(args, ResourceName(Get(args, "provided_fields")).value)
    ensures GetResourceTool(args, g1) == GetResourceTool(args, g2)
  {
  }

  const DeleteMissing := "Missing required fields for delete operation."

  /** The result text of a delete whose poller returned nothing. */
  function DeletedText(resourceType: string, name: Value, show: Value -> string): string {
    "Resource " + resourceType + " '" + Render(name, show) + "' deleted successfully."
  }

  /** `delete_resource_tool` with the provider call `delete`, whose poller result may be `None`. */
  function DeleteResourceTool(args: Record, delete: ResourceRef -> Result<Option<Value>>, show: Value -> string): (r: Step)
    requires ListOrFalsy(Get(args, "messages"))
    ensures !r.AwaitingInput?
    ensures ResourceName(Get(args, "provided_fields")).Err? ==>
              r == Raised(ResourceName(Get(args, "provided_fields")).error)
    ensures ResourceName(Get(args, "provided_fields")).Ok? ==>
              var name := ResourceName(Get(args, "provided_fields")).value;
              var split := SplitResourceType(Get(args, "resource_type"));
              && r.Next?
              && (!SingleReady(args, name) ==> GuardFailed(Keys, args, r.state, SingleNamed, DeleteMissing))
              && (SingleReady(args, name) && split.Err? ==>
                    CallFailed(Keys, args, r.state, SingleNamed, "Delete resource", split.error))
              && (SingleReady(args, name) && split.Ok? ==>
                    var ref := Target(args, split.value.0, split.value.1, name);
                    && (delete(ref) == Ok(None) ==>
                          Succeeded(Keys, args, r.state, SingleNamed, "Resource deleted.",
                                    Str(DeletedText(Get(args, "resource_type").s, name, show))))
                    && (delete(ref).Ok? && delete(ref).value.Some? ==>
                          Succeeded(Keys, args, r.state, SingleNamed, "Resource deleted.", delete(ref).value.value))
                    && (delete(ref).Err? ==> CallFailed(Keys, args, r.state, SingleNamed, "Delete resource", delete(ref).error)))
  {
    match ResourceName(Get(args, "provided_fields"))
    case Err(e) => Raised(e)
    case Ok(name) =>
      if !SingleReady(args, name) then Next(Refusal(Keys, args, SingleNamed, DeleteMissing))
      else match SplitResourceType(Get(args, "resource_type"))
        case Err(e) => Next(Failure(Keys, args, SingleNamed, "Delete resource", e))
        case Ok((ns, typeName)) =>
          match delete(Target(args, ns, typeName, name))
          case Ok(None) =>
            Next(Success(Keys, args, SingleNamed, "Resource deleted.",
                             Str(DeletedText(Get(args, "resource_type").s, name, show))))
          case Ok(Some(v)) => Next(Success(Keys, args, SingleNamed, "Resource deleted.", v))
          case Err(e) => Next(Failure(Keys, args, SingleNamed, "Delete resource", e))
  }

  /** A refused delete does not depend on the provider: nothing is deleted. */
  lemma DeleteGuardSkipsProvider(args: Record, show: Value -> string,
                                 d1: ResourceRef -> Result<Option<Value>>, d2: ResourceRef -> Result<Option<Value>>)
    requires ListOrFalsy(Get(args, "messages"))
    requires ResourceName(Get(args, "provided_fields")).Ok?
    requires !SingleReady(args, ResourceName(Get(args, "provided_fields")).value)
    ensures DeleteResourceTool(args, d1, show) == DeleteResourceTool(args, d2, show)
  {
  }

  // ------------------------------------------------------------------------ list

  const ListNamed: set<string> := {"subscription_id", "resource_group_name", "resource_type", "messages"}
  const ListMissing := "Missing required fields for list operation."

  /** The OData filter for one resource type. */
  function ListFilter(ns: string, typeName: string): string {
    "resourceType eq '" + ns + "/" + typeName + "'"
  }

  /** The listing a list call asks for: unfiltered without a resource type, filtered on the
      whole type otherwise; the split error for a type without "/". */
  function ListRequest(sid: Value, rg: Value, rt: Value): (r: Result<ListQuery>)
    ensures !Truthy(rt) ==> r == Ok(ListQuery(sid, rg, None))
    ensures Truthy(rt) && SplitResourceType(rt).Err? ==> r == Err(SplitResourceType(rt).error)
    ensures Truthy(rt) && SplitResourceType(rt).Ok? ==>
              r == Ok(ListQuery(sid, rg, Some("resourceType eq '" + rt.s + "'")))
  {
    if !Truthy(rt) then Ok(ListQuery(sid, rg, None))
    else match SplitResourceType(rt)
      case Err(e) => Err(e)
      case Ok((ns, typeName)) =>
        assert ListFilter(ns, typeName) == "resourceType eq '" + (ns + "/" + typeName) + "'";
        Ok(ListQuery(sid, rg, Some(ListFilter(ns, typeName))))
  }

  /** `list_resources_tool` with the provider call `list`. */
  function ListResourcesTool(args: Record, list: ListQuery -> Result<seq<Value>>): (r: Record)
    requires ListOrFalsy(Get(args, "messages"))
    ensures var sid := Get(args, "subscription_id");
      var rg := Get(args, "resource_group_name");
      var q := ListRequest(sid, rg, Get(args, "resource_type"));
      && (!(Truthy(sid) && Truthy(rg)) ==> GuardFailed(Keys, args, r, ListNamed, ListMissing))
      && (Truthy(sid) && Truthy(rg) && q.Err? ==> CallFailed(Keys, args, r, ListNamed, "List resources", q.error))
      && (Truthy(sid) && Truthy(rg) && q.Ok? ==>
            && (list(q.value).Ok? ==> Succeeded(Keys, args, r, ListNamed, "Resources listed.", Arr(list(q.value).value)))
            && (list(q.value).Err? ==> CallFailed(Keys, args, r, ListNamed, "List resources", list(q.value).error)))
  {
    var sid := Get(args, "subscription_id");
    var rg := Get(args, "resource_group_name");
    if !(Truthy(sid) && Truthy(rg)) then Refusal(Keys, args, ListNamed, ListMissing)
    else match ListRequest(sid, rg, Get(args, "resource_type"))
      case Err(e) => Failure(Keys, args, ListNamed, "List resources", e)
      case Ok(q) =>
        match list(q)
        case Ok(items) => Success(Keys, args, ListNamed, "Resources listed.", Arr(items))
        case Err(e) => Failure(Keys, args, ListNamed, "List resources", e)
  }

  // ---------------------------------------------------------------------- prompt

  const ActionFallback := "Missing or invalid fields for resource action."

  /** `prompt_for_missing_action_tool`: interrupts with the recorded error, or the fixed text
      when there is none. */
  function PromptForMissingActionTool(args: Record): (r: Step)
    requires OptStr(Get(args, "resource_action_error"))
    ensures Truthy(Get(args, "resource_action_error")) ==> r == AwaitingInput(Get(args, "resource_action_error").s)
    ensures !Truthy(Get(args, "resource_action_error")) ==> r == AwaitingInput(ActionFallback)
  {
    AwaitingInput(PromptText(Get(args, "resource_action_error"), ActionFallback))
  }
}
