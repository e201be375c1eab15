/** The three result shapes the resource-action and deployment tools return: a guard that
    refused the call, a call that raised, and a call that succeeded. Each agent names its own
    status, error and result keys. */
module Outcomes {
  import opened Values
  import opened Records

  /** The keys one agent reports through, e.g. `deployment_status`, `deployment_error` and
      `deployment_result`. */
  datatype StatusKeys = StatusKeys(status: string, error: string, result: string)

  /** The four keys a tool writes are pairwise different. */
  predicate Distinct(keys: StatusKeys) {
    && keys.status != keys.error && keys.status != keys.result && keys.error != keys.result
    && "messages" !in {keys.status, keys.error, keys.result}
  }

  /** A guard refused the call: `{**kwargs, messages + [note], status: "failed", error}`; the
      result key is not written, so a value passed in through `**kwargs` survives. */
  predicate GuardFailed(keys: StatusKeys, args: Record, r: Record, named: set<string>, error: string) {
    && MergedFrom(args, r, named, {"messages", keys.status, keys.error})
    && r["messages"] == Appended(Get(args, "messages"), [Note(error)])
    && r[keys.status] == Str("failed")
    && r[keys.error] == Str(error)
  }

  /** The call raised: one note "<what> failed: <error>", a `None` result, the error and
      status "failed". */
  predicate CallFailed(keys: StatusKeys, args: Record, r: Record, named: set<string>, what: string, error: string) {
    && MergedFrom(args, r, named, {"messages", keys.result, keys.error, keys.status})
    && r["messages"] == Appended(Get(args, "messages"), [Note(what + " failed: " + error)])
    && r[keys.result] == Null
    && r[keys.error] == Str(error)
    && r[keys.status] == Str("failed")
  }

  /** The call succeeded: one note, the result and status "success"; the error key is not
      written. */
  predicate Succeeded(keys: StatusKeys, args: Record, r: Record, named: set<string>, note: string, result: Value) {
    && MergedFrom(args, r, named, {"messages", keys.result, keys.status})
    && r["messages"] == Appended(Get(args, "messages"), [Note(note)])
    && r[keys.result] == result
    && r[keys.status] == Str("success")
  }

  /** The record a refused call returns: `{**kwargs, messages + [note], status, error}`. */
  function Refusal(keys: StatusKeys, args: Record, named: set<string>, error: string): (r: Record)
    requires Distinct(keys)
    ensures GuardFailed(keys, args, r, named, error)
  {
    (args - named)["messages" := Appended(Get(args, "messages"), [Note(error)])]
      [keys.status := Str("failed")][keys.error := Str(error)]
  }

  /** The record a call that raised returns. */
  function Failure(keys: StatusKeys, args: Record, named: set<string>, what: string, error: string): (r: Record)
    requires Distinct(keys)
    ensures CallFailed(keys, args, r, named, what, error)
  {
    (args - named)["messages" := Appended(Get(args, "messages"), [Note(what + " failed: " + error)])]
      [keys.result := Null][keys.error := Str(error)][keys.status := Str("failed")]
  }

  /** The record a successful call returns. */
  function Success(keys: StatusKeys, args: Record, named: set<string>, note: string, result: Value): (r: Record)
    requires Distinct(keys)
    ensures Succeeded(keys, args, r, named, note, result)
  {
    (args - named)["messages" := Appended(Get(args, "messages"), [Note(note)])]
      [keys.result := result][keys.status := Str("success")]
  }

  /** A prompt tool's interrupt text: the recorded error, or the agent's fixed text when none
      was recorded. The messages it appends are lost with the interrupt. */
  function PromptText(error: Value, fallback: string): (text: string)
    requires OptStr(error)
    ensures Truthy(error) ==> text == error.s
    ensures !Truthy(error) ==> text == fallback
  {
    if Truthy(error) then error.s else fallback
  }
}
