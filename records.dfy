/** The shared conversation record every tool and node reads and returns: a Python dict from
    field names (`messages`, `intent`, `resource_type`, `template`, ...) to values. */
module Records {
  import opened Wrappers
  import opened Values

  type Record = map<string, Value>

  /** `state.get(key)`: the value, or None when the key is absent. A tool's keyword
      parameter that defaults to None reads the same way. */
  function Get(r: Record, key: string): Value {
    if key in r then r[key] else Null
  }

  /** `state.get(key, default)`. */
  function GetOr(r: Record, key: string, default: Value): Value {
    if key in r then r[key] else default
  }

  /** A chat message `{"role": role, "content": content}`. */
  function Message(role: string, content: Value): Value {
    Obj([("role", Str(role)), ("content", content)])
  }

  /** A `{"role": "system", ...}` message. */
  function Note(text: string): Value {
    Message("system", Str(text))
  }

  /** The declared type of `messages`: a list, or a falsy value standing for "no messages". */
  predicate ListOrFalsy(v: Value) {
    v.Arr? || !Truthy(v)
  }

  /** `list(messages) if messages else []`, and equally `messages or []`. */
  function History(v: Value): seq<Value> {
    if v.Arr? then v.items else []
  }

  /** The message list a tool returns: the caller's messages followed by `entries`. */
  function Appended(v: Value, entries: seq<Value>): Value {
    Arr(History(v) + entries)
  }

  /** The declared type `Optional[str]`. */
  predicate OptStr(v: Value) {
    v.Null? || v.Str?
  }

  /** An `Optional[str]` as an f-string renders it. */
  function OptText(v: Value): string
    requires OptStr(v)
  {
    if v.Str? then v.s else "None"
  }

  /** `r` is `base` with the keys in `dropped` removed and the keys in `written` set: the shape
      of `{**kwargs, k: v, ...}` (kwargs = base minus the tool's named parameters) and of
      `{**state, k: v, ...}` (nothing dropped). Every other key keeps its value. */
  predicate MergedFrom(base: Record, r: Record, dropped: set<string>, written: set<string>) {
    && r.Keys == (base.Keys - dropped) + written
    && forall k :: k in base && k !in dropped && k !in written ==> r[k] == base[k]
  }

  /** A key a merge neither drops nor writes reads the same before and after it. */
  lemma MergedKeeps(base: Record, r: Record, dropped: set<string>, written: set<string>, k: string)
    requires MergedFrom(base, r, dropped, written)
    requires k !in dropped && k !in written
    ensures Get(r, k) == Get(base, k)
  {
  }

  /** What running a tool or node ends in: the next record, a LangGraph `interrupt` carrying a
      prompt for the user, or a Python exception that escapes the stage. */
  datatype Step = Next(state: Record) | AwaitingInput(message: string) | Raised(error: string)
}
