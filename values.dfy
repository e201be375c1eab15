/** JSON-like Python values: what `json.loads` returns and what the state record holds. */
module Values {
  import opened Wrappers
  import opened Text

  /** A Python value as it appears in the pipeline. A dict keeps its keys in insertion order. */
  datatype Value =
    | Null
    | Bool(b: bool)
    | Int(i: int)
    | Float(r: real)
    | Str(s: string)
    | Arr(items: seq<Value>)
    | Obj(fields: seq<(string, Value)>)

  /** Python truthiness (`if v:`, `not v`, `a or b`). */
  predicate Truthy(v: Value) {
    match v
    case Null => false
    case Bool(b) => b
    case Int(i) => i != 0
    case Float(r) => r != 0.0
    case Str(s) => s != []
    case Arr(items) => items != []
    case Obj(fields) => fields != []
  }

  /** The value bound to `key` in a dict's field list: the first entry with that key. */
  function Lookup(fields: seq<(string, Value)>, key: string): Option<Value> {
    if fields == [] then None
    else if fields[0].0 == key then Some(fields[0].1)
    else Lookup(fields[1..], key)
  }

  /** A key is found exactly when some entry carries it, and what is found is an entry's. */
  lemma {:induction false} LookupSpec(fields: seq<(string, Value)>, key: string)
    ensures Lookup(fields, key).None? <==> forall i :: 0 <= i < |fields| ==> fields[i].0 != key
    ensures Lookup(fields, key).Some? ==>
              exists i :: 0 <= i < |fields| && fields[i] == (key, Lookup(fields, key).value)
  {
    if fields != [] && fields[0].0 != key {
      LookupSpec(fields[1..], key);
      assert forall i :: 1 <= i < |fields| ==> fields[i] == fields[1..][i - 1];
      if Lookup(fields, key).Some? {
        var i :| 0 <= i < |fields[1..]| && fields[1..][i] == (key, Lookup(fields, key).value);
        assert fields[i + 1] == fields[1..][i];
      }
    }
  }

  /** The first entry carrying `key` is the one found. */
  lemma {:induction false} LookupFirst(fields: seq<(string, Value)>, key: string, i: nat)
    requires i < |fields| && fields[i].0 == key
    requires forall j :: 0 <= j < i ==> fields[j].0 != key
    ensures Lookup(fields, key) == Some(fields[i].1)
  {
    if i > 0 {
      assert forall j :: 0 <= j < i - 1 ==> fields[1..][j] == fields[j + 1];
      LookupFirst(fields[1..], key, i - 1);
    }
  }

  /** Python's `d.get(key, default)` on a dict. */
  function DictGet(d: Value, key: string, default: Value): Value
    requires d.Obj?
  {
    match Lookup(d.fields, key)
    case Some(v) => v
    case None => default
  }

  /** Python's `type(v).__name__`. */
  function TypeName(v: Value): string {
    match v
    case Null => "NoneType"
    case Bool(_) => "bool"
    case Int(_) => "int"
    case Float(_) => "float"
    case Str(_) => "str"
    case Arr(_) => "list"
    case Obj(_) => "dict"
  }

  /** The text of the AttributeError Python raises for `v.attr` when `v` lacks it. */
  function NoAttribute(v: Value, attr: string): string {
    "'" + TypeName(v) + "' object has no attribute '" + attr + "'"
  }

  /** Python's `item in container` for a str `item`; `None` where Python raises TypeError. */
  function StrIn(item: string, container: Value): (r: Option<bool>)
    ensures r.Some? <==> container.Str? || container.Arr? || container.Obj?
    ensures container.Str? ==> r == Some(Contains(container.s, item))
    ensures container.Arr? ==> r == Some(Str(item) in container.items)
    ensures container.Obj? ==> r == Some(Lookup(container.fields, item).Some?)
  {
    match container
    case Str(s) => Some(Contains(s, item))
    case Arr(items) => Some(Str(item) in items)
    case Obj(fields) => Some(Lookup(fields, item).Some?)
    case _ => None
  }

  /** What a Python `for` loop visits: list items, one-character strings, dict keys;
      `None` when the value is not iterable. */
  function Iterate(v: Value): Option<seq<Value>> {
    match v
    case Str(s) => Some(seq(|s|, i requires 0 <= i < |s| => Str([s[i]])))
    case Arr(items) => Some(items)
    case Obj(fields) => Some(seq(|fields|, i requires 0 <= i < |fields| => Str(fields[i].0)))
    case _ => None
  }

  /** The index of the first item that is not a str. */
  function FirstNonStr(items: seq<Value>): (k: nat)
    ensures k <= |items|
    ensures forall j :: 0 <= j < k ==> items[j].Str?
    ensures k < |items| ==> !items[k].Str?
  {
    if items == [] || !items[0].Str? then 0 else 1 + FirstNonStr(items[1..])
  }

  /** Python's `sep.join(v)`, with the TypeError text it raises for a non-iterable or a non-str item. */
  function JoinStrings(sep: string, v: Value): (r: Result<string>)
    ensures r.Ok? <==> Iterate(v).Some? && forall x :: x in Iterate(v).value ==> x.Str?
    ensures v.Arr? && (forall x :: x in v.items ==> x.Str?) ==>
              r == Ok(Join(sep, seq(|v.items|, i requires 0 <= i < |v.items| => v.items[i].s)))
  {
    match Iterate(v)
    case None => Err("can only join an iterable")
    case Some(items) =>
      var k := FirstNonStr(items);
      if k < |items| then
        assert items[k] in items;
        Err("sequence item " + NatToString(k) + ": expected str instance, "
            + TypeName(items[k]) + " found")
      else
        Ok(Join(sep, seq(|items|, i requires 0 <= i < |items| => items[i].s)))
  }

  /** Python's `str(v)` as an f-string interpolates it: exact for None, booleans and strings;
      numbers, lists and dicts are rendered by `show`, which the model leaves abstract. */
  function Render(v: Value, show: Value -> string): (r: string)
    ensures v.Str? ==> r == v.s
    ensures v.Null? ==> r == "None"
  {
    match v
    case Null => "None"
    case Bool(b) => if b then "True" else "False"
    case Str(s) => s
    case _ => show(v)
  }
}
