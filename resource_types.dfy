/** Resource types `Namespace/Resource`: the first-"/" split that intent, action and catalog
    code all perform, and the template catalog path derived from it. */
module ResourceTypes {
  import opened Wrappers
  import opened Text
  import opened Values

  /** The ValueError text of `namespace, rest = s.split("/", 1)` when `s` has no "/". */
  const UnpackError := "not enough values to unpack (expected 2, got 1)"

  /** `namespace, rest = resource_type.split("/", 1)`: the parts around the first "/", or the
      error Python raises (no "/", or a resource type that is not a str). */
  function SplitResourceType(rt: Value): (r: Result<(string, string)>)
    ensures r.Ok? <==> rt.Str? && '/' in rt.s
    ensures r.Ok? ==> rt.s == r.value.0 + "/" + r.value.1 && '/' !in r.value.0
    ensures rt.Str? && '/' !in rt.s ==> r == Err(UnpackError)
    ensures !rt.Str? ==> r == Err(NoAttribute(rt, "split"))
  {
    if !rt.Str? then Err(NoAttribute(rt, "split"))
    else match SplitOnce(rt.s, '/')
      case None => Err(UnpackError)
      case Some(parts) => Ok(parts)
  }

  /** Splitting undoes joining: a namespace without "/" and any rest come back unchanged. */
  lemma SplitResourceTypeOf(ns: string, rest: string)
    requires '/' !in ns
    ensures SplitResourceType(Str(ns + "/" + rest)) == Ok((ns, rest))
  {
    SplitOnceOfJoin(ns, '/', rest);
  }

  /** The quickstart catalog file for a split resource type. */
  function TemplatePath(ns: string, rest: string): string {
    "quickstarts/" + Lower(ns) + "/" + Lower(rest) + ".json"
  }
}
