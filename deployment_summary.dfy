/** The chat front end's deployment summary: one text built from the final state of a
    deployment run, with the error first, then the result, then a validation error. */
module DeploymentSummary {
  import opened Wrappers
  import opened Text
  import opened Values
  import opened Records

  const FailedPrefix := "\U{274C} Deployment failed:\n"
  const SucceededHeader := "\U{2705} Deployment succeeded!"
  const ValidationPrefix := "\U{26A0}\U{FE0F} Validation error: "
  const NoResult := "No deployment result available."
  const PortalPrefix := "https://ms.portal.azure.com/#@/resource"

  function ResourceGroupLine(rg: Value, show: Value -> string): string {
    "Resource Group: " + Render(rg, show)
  }

  /** `f"  - {k}: {v.get('value')}"` for one output. */
  function OutputLine(k: string, v: Value, show: Value -> string): string
    requires v.Obj?
  {
    "  - " + k + ": " + Render(DictGet(v, "value", Null), show)
  }

  function StateLine(state: Value, show: Value -> string): string {
    "Provisioning State: " + Render(state, show)
  }

  function LinkLine(resourceId: string): string {
    "[View in Azure Portal](" + PortalPrefix + resourceId + "/overview)"
  }

  /** An output links to the portal when its name ends in "id" (any case) and its value is a
      string naming a resource under "/subscriptions/". */
  predicate Qualifies(k: string, v: Value) {
    && v.Obj?
    && EndsWith(Lower(k), "id")
    && DictGet(v, "value", Null).Str?
    && StartsWith(DictGet(v, "value", Null).s, "/subscriptions/")
  }

  /** The position of the first output whose value is not a dict, or the number of outputs
      when they all are. */
  function FirstNonDict(outputs: seq<(string, Value)>): (k: nat)
    ensures k <= |outputs|
    ensures forall j :: 0 <= j < k ==> outputs[j].1.Obj?
    ensures k < |outputs| ==> !outputs[k].1.Obj?
  {
    if outputs == [] || !outputs[0].1.Obj? then 0
    else
      var k := 1 + FirstNonDict(outputs[1..]);
      assert forall j :: 1 <= j < k ==> outputs[j] == outputs[1..][j - 1];
      k
  }

  /** The lines of the first `n` outputs, all of them dicts. */
  function LinesUpTo(outputs: seq<(string, Value)>, n: nat, show: Value -> string): seq<string>
    requires n <= |outputs|
    requires forall j :: 0 <= j < n ==> outputs[j].1.Obj?
  {
    if n == 0 then []
    else LinesUpTo(outputs, n - 1, show) + [OutputLine(outputs[n - 1].0, outputs[n - 1].1, show)]
  }

  /** One line per output, in iteration order. */
  lemma {:induction false} LinesUpToSpec(outputs: seq<(string, Value)>, n: nat, show: Value -> string)
    requires n <= |outputs|
    requires forall j :: 0 <= j < n ==> outputs[j].1.Obj?
    ensures |LinesUpTo(outputs, n, show)| == n
    ensures forall i :: 0 <= i < n ==> LinesUpTo(outputs, n, show)[i] == OutputLine(outputs[i].0, outputs[i].1, show)
  {
    if n > 0 {
      LinesUpToSpec(outputs, n - 1, show);
    }
  }

  /** The output lines, or the AttributeError of the first output that is not a dict. */
  function OutputLines(outputs: seq<(string, Value)>, show: Value -> string): Result<seq<string>> {
    var k := FirstNonDict(outputs);
    if k < |outputs| then Err(NoAttribute(outputs[k].1, "get"))
    else Ok(LinesUpTo(outputs, |outputs|, show))
  }

  /** The resource id the portal link points at after the first `n` outputs: each qualifying
      output overwrites the link, so it is the value of the last one. */
  function LinkAfter(outputs: seq<(string, Value)>, n: nat): Option<string>
    requires n <= |outputs|
  {
    if n == 0 then None
    else if Qualifies(outputs[n - 1].0, outputs[n - 1].1) then Some(DictGet(outputs[n - 1].1, "value", Null).s)
    else LinkAfter(outputs, n - 1)
  }

  /** There is a link exactly when some output among the first `n` qualifies, and it is the
      value of the last one that does. */
  lemma {:induction false} LinkAfterSpec(outputs: seq<(string, Value)>, n: nat)
    requires n <= |outputs|
    ensures LinkAfter(outputs, n).None? <==> forall i :: 0 <= i < n ==> !Qualifies(outputs[i].0, outputs[i].1)
    ensures LinkAfter(outputs, n).Some? ==>
              exists k :: 0 <= k < n && Qualifies(outputs[k].0, outputs[k].1)
                          && LinkAfter(outputs, n).value == DictGet(outputs[k].1, "value", Null).s
                          && forall j :: k < j < n ==> !Qualifies(outputs[j].0, outputs[j].1)
  {
    if n > 0 && !Qualifies(outputs[n - 1].0, outputs[n - 1].1) {
      LinkAfterSpec(outputs, n - 1);
    }
  }

  function LastLink(outputs: seq<(string, Value)>): Option<string> {
    LinkAfter(outputs, |outputs|)
  }

  /** The outputs the loop walks: those of a truthy dict, none when `outputs` is falsy. */
  function OutputFields(outputs: Value): seq<(string, Value)> {
    if Truthy(outputs) && outputs.Obj? then outputs.fields else []
  }

  /** The header, and the resource group when it is truthy. */
  function HeadLines(rg: Value, show: Value -> string): seq<string> {
    [SucceededHeader] + (if Truthy(rg) then [ResourceGroupLine(rg, show)] else [])
  }

  /** "Outputs:" and the output lines, when `outputs` is truthy. */
  function OutputSection(outputs: Value, lines: seq<string>): seq<string> {
    if Truthy(outputs) then ["Outputs:"] + lines else []
  }

  /** The provisioning state when it is truthy, then the portal link when there is one. */
  function TailLines(state: Value, link: Option<string>, show: Value -> string): seq<string> {
    (if Truthy(state) then [StateLine(state, show)] else []) + (if link.Some? then [LinkLine(link.value)] else [])
  }

  /** The lines of a successful summary, or the AttributeError of a result, a `properties`
      entry, an `outputs` entry or an output that is not a dict. */
  function SuccessLines(res: Record, show: Value -> string): Result<seq<string>>
    requires "deployment_result" in res
  {
    var result := res["deployment_result"];
    if !result.Obj? then Err(NoAttribute(result, "get"))
    else
      var props := DictGet(result, "properties", Obj([]));
      if !props.Obj? then Err(NoAttribute(props, "get"))
      else
        var outputs := DictGet(props, "outputs", Null);
        if Truthy(outputs) && !outputs.Obj? then Err(NoAttribute(outputs, "items"))
        else
          var fields := OutputFields(outputs);
          match OutputLines(fields, show)
          case Err(e) => Err(e)
          case Ok(lines) =>
            var rg := Get(res, "resource_group_name");
            var state := DictGet(props, "provisioningState", Null);
            var link := LastLink(fields);
            Ok(HeadLines(rg, show) + OutputSection(outputs, lines) + TailLines(state, link, show))
  }

  /** `format_deployment_summary`. The mere presence of `deployment_error` wins, whatever its
      value; then `deployment_result`; then `validation_error`. */
  function Summary(res: Record, show: Value -> string): (r: Result<string>)
    ensures "deployment_error" in res ==> r == Ok(FailedPrefix + Render(res["deployment_error"], show))
    ensures "deployment_error" !in res && "deployment_result" in res ==>
              && (r.Ok? <==> SuccessLines(res, show).Ok?)
              && (r.Ok? ==> StartsWith(r.value, SucceededHeader))
    ensures "deployment_error" !in res && "deployment_result" !in res && "validation_error" in res ==>
              r == Ok(ValidationPrefix + Render(res["validation_error"], show))
    ensures "deployment_error" !in res && "deployment_result" !in res && "validation_error" !in res ==>
              r == Ok(NoResult)
  {
    if "deployment_error" in res then Ok(FailedPrefix + Render(res["deployment_error"], show))
    else if "deployment_result" in res then
      match SuccessLines(res, show)
      case Err(e) => Err(e)
      case Ok(lines) =>
        JoinEnds("\n", lines);
        Ok(Join("\n", lines))
    else if "validation_error" in res then Ok(ValidationPrefix + Render(res["validation_error"], show))
    else Ok(NoResult)
  }

  /** The loop over `outputs.items()`: one line per output, and the link of the latest
      qualifying one; the AttributeError of the first output that is not a dict. */
  method CollectOutputs(fields: seq<(string, Value)>, show: Value -> string)
    returns (lines: Result<seq<string>>, link: Option<string>)
    ensures lines == OutputLines(fields, show)
    ensures link == LastLink(fields)
  {
    var collected: seq<string> := [];
    link := None;
    var i := 0;
    while i < |fields|
      invariant 0 <= i <= |fields|
      invariant forall j :: 0 <= j < i ==> fields[j].1.Obj?
      invariant collected == LinesUpTo(fields, i, show)
      invariant link == LinkAfter(fields, i)
    {
      var k, v := fields[i].0, fields[i].1;
      if !v.Obj? {
        FirstNonDictAt(fields, i);
        return Err(NoAttribute(v, "get")), LinkAfter(fields, |fields|);
      }
      OutputStep(fields, i, show);
      collected := collected + [OutputLine(k, v, show)];
      if Qualifies(k, v) {
        link := Some(DictGet(v, "value", Null).s);
      }
      i := i + 1;
    }
    FirstNonDictAt(fields, |fields|);
    return Ok(collected), link;
  }

  /** One more dict output adds its line, and its value becomes the link when it qualifies. */
  lemma OutputStep(fields: seq<(string, Value)>, i: nat, show: Value -> string)
    requires i < |fields|
    requires forall j :: 0 <= j <= i ==> fields[j].1.Obj?
    ensures LinesUpTo(fields, i + 1, show)
            == LinesUpTo(fields, i, show) + [OutputLine(fields[i].0, fields[i].1, show)]
    ensures LinkAfter(fields, i + 1)
            == if Qualifies(fields[i].0, fields[i].1) then Some(DictGet(fields[i].1, "value", Null).s)
               else LinkAfter(fields, i)
  {
  }

  /** The first non-dict output is at `i` when every output before it is a dict and the one
      at `i`, if any, is not. */
  lemma FirstNonDictAt(fields: seq<(string, Value)>, i: nat)
    requires i <= |fields|
    requires forall j :: 0 <= j < i ==> fields[j].1.Obj?
    requires i < |fields| ==> !fields[i].1.Obj?
    ensures FirstNonDict(fields) == i
  {
  }

  /** The lines of a successful summary, appended one at a time. */
  method CollectSuccessLines(res: Record, show: Value -> string) returns (r: Result<seq<string>>)
    requires "deployment_result" in res
    ensures r == SuccessLines(res, show)
  {
    var result := res["deployment_result"];
    if !result.Obj? {
      return Err(NoAttribute(result, "get"));
    }
    var props := DictGet(result, "properties", Obj([]));
    if !props.Obj? {
      return Err(NoAttribute(props, "get"));
    }
    var outputs := DictGet(props, "outputs", Null);
    if Truthy(outputs) && !outputs.Obj? {
      return Err(NoAttribute(outputs, "items"));
    }
    var lines, link := CollectOutputs(OutputFields(outputs), show);
    if lines.Err? {
      return Err(lines.error);
    }
    var summary := [SucceededHeader];
    var rg := Get(res, "resource_group_name");
    if Truthy(rg) {
      summary := summary + [ResourceGroupLine(rg, show)];
    }
    assert summary == HeadLines(rg, show);
    if Truthy(outputs) {
      summary := summary + (["Outputs:"] + lines.value);
    }
    assert summary == HeadLines(rg, show) + OutputSection(outputs, lines.value);
    ghost var before := summary;
    var state := DictGet(props, "provisioningState", Null);
    if Truthy(state) {
      summary := summary + [StateLine(state, show)];
    }
    if link.Some? {
      summary := summary + [LinkLine(link.value)];
    }
    assert summary == before + TailLines(state, link, show);
    return Ok(summary);
  }

  /** `format_deployment_summary`. */
  method FormatDeploymentSummary(res: Record, show: Value -> string) returns (r: Result<string>)
    ensures r == Summary(res, show)
  {
    if "deployment_error" in res {
      return Ok(FailedPrefix + Render(res["deployment_error"], show));
    }
    if "deployment_result" !in res {
      if "validation_error" in res {
        return Ok(ValidationPrefix + Render(res["validation_error"], show));
      }
      return Ok(NoResult);
    }
    var lines := CollectSuccessLines(res, show);
    if lines.Err? {
      return Err(lines.error);
    }
    return Ok(Join("\n", lines.value));
  }

  /** A successful summary opens with the header, followed by the resource group line
      exactly when the group is truthy: with a falsy group no later line is a group line
      (none of them starts with 'R'). */
  lemma SuccessHeader(res: Record, show: Value -> string)
    requires "deployment_result" in res && SuccessLines(res, show).Ok?
    ensures var lines := SuccessLines(res, show).value;
      var rg := Get(res, "resource_group_name");
      && |lines| >= (if Truthy(rg) then 2 else 1)
      && lines[0] == SucceededHeader
      && (Truthy(rg) ==> lines[1] == ResourceGroupLine(rg, show))
      && (!Truthy(rg) ==> forall i :: 1 <= i < |lines| ==> |lines[i]| > 0 && lines[i][0] != 'R')
  {
    var rg := Get(res, "resource_group_name");
    if !Truthy(rg) {
      var props := DictGet(res["deployment_result"], "properties", Obj([]));
      var outputs := DictGet(props, "outputs", Null);
      var fields := OutputFields(outputs);
      assert FirstNonDict(fields) == |fields|;
      var section := OutputSection(outputs, OutputLines(fields, show).value);
      var tail := TailLines(DictGet(props, "provisioningState", Null), LastLink(fields), show);
      SectionNotGroup(outputs, fields, show);
      TailNotGroup(DictGet(props, "provisioningState", Null), LastLink(fields), show);
      assert SuccessLines(res, show).value == HeadLines(rg, show) + section + tail;
      NoGroupLineAfterHeader(rg, section, tail, show);
    }
  }

  lemma NoGroupLineAfterHeader(rg: Value, section: seq<string>, tail: seq<string>, show: Value -> string)
    requires !Truthy(rg)
    requires forall i :: 0 <= i < |section| ==> NotGroupLine(section[i])
    requires forall i :: 0 <= i < |tail| ==> NotGroupLine(tail[i])
    ensures var lines := HeadLines(rg, show) + section + tail;
      forall i :: 1 <= i < |lines| ==> |lines[i]| > 0 && lines[i][0] != 'R'
  {
    var lines := HeadLines(rg, show) + section + tail;
    forall i | 1 <= i < |lines|
      ensures NotGroupLine(lines[i])
    {
      if i <= |section| {
        assert lines[i] == section[i - 1];
      } else {
        assert lines[i] == tail[i - 1 - |section|];
      }
    }
  }

  /** A line that cannot be the resource group line: it does not start with 'R'. */
  predicate NotGroupLine(l: string) {
    |l| > 0 && l[0] != 'R'
  }

  lemma SectionNotGroup(outputs: Value, fields: seq<(string, Value)>, show: Value -> string)
    requires forall j :: 0 <= j < |fields| ==> fields[j].1.Obj?
    ensures forall i :: 0 <= i < |OutputSection(outputs, LinesUpTo(fields, |fields|, show))| ==>
              NotGroupLine(OutputSection(outputs, LinesUpTo(fields, |fields|, show))[i])
  {
    LinesUpToSpec(fields, |fields|, show);
    var lines := LinesUpTo(fields, |fields|, show);
    forall i | 0 <= i < |lines|
      ensures NotGroupLine(lines[i])
    {
      assert lines[i] == "  - " + fields[i].0 + ": " + Render(DictGet(fields[i].1, "value", Null), show);
    }
  }

  lemma TailNotGroup(state: Value, link: Option<string>, show: Value -> string)
    ensures forall i :: 0 <= i < |TailLines(state, link, show)| ==> NotGroupLine(TailLines(state, link, show)[i])
  {
    if link.Some? {
      assert LinkLine(link.value)[0] == '[';
    }
  }

  /** A successful summary has one line for the header, one for a truthy resource group, one
      for "Outputs:" and one per output when the outputs are truthy, one for a truthy
      provisioning state and one for the portal link when there is one. */
  lemma SuccessLineCount(res: Record, show: Value -> string)
    requires "deployment_result" in res && SuccessLines(res, show).Ok?
    ensures var props := DictGet(res["deployment_result"], "properties", Obj([]));
      var outputs := DictGet(props, "outputs", Null);
      var fields := OutputFields(outputs);
      |SuccessLines(res, show).value|
        == 1 + (if Truthy(Get(res, "resource_group_name")) then 1 else 0)
             + (if Truthy(outputs) then 1 + |fields| else 0)
             + (if Truthy(DictGet(props, "provisioningState", Null)) then 1 else 0)
             + (if LastLink(fields).Some? then 1 else 0)
  {
    var props := DictGet(res["deployment_result"], "properties", Obj([]));
    var fields := OutputFields(DictGet(props, "outputs", Null));
    assert FirstNonDict(fields) == |fields|;
    LinesUpToSpec(fields, |fields|, show);
  }

  /** A successful summary holds every output, each a dict: after the header comes
      "Outputs:" and then exactly the output lines, in iteration order. */
  lemma SuccessOutputs(res: Record, show: Value -> string)
    requires "deployment_result" in res && SuccessLines(res, show).Ok?
    ensures var lines := SuccessLines(res, show).value;
      var h := |HeadLines(Get(res, "resource_group_name"), show)|;
      var outputs := DictGet(DictGet(res["deployment_result"], "properties", Obj([])), "outputs", Null);
      var fields := OutputFields(outputs);
      && (forall i :: 0 <= i < |fields| ==> fields[i].1.Obj?)
      && (Truthy(outputs) ==>
            && |lines| > h + |fields|
            && lines[h] == "Outputs:"
            && lines[h + 1..h + 1 + |fields|] == OutputLines(fields, show).value)
  {
    var props := DictGet(res["deployment_result"], "properties", Obj([]));
    var outputs := DictGet(props, "outputs", Null);
    var fields := OutputFields(outputs);
    assert OutputLines(fields, show).Ok?;
    if Truthy(outputs) {
      var head := HeadLines(Get(res, "resource_group_name"), show);
      var tail := TailLines(DictGet(props, "provisioningState", Null), LastLink(fields), show);
      var body := OutputLines(fields, show).value;
      assert SuccessLines(res, show).value == head + (["Outputs:"] + body) + tail;
      LinesUpToSpec(fields, |fields|, show);
      MiddleSlice(head, ["Outputs:"], body, tail);
    }
  }

  lemma MiddleSlice(a: seq<string>, b: seq<string>, c: seq<string>, d: seq<string>)
    ensures (a + (b + c) + d)[|a| + |b|..|a| + |b| + |c|] == c
  {
    assert a + (b + c) + d == (a + b) + c + d;
  }

  /** A successful summary ends with the portal link whenever there is one. */
  lemma PortalLinkIsLastLine(res: Record, show: Value -> string)
    requires "deployment_result" in res && SuccessLines(res, show).Ok?
    requires LastLink(OutputFields(DictGet(DictGet(res["deployment_result"], "properties", Obj([])), "outputs", Null))).Some?
    ensures var lines := SuccessLines(res, show).value;
      var fields := OutputFields(DictGet(DictGet(res["deployment_result"], "properties", Obj([])), "outputs", Null));
      lines[|lines| - 1] == LinkLine(LastLink(fields).value)
  {
    var props := DictGet(res["deployment_result"], "properties", Obj([]));
    var fields := OutputFields(DictGet(props, "outputs", Null));
    var link := LastLink(fields);
    var tail := TailLines(DictGet(props, "provisioningState", Null), link, show);
    assert tail[|tail| - 1] == LinkLine(link.value);
    var front := HeadLines(Get(res, "resource_group_name"), show)
                 + OutputSection(DictGet(props, "outputs", Null), OutputLines(fields, show).value);
    assert SuccessLines(res, show).value == front + tail;
  }

  /** The provisioning state, when truthy, is the last line, or the one before the portal link
      when there is a link. */
  lemma ProvisioningStateBeforeLink(res: Record, show: Value -> string)
    requires "deployment_result" in res && SuccessLines(res, show).Ok?
    requires Truthy(DictGet(DictGet(res["deployment_result"], "properties", Obj([])), "provisioningState", Null))
    ensures var lines := SuccessLines(res, show).value;
      var props := DictGet(res["deployment_result"], "properties", Obj([]));
      var n := if LastLink(OutputFields(DictGet(props, "outputs", Null))).Some? then 2 else 1;
      && |lines| >= n + 1
      && lines[|lines| - n] == StateLine(DictGet(props, "provisioningState", Null), show)
  {
    var props := DictGet(res["deployment_result"], "properties", Obj([]));
    var fields := OutputFields(DictGet(props, "outputs", Null));
    var link := LastLink(fields);
    var state := DictGet(props, "provisioningState", Null);
    var tail := TailLines(state, link, show);
    var n := if link.Some? then 2 else 1;
    assert |tail| == n && tail[0] == StateLine(state, show);
    var front := HeadLines(Get(res, "resource_group_name"), show)
                 + OutputSection(DictGet(props, "outputs", Null), OutputLines(fields, show).value);
    assert SuccessLines(res, show).value == front + tail;
    assert |front| >= 1;
  }

  /** When no line holds a newline, the summary splits back into exactly its lines. */
  lemma SummarySplitsIntoLines(res: Record, show: Value -> string)
    requires "deployment_error" !in res && "deployment_result" in res && SuccessLines(res, show).Ok?
    requires var lines := SuccessLines(res, show).value;
      forall i :: 0 <= i < |lines| ==> '\n' !in lines[i]
    ensures Split(Summary(res, show).value, '\n') == SuccessLines(res, show).value
  {
    SplitJoin(SuccessLines(res, show).value, '\n');
  }
}
