/**
 * The search tool's names and the tool-call renaming shared by the JSON and the
 * streaming response paths (lib/plugins/qwen-transformer.js:64-72 and :121-126).
 */
module ToolNames {
  import opened Wrappers
  import opened Json

  /** The name the backend and the client agree on. */
  const CanonicalName: string := "web_search"
  /** The other spelling the adapter accepts. */
  const LegacyName: string := "WebSearch"

  /** `name === "web_search" || name === "WebSearch"`: exact, case-sensitive. */
  predicate IsAliasName(name: Json)
  {
    name == JStr(CanonicalName) || name == JStr(LegacyName)
  }

  /** `x.function && (x.function.name === "web_search" || x.function.name === "WebSearch")` on a non-null `x`. */
  predicate NamesSearchTool(x: Json)
  {
    && x.JObj?
    && "function" in x.fields
    && x.fields["function"].JObj?
    && "name" in x.fields["function"].fields
    && IsAliasName(x.fields["function"].fields["name"])
  }

  /** The name under `function`, when there is one. */
  function FunctionName(x: Json): Option<Json>
  {
    OptMember(Member(x, "function"), "name")
  }

  /**
   * One tool call: a call naming the search tool by either alias gets the canonical
   * name and keeps everything else; a `null` entry throws a `TypeError`.
   */
  function RenameCall(tc: Json): (r: Completion<Json>)
    ensures r.Throw? <==> tc.JNull?
    ensures r.Normal? && NamesSearchTool(tc) ==>
      && r.value.JObj? && r.value.fields.Keys == tc.fields.Keys
      && (forall k :: k in tc.fields && k != "function" ==> r.value.fields[k] == tc.fields[k])
      && r.value.fields["function"].JObj?
      && r.value.fields["function"].fields.Keys == tc.fields["function"].fields.Keys
      && r.value.fields["function"].fields["name"] == JStr(CanonicalName)
      && (forall k :: k in tc.fields["function"].fields && k != "name" ==>
            r.value.fields["function"].fields[k] == tc.fields["function"].fields[k])
    ensures r.Normal? && !NamesSearchTool(tc) ==> r.value == tc
    ensures r.Normal? ==> FunctionName(r.value) != Some(JStr(LegacyName))
  {
    if tc.JNull? then Throw
    else if NamesSearchTool(tc) then
      var f := tc.fields["function"];
      Normal(JObj(tc.fields["function" := JObj(f.fields["name" := JStr(CanonicalName)])]))
    else Normal(tc)
  }

  /** Renaming a tool call a second time changes nothing. */
  lemma RenameCallIdempotent(tc: Json)
    requires RenameCall(tc).Normal?
    ensures RenameCall(RenameCall(tc).value) == RenameCall(tc)
  {
    var r := RenameCall(tc).value;
    if NamesSearchTool(tc) {
      assert NamesSearchTool(r);
      var f := r.fields["function"];
      assert f.fields["name" := JStr(CanonicalName)] == f.fields;
      assert r.fields["function" := JObj(f.fields)] == r.fields;
    }
  }

  /** `data.choices?.[0]?.<step>?.tool_calls` on a non-null `data`; `step` is "message" or "delta". */
  function ToolCallsAt(data: Json, step: string): Option<Json>
  {
    OptMember(OptMember(OptIndex0(Member(data, "choices")), step), "tool_calls")
  }

  /** `data.choices[0].<step>.tool_calls = v` where that path exists. */
  function PutToolCalls(data: Json, step: string, v: Json): (r: Json)
    requires ToolCallsAt(data, step).Some?
  {
    var choices := data.fields["choices"];
    var first := Index0(choices).value;
    var holder := first.fields[step];
    SetMember(data, "choices", SetIndex0(choices, SetMember(first, step, SetMember(holder, "tool_calls", v))))
  }

  /** Reading the path back after writing it gives what was written. */
  lemma PutThenGet(data: Json, step: string, v: Json)
    requires ToolCallsAt(data, step).Some?
    ensures ToolCallsAt(PutToolCalls(data, step, v), step) == Some(v)
  {
  }

  /** Writing back the value already there changes nothing. */
  lemma GetThenPut(data: Json, step: string)
    requires ToolCallsAt(data, step).Some?
    ensures PutToolCalls(data, step, ToolCallsAt(data, step).value) == data
  {
    var choices := data.fields["choices"];
    var first := Index0(choices).value;
    var holder := first.fields[step];
    assert SetMember(holder, "tool_calls", holder.fields["tool_calls"]) == holder;
    assert SetMember(first, step, holder) == first;
    match choices
    case JArr(items) =>
      assert [first] + items[1..] == items;
    case JObj(m) =>
      assert m["0" := first] == m;
  }

  /** A second write to the path replaces the first: nothing else is touched by either. */
  lemma PutThenPut(data: Json, step: string, v: Json, w: Json)
    requires ToolCallsAt(data, step).Some?
    ensures ToolCallsAt(PutToolCalls(data, step, v), step).Some?
    ensures PutToolCalls(PutToolCalls(data, step, v), step, w) == PutToolCalls(data, step, w)
  {
    var choices := data.fields["choices"];
    var first := Index0(choices).value;
    var holder := first.fields[step];
    var holder1 := SetMember(holder, "tool_calls", v);
    var first1 := SetMember(first, step, holder1);
    var choices1 := SetIndex0(choices, first1);
    var holder2 := SetMember(holder, "tool_calls", w);
    assert SetMember(holder1, "tool_calls", w) == holder2;
    assert SetMember(first1, step, holder2) == SetMember(first, step, holder2);
    match choices
    case JArr(items) =>
      assert choices1.items[1..] == items[1..];
      assert SetIndex0(choices1, SetMember(first, step, holder2)) == SetIndex0(choices, SetMember(first, step, holder2));
    case JObj(m) =>
      assert SetIndex0(choices1, SetMember(first, step, holder2)) == SetIndex0(choices, SetMember(first, step, holder2));
  }

  /**
   * The write to the path changes nothing else in the document: every other member of the
   * document, every other entry of `choices`, every other member of `choices[0]` and every
   * other member of `choices[0].<step>` keeps its value, and no member appears or disappears.
   */
  lemma PutToolCallsFrame(data: Json, step: string, v: Json)
    requires ToolCallsAt(data, step).Some?
    ensures var r := PutToolCalls(data, step, v);
      && r.JObj? && r.fields.Keys == data.fields.Keys
      && (forall k :: k in data.fields && k != "choices" ==> r.fields[k] == data.fields[k])
    ensures var choices := data.fields["choices"];
      var choices' := PutToolCalls(data, step, v).fields["choices"];
      && (choices.JArr? ==>
            && choices'.JArr? && |choices'.items| == |choices.items|
            && forall i :: 1 <= i < |choices.items| ==> choices'.items[i] == choices.items[i])
      && (choices.JObj? ==>
            && choices'.JObj? && choices'.fields.Keys == choices.fields.Keys
            && forall k :: k in choices.fields && k != "0" ==> choices'.fields[k] == choices.fields[k])
    ensures var first := Index0(data.fields["choices"]).value;
      var first' := Index0(PutToolCalls(data, step, v).fields["choices"]).value;
      && first'.JObj? && first'.fields.Keys == first.fields.Keys
      && (forall k :: k in first.fields && k != step ==> first'.fields[k] == first.fields[k])
    ensures var holder := Index0(data.fields["choices"]).value.fields[step];
      var holder' := Index0(PutToolCalls(data, step, v).fields["choices"]).value.fields[step];
      && holder'.JObj?
      && holder'.fields.Keys == holder.fields.Keys
      && (forall k :: k in holder.fields && k != "tool_calls" ==> holder'.fields[k] == holder.fields[k])
  {
  }

  /** Every call in a list is non-null and none is named `WebSearch`. */
  predicate NoLegacyNames(calls: seq<Json>)
  {
    forall i :: 0 <= i < |calls| ==> !calls[i].JNull? && FunctionName(calls[i]) != Some(JStr(LegacyName))
  }

  /**
   * The rename applied to `data.choices?.[0]?.<step>?.tool_calls`
   * (lib/plugins/qwen-transformer.js:64-72 with "message", :121-126 with "delta").
   * A `null` document, a truthy non-array list or a `null` entry throws.
   */
  function RenameToolCallsAt(data: Json, step: string): (r: Completion<Json>)
    ensures !data.JNull? && (ToolCallsAt(data, step).None? || !Truthy(ToolCallsAt(data, step).value)) ==>
      r == Normal(data)
  {
    if data.JNull? then Throw
    else
      match ToolCallsAt(data, step)
      case None => Normal(data)
      case Some(calls) =>
        if !Truthy(calls) then Normal(data)
        else if !calls.JArr? then Throw
        else
          match MapCompletion(RenameCall, calls.items)
          case Throw => Throw
          case Normal(renamed) => Normal(PutToolCalls(data, step, JArr(renamed)))
  }

  /** When the rename throws: exactly a `null` document, a truthy non-array list, or a `null` entry. */
  lemma RenameThrowsExactly(data: Json, step: string)
    ensures RenameToolCallsAt(data, step).Throw? <==>
      || data.JNull?
      || (!data.JNull? && ToolCallsAt(data, step).Some? && Truthy(ToolCallsAt(data, step).value) &&
          (!ToolCallsAt(data, step).value.JArr? ||
           exists i :: 0 <= i < |ToolCallsAt(data, step).value.items| && ToolCallsAt(data, step).value.items[i].JNull?))
  {
  }

  /**
   * After a successful rename, the list holds the same number of calls in the same
   * order, each renamed on its own, and none is left with the legacy name.
   */
  lemma RenamedCallsAreCanonical(data: Json, step: string)
    requires RenameToolCallsAt(data, step).Normal?
    requires ToolCallsAt(data, step).Some? && ToolCallsAt(data, step).value.JArr?
    ensures var calls := ToolCallsAt(data, step).value.items;
      && ToolCallsAt(RenameToolCallsAt(data, step).value, step).Some?
      && var out := ToolCallsAt(RenameToolCallsAt(data, step).value, step).value;
      && out.JArr? && |out.items| == |calls|
      && (forall i :: 0 <= i < |calls| ==> RenameCall(calls[i]) == Normal(out.items[i]))
      && NoLegacyNames(out.items)
  {
  }

  /** A document whose calls carry no legacy name comes out of the rename unchanged. */
  lemma RenameWithoutLegacyNamesIsIdentity(data: Json, step: string)
    requires !data.JNull?
    requires ToolCallsAt(data, step).Some? && ToolCallsAt(data, step).value.JArr?
    requires NoLegacyNames(ToolCallsAt(data, step).value.items)
    ensures RenameToolCallsAt(data, step) == Normal(data)
  {
    var calls := ToolCallsAt(data, step).value.items;
    forall i | 0 <= i < |calls| ensures RenameCall(calls[i]) == Normal(calls[i]) {
      RenameCallIdempotentOnCanonical(calls[i]);
    }
    MapCompletionExactly(RenameCall, calls, calls);
    GetThenPut(data, step);
  }

  /** A non-null call whose name is not the legacy one is a fixed point of the rename. */
  lemma RenameCallIdempotentOnCanonical(tc: Json)
    requires !tc.JNull? && FunctionName(tc) != Some(JStr(LegacyName))
    ensures RenameCall(tc) == Normal(tc)
  {
    if NamesSearchTool(tc) {
      var f := tc.fields["function"];
      assert f.fields["name"] == JStr(CanonicalName);
      assert f.fields["name" := JStr(CanonicalName)] == f.fields;
      assert tc.fields["function" := JObj(f.fields)] == tc.fields;
    }
  }

  /** Renaming a document twice gives the same document as renaming it once. */
  lemma RenameToolCallsIdempotent(data: Json, step: string)
    requires RenameToolCallsAt(data, step).Normal?
    ensures RenameToolCallsAt(RenameToolCallsAt(data, step).value, step) == RenameToolCallsAt(data, step)
  {
    var once := RenameToolCallsAt(data, step).value;
    if ToolCallsAt(data, step).Some? && Truthy(ToolCallsAt(data, step).value) {
      RenamedCallsAreCanonical(data, step);
      assert !once.JNull?;
      RenameWithoutLegacyNamesIsIdentity(once, step);
    }
  }
}
