/**
 * The request phase (lib/plugins/qwen-transformer.js:7-54): redefine the search tool
 * under its canonical name and append a usage reminder to the system prompt.
 */
module RequestRewriter {
  import opened Wrappers
  import opened Json
  import opened ToolNames

  const ToolDescription: string := "Search the web for real-time information using Qwen's search engine."
  const QueryDescription: string := "The search query to look up on the web."
  const SystemReminder: string :=
    "\n[System Reminder]: You have access to a `web_search` tool. Use it if you need real-time information from the web. If you decide to search, call the `web_search` tool."

  /** The fixed parameter schema: one required string property `query`. */
  function SearchParameters(): Json
  {
    JObj(map[
      "type" := JStr("object"),
      "properties" := JObj(map["query" := JObj(map["type" := JStr("string"), "description" := JStr(QueryDescription)])]),
      "required" := JArr([JStr("query")])
    ])
  }

  /** A tool whose `function` carries the canonical name, the fixed description and the fixed schema. */
  predicate IsCanonicalSearchTool(t: Json)
  {
    && t.JObj?
    && "function" in t.fields
    && t.fields["function"].JObj?
    && var f := t.fields["function"].fields;
    && "name" in f && f["name"] == JStr(CanonicalName)
    && "description" in f && f["description"] == JStr(ToolDescription)
    && "parameters" in f && f["parameters"] == SearchParameters()
  }

  /**
   * The callback of `req.tools.map` (lib/plugins/qwen-transformer.js:10-33). A tool naming
   * the search tool by either alias is copied with its `function` redefined; every other
   * field of the tool and of its `function` is kept. Any other tool is returned as it is,
   * and a `null` tool throws when its `function` is read.
   */
  function RewriteTool(tool: Json): (r: Completion<Json>)
    ensures r.Throw? <==> tool.JNull?
    ensures r.Normal? && !NamesSearchTool(tool) ==> r.value == tool
    ensures r.Normal? && NamesSearchTool(tool) ==>
      && IsCanonicalSearchTool(r.value)
      && r.value.fields.Keys == tool.fields.Keys
      && (forall k :: k in tool.fields && k != "function" ==> r.value.fields[k] == tool.fields[k])
      && r.value.fields["function"].fields.Keys == tool.fields["function"].fields.Keys + {"description", "parameters"}
      && (forall k :: k in tool.fields["function"].fields && k !in {"name", "description", "parameters"} ==>
            r.value.fields["function"].fields[k] == tool.fields["function"].fields[k])
  {
    if tool.JNull? then Throw
    else if NamesSearchTool(tool) then
      var f := tool.fields["function"].fields;
      Normal(JObj(tool.fields["function" := JObj(f[
        "name" := JStr(CanonicalName)][
        "description" := JStr(ToolDescription)][
        "parameters" := SearchParameters()])]))
    else Normal(tool)
  }

  /** `req.tools.map(...)` over an array of tools. */
  function RewriteTools(tools: seq<Json>): (r: Completion<seq<Json>>)
    ensures r.Throw? <==> exists i :: 0 <= i < |tools| && tools[i].JNull?
    ensures r.Normal? ==> |r.value| == |tools|
    ensures r.Normal? ==> forall i :: 0 <= i < |tools| ==> RewriteTool(tools[i]) == Normal(r.value[i])
  {
    MapCompletion(RewriteTool, tools)
  }

  /** A rewritten tool is left alone by a second rewrite. */
  lemma RewriteToolIdempotent(tool: Json)
    requires RewriteTool(tool).Normal?
    ensures RewriteTool(RewriteTool(tool).value) == RewriteTool(tool)
  {
    var t := RewriteTool(tool).value;
    if NamesSearchTool(tool) {
      assert NamesSearchTool(t);
      var f := t.fields["function"].fields;
      assert f["name" := JStr(CanonicalName)]["description" := JStr(ToolDescription)]["parameters" := SearchParameters()] == f;
      assert t.fields["function" := JObj(f)] == t.fields;
    }
  }

  /**
   * Rewriting an already rewritten tools list gives the same list: the canonical name is
   * itself an accepted alias and the redefinition is fixed.
   */
  lemma RewriteToolsIdempotent(tools: seq<Json>)
    requires RewriteTools(tools).Normal?
    ensures RewriteTools(RewriteTools(tools).value) == RewriteTools(tools)
  {
    var once := RewriteTools(tools).value;
    forall i | 0 <= i < |once| ensures RewriteTool(once[i]) == Normal(once[i]) {
      RewriteToolIdempotent(tools[i]);
    }
    MapCompletionExactly(RewriteTool, once, once);
  }

  /** The content block appended to an array-shaped system prompt. */
  function ReminderBlock(): Json
  {
    JObj(map["type" := JStr("text"), "text" := JStr(SystemReminder)])
  }

  /**
   * Whether `req.system.text += ...` (lib/plugins/qwen-transformer.js:49) throws: the text is
   * converted to a string, which fails on an object owning a `toString` member.
   */
  predicate SystemCoercionThrows(system: Json)
  {
    system.JObj? && "text" in system.fields && Truthy(system.fields["text"])
    && HasOwnToString(system.fields["text"])
  }

  /**
   * The value `req.system` holds after lib/plugins/qwen-transformer.js:39-51, one case per
   * shape: arrays are recognised before objects, and `null` is not an object here.
   */
  function AugmentSystem(system: Json): (r: Completion<Json>)
    ensures r.Throw? <==> SystemCoercionThrows(system)
    ensures system.JArr? ==>
      && r.Normal? && r.value.JArr? && |r.value.items| == |system.items| + 1
      && r.value.items[..|system.items|] == system.items
      && r.value.items[|system.items|] == ReminderBlock()
    ensures system.JStr? ==>
      && r.Normal? && r.value.JStr? && |r.value.s| == |system.s| + |SystemReminder|
      && r.value.s[..|system.s|] == system.s
      && r.value.s[|system.s|..] == SystemReminder
    ensures r.Normal? && system.JObj? && "text" in system.fields && Truthy(system.fields["text"]) ==>
      && r.value.JObj? && r.value.fields.Keys == system.fields.Keys
      && (forall k :: k in system.fields && k != "text" ==> r.value.fields[k] == system.fields[k])
      && r.value.fields["text"].JStr?
      && r.value.fields["text"].s == ToJsString(system.fields["text"]).value + SystemReminder
    ensures system.JObj? && "text" in system.fields && system.fields["text"].JStr? && system.fields["text"].s != "" ==>
      && var t := system.fields["text"].s;
      && r.Normal?
      && r.value.fields["text"].s[..|t|] == t
      && r.value.fields["text"].s[|t|..] == SystemReminder
    ensures !system.JArr? && !system.JStr? && !(system.JObj? && "text" in system.fields && Truthy(system.fields["text"])) ==>
      r == Normal(system)
  {
    match system
    case JArr(blocks) => Normal(JArr(blocks + [ReminderBlock()]))
    case JStr(s) => Normal(JStr(s + SystemReminder))
    case JObj(m) =>
      if "text" in m && Truthy(m["text"]) then
        match ToJsString(m["text"])
        case Throw => Throw
        case Normal(t) => Normal(JObj(m["text" := JStr(t + SystemReminder)]))
      else Normal(system)
    case _ => Normal(system)
  }

  /** Whether `req.tools` is an array holding a `null`, on which the mapping at lines 10-33 throws. */
  predicate ToolsHoldNull(req: map<string, Json>)
  {
    "tools" in req && req["tools"].JArr? && exists i :: 0 <= i < |req["tools"].items| && req["tools"].items[i].JNull?
  }

  /**
   * The first step of the request phase (lib/plugins/qwen-transformer.js:9-34): an array of
   * tools is mapped element by element and reassigned; anything else is left alone.
   */
  function RewriteToolsField(req: map<string, Json>): (r: Completion<map<string, Json>>)
    ensures r.Throw? <==> ToolsHoldNull(req)
    ensures r.Normal? ==> r.value.Keys == req.Keys
    ensures r.Normal? ==> forall k :: k in req && k != "tools" ==> r.value[k] == req[k]
    ensures r.Normal? && "tools" in req && !req["tools"].JArr? ==> r.value["tools"] == req["tools"]
    ensures r.Normal? && "tools" in req && req["tools"].JArr? ==>
      && r.value["tools"].JArr?
      && |r.value["tools"].items| == |req["tools"].items|
      && forall i :: 0 <= i < |req["tools"].items| ==> RewriteTool(req["tools"].items[i]) == Normal(r.value["tools"].items[i])
  {
    if "tools" in req && req["tools"].JArr? then
      match RewriteTools(req["tools"].items)
      case Throw => Throw
      case Normal(ts) => Normal(req["tools" := JArr(ts)])
    else Normal(req)
  }

  /**
   * The whole request phase on the request's fields. It throws when the tools array holds a
   * `null` or when the system text cannot be converted to a string; otherwise it keeps every
   * field, leaves a non-array `tools` alone, maps an array of tools element by element, and
   * augments `system`.
   */
  function RewriteRequest(req: map<string, Json>): (r: Completion<map<string, Json>>)
    ensures r.Throw? <==> ToolsHoldNull(req) || ("system" in req && SystemCoercionThrows(req["system"]))
    ensures r.Normal? ==> r.value.Keys == req.Keys
    ensures r.Normal? ==> forall k :: k in req && k !in {"tools", "system"} ==> r.value[k] == req[k]
    ensures r.Normal? && "tools" in req && !req["tools"].JArr? ==> r.value["tools"] == req["tools"]
    ensures r.Normal? && "tools" in req && req["tools"].JArr? ==>
      && r.value["tools"].JArr?
      && |r.value["tools"].items| == |req["tools"].items|
      && forall i :: 0 <= i < |req["tools"].items| ==> RewriteTool(req["tools"].items[i]) == Normal(r.value["tools"].items[i])
    ensures r.Normal? && "system" in req ==> r.value["system"] == AugmentSystem(req["system"]).value
  {
    match RewriteToolsField(req)
    case Throw => Throw
    case Normal(m) =>
      if "system" in m then
        match AugmentSystem(m["system"])
        case Throw => Throw
        case Normal(system) => Normal(m["system" := system])
      else Normal(m)
  }

  /** The request object the surrounding proxy hands to the adapter; its fields are updated in place. */
  class Request {
    var fields: map<string, Json>

    constructor (fields: map<string, Json>)
      ensures this.fields == fields
    {
      this.fields := fields;
    }
  }

  /**
   * `transformRequestIn` (lib/plugins/qwen-transformer.js:7-54): rewrites `req` in place and
   * resolves to it. It rejects with the `TypeError` a `null` tool raises before anything
   * changed, or with the one the system text raises after the tools were already reassigned.
   */
  method TransformRequestIn(req: Request) returns (r: Completion<Request>)
    modifies req
    ensures RewriteRequest(old(req.fields)).Normal? ==>
      r == Normal(req) && req.fields == RewriteRequest(old(req.fields)).value
    ensures RewriteToolsField(old(req.fields)).Throw? ==> r.Throw? && req.fields == old(req.fields)
    ensures RewriteToolsField(old(req.fields)).Normal? && RewriteRequest(old(req.fields)).Throw? ==>
      r.Throw? && req.fields == RewriteToolsField(old(req.fields)).value
  {
    if "tools" in req.fields && req.fields["tools"].JArr? {
      var tools := RewriteTools(req.fields["tools"].items);
      if tools.Throw? {
        return Throw;
      }
      req.fields := req.fields["tools" := JArr(tools.value)];
    }
    if "system" in req.fields {
      match req.fields["system"]
      case JArr(blocks) =>
        req.fields := req.fields["system" := JArr(blocks + [ReminderBlock()])];
      case JStr(s) =>
        req.fields := req.fields["system" := JStr(s + SystemReminder)];
      case JObj(m) =>
        if "text" in m && Truthy(m["text"]) {
          var text := ToJsString(m["text"]);
          if text.Throw? {
            return Throw;
          }
          req.fields := req.fields["system" := JObj(m["text" := JStr(text.value + SystemReminder)])];
        }
      case _ =>
    }
    r := Normal(req);
  }
}
