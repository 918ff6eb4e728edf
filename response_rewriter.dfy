/**
 * The response phase (lib/plugins/qwen-transformer.js:56-153): dispatch on the content type,
 * rename tool calls in a JSON body, or hand an event stream to the line rewriter.
 */
module ResponseRewriter {
  import opened Wrappers
  import opened Json
  import opened JsStrings
  import opened ToolNames
  import opened EventStream

  /**
   * A response body: `null`, a stream nobody has read yet, or a stream already read by one of
   * the reading methods of `Response` (`json()`, `text()`, ...), which leaves it disturbed and
   * locked to the reader those methods took.
   */
  datatype Body = NoBody | Unread(stream: Stream) | Used

  /** A response: status, status text, headers (names lower-cased) and a body of decoded text. */
  datatype Response = Response(status: int, statusText: string, headers: map<string, string>, body: Body)

  /** `res.headers.get("Content-Type") || ""`: the header's value, or the empty string without one. */
  function ContentType(res: Response): (r: string)
    ensures "content-type" in res.headers ==> r == res.headers["content-type"]
    ensures "content-type" !in res.headers ==> r == ""
  {
    if "content-type" in res.headers then res.headers["content-type"] else ""
  }

  /** A new response carrying `body`, with the status, status text and headers of `res`. */
  function Rewrap(res: Response, body: Body): (r: Response)
    ensures r.status == res.status && r.statusText == res.statusText && r.headers == res.headers
    ensures r.body == body
  {
    Response(res.status, res.statusText, res.headers, body)
  }

  /**
   * The text `res.json()` hands to the parser: the empty string for a `null` body, the whole
   * stream once it closed; nothing when the stream fails or the body was already read.
   */
  function BodyText(body: Body): (r: Option<string>)
    ensures body.NoBody? ==> r == Some("")
    ensures body.Used? ==> r.None?
    ensures body.Unread? ==> (r.Some? <==> body.stream.end == Closed)
    ensures body.Unread? && r.Some? ==> r.value == Concat(body.stream.pieces)
  {
    match body
    case NoBody => Some("")
    case Unread(stream) => if stream.end == Closed then Some(Concat(stream.pieces)) else None
    case Used => None
  }

  /**
   * `res` itself once `res.json()` has run on it, whatever came of it: a body that was there
   * to read is now used; every other part is as it was.
   */
  function AfterRead(res: Response): (r: Response)
    ensures r.status == res.status && r.statusText == res.statusText && r.headers == res.headers
    ensures res.body.Unread? ==> r.body == Used
    ensures !res.body.Unread? ==> r == res
  {
    if res.body.Unread? then Rewrap(res, Used) else res
  }

  /**
   * The JSON path (lib/plugins/qwen-transformer.js:59-92): read and parse the whole body,
   * rename `choices[0].message.tool_calls`, and re-serialise the document, whether or not a
   * name changed. A body that fails to arrive or to parse, or a rename that throws, gives
   * back the original response, whose body the attempt has used up.
   */
  function RewriteJsonResponse(res: Response, parse: string -> Option<Json>, serialize: Json -> string): (r: Response)
    ensures r.status == res.status && r.statusText == res.statusText && r.headers == res.headers
    ensures BodyText(res.body).None? ==> r == AfterRead(res)
    ensures BodyText(res.body).Some? && parse(BodyText(res.body).value).None? ==> r == AfterRead(res)
    ensures BodyText(res.body).Some? && parse(BodyText(res.body).value).Some? ==>
      var doc := parse(BodyText(res.body).value).value;
      && (RenameToolCallsAt(doc, "message").Throw? ==> r == AfterRead(res))
      && (RenameToolCallsAt(doc, "message").Normal? ==>
            r.body == Unread(Stream([serialize(RenameToolCallsAt(doc, "message").value)], Closed)))
  {
    match BodyText(res.body)
    case None => AfterRead(res)
    case Some(text) =>
      match parse(text)
      case None => AfterRead(res)
      case Some(doc) =>
        match RenameToolCallsAt(doc, "message")
        case Throw => AfterRead(res)
        case Normal(renamed) => Rewrap(res, Unread(Stream([serialize(renamed)], Closed)))
  }

  /**
   * A JSON body without a legacy tool name is re-serialised as parsed: the new body is the
   * serialisation of the very document that was read.
   */
  lemma JsonBodyWithoutLegacyNames(res: Response, parse: string -> Option<Json>, serialize: Json -> string)
    requires BodyText(res.body).Some?
    requires parse(BodyText(res.body).value).Some?
    requires var doc := parse(BodyText(res.body).value).value;
      && !doc.JNull?
      && (ToolCallsAt(doc, "message").None? || !Truthy(ToolCallsAt(doc, "message").value) ||
          (ToolCallsAt(doc, "message").value.JArr? && NoLegacyNames(ToolCallsAt(doc, "message").value.items)))
    ensures RewriteJsonResponse(res, parse, serialize).body ==
      Unread(Stream([serialize(parse(BodyText(res.body).value).value)], Closed))
  {
    var doc := parse(BodyText(res.body).value).value;
    if ToolCallsAt(doc, "message").Some? && Truthy(ToolCallsAt(doc, "message").value) {
      RenameWithoutLegacyNamesIsIdentity(doc, "message");
    }
  }

  /**
   * After the JSON path, the serialised document has every call of its message tool-call
   * list under a name other than the legacy one, call for call in the original order.
   */
  lemma JsonBodyCallsCanonical(res: Response, parse: string -> Option<Json>, serialize: Json -> string, doc: Json, calls: seq<Json>)
    requires BodyText(res.body).Some? && parse(BodyText(res.body).value) == Some(doc)
    requires ToolCallsAt(doc, "message") == Some(JArr(calls))
    requires forall i :: 0 <= i < |calls| ==> !calls[i].JNull?
    ensures RenameToolCallsAt(doc, "message").Normal?
    ensures var renamed := RenameToolCallsAt(doc, "message").value;
      && RewriteJsonResponse(res, parse, serialize).body == Unread(Stream([serialize(renamed)], Closed))
      && ToolCallsAt(renamed, "message").Some? && ToolCallsAt(renamed, "message").value.JArr?
      && |ToolCallsAt(renamed, "message").value.items| == |calls|
      && NoLegacyNames(ToolCallsAt(renamed, "message").value.items)
  {
    RenameThrowsExactly(doc, "message");
    RenamedCallsAreCanonical(doc, "message");
  }

  /**
   * `transformResponseOut` (lib/plugins/qwen-transformer.js:56-153). A JSON content type is
   * checked first; an event stream goes through the line rewriter; any other response is
   * returned untouched. On the stream path `res.body.getReader()` throws, and the promise
   * rejects, when the body is `null` or already read. Status, status text and headers are
   * always those of `res`.
   */
  method TransformResponseOut(res: Response, parse: string -> Option<Json>, serialize: Json -> string)
    returns (r: Completion<Response>)
    ensures r.Normal? ==> r.value.status == res.status && r.value.statusText == res.statusText && r.value.headers == res.headers
    ensures Contains(ContentType(res), "application/json") ==> r == Normal(RewriteJsonResponse(res, parse, serialize))
    ensures !Contains(ContentType(res), "application/json") && Contains(ContentType(res), "text/event-stream") ==>
      && (r.Throw? <==> !res.body.Unread?)
      && (res.body.Unread? ==>
            r.Normal? && r.value.body == Unread(Stream(StreamOutput(Concat(res.body.stream.pieces), parse, serialize), res.body.stream.end)))
    ensures !Contains(ContentType(res), "application/json") && !Contains(ContentType(res), "text/event-stream") ==>
      r == Normal(res)
  {
    var contentType := ContentType(res);
    if Contains(contentType, "application/json") {
      r := Normal(RewriteJsonResponse(res, parse, serialize));
      return;
    }
    if Contains(contentType, "text/event-stream") {
      if !res.body.Unread? {
        return Throw;
      }
      var body := TransformStream(res.body.stream, parse, serialize);
      r := Normal(Rewrap(res, Unread(body)));
      return;
    }
    r := Normal(res);
  }
}
