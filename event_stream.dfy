/**
 * The streaming path of the response phase (lib/plugins/qwen-transformer.js:95-150): decoded
 * text arrives in chunks, is cut into lines at "\n", and every complete line is either
 * re-emitted verbatim or, for a `data: ` line carrying a delta tool-call list, rewritten.
 */
module EventStream {
  import opened Wrappers
  import opened Json
  import opened JsStrings
  import opened ToolNames

  const DataPrefix: string := "data: "
  const DoneSentinel: string := "[DONE]"

  /** How a body stream ended: closed normally, or failed. */
  datatype End = Closed | Errored

  /** A body: the text pieces delivered, in order, then how the stream ended. */
  datatype Stream = Stream(pieces: seq<string>, end: End)

  /** All chunks of a stream, joined. */
  function Concat(chunks: seq<string>): string
  {
    if chunks == [] then "" else Concat(chunks[..|chunks| - 1]) + chunks[|chunks| - 1]
  }

  /** None of the lines holds a line feed. */
  predicate NoNewlines(lines: seq<string>)
  {
    forall i :: 0 <= i < |lines| ==> '\n' !in lines[i]
  }

  /** Each line followed by "\n". */
  function Terminated(lines: seq<string>): string
  {
    if lines == [] then "" else lines[0] + "\n" + Terminated(lines[1..])
  }

  /** Terminating the lines of two lists one after the other is terminating their concatenation. */
  lemma {:induction false} TerminatedAppend(a: seq<string>, b: seq<string>)
    ensures Terminated(a + b) == Terminated(a) + Terminated(b)
    decreases |a|
  {
    if a == [] {
      assert a + b == b;
    } else {
      assert (a + b)[0] == a[0];
      assert (a + b)[1..] == a[1..] + b;
      TerminatedAppend(a[1..], b);
    }
  }

  /**
   * `s.split("\n")`: never empty, no part holds a line feed, and the parts joined
   * back with "\n" give `s`.
   */
  function Split(s: string): (parts: seq<string>)
    ensures |parts| >= 1
    ensures NoNewlines(parts)
    ensures Terminated(parts[..|parts| - 1]) + parts[|parts| - 1] == s
    decreases |s|
  {
    if s == [] then [""]
    else
      var rest := Split(s[1..]);
      if s[0] == '\n' then
        var parts := [""] + rest;
        assert parts[..|parts| - 1] == [""] + rest[..|rest| - 1];
        assert parts[|parts| - 1] == rest[|rest| - 1];
        assert s == "\n" + s[1..];
        parts
      else
        var parts := [[s[0]] + rest[0]] + rest[1..];
        assert '\n' !in parts[0];
        assert forall i :: 1 <= i < |parts| ==> parts[i] == rest[i];
        PrependToFirstPart(s[0], rest);
        assert s == [s[0]] + s[1..];
        parts
  }

  /** Putting a character in front of the first part puts it in front of the joined text. */
  lemma {:induction false} PrependToFirstPart(c: char, rest: seq<string>)
    requires |rest| >= 1
    ensures var parts := [[c] + rest[0]] + rest[1..];
      Terminated(parts[..|parts| - 1]) + parts[|parts| - 1] ==
      [c] + (Terminated(rest[..|rest| - 1]) + rest[|rest| - 1])
  {
    var parts := [[c] + rest[0]] + rest[1..];
    if |rest| == 1 {
      assert parts[..|parts| - 1] == [] && rest[..|rest| - 1] == [];
    } else {
      var middle := rest[1..|rest| - 1];
      var init := parts[..|parts| - 1];
      assert init[0] == [c] + rest[0] && init[1..] == middle;
      assert rest[..|rest| - 1][0] == rest[0] && rest[..|rest| - 1][1..] == middle;
    }
  }

  /** Splitting a line with its line feed in front of some text peels that line off. */
  lemma {:induction false} SplitLine(line: string, rest: string)
    requires '\n' !in line
    ensures Split(line + "\n" + rest) == [line] + Split(rest)
    decreases |line|
  {
    var s := line + "\n" + rest;
    if line != [] {
      assert s[1..] == line[1..] + "\n" + rest;
      SplitLine(line[1..], rest);
      assert [line[0]] + line[1..] == line;
    } else {
      assert s[1..] == rest;
    }
  }

  /** Text without a line feed splits into itself. */
  lemma {:induction false} SplitFragment(s: string)
    requires '\n' !in s
    ensures Split(s) == [s]
    decreases |s|
  {
    if s != [] {
      SplitFragment(s[1..]);
      assert [s[0]] + s[1..] == s;
    }
  }

  /**
   * Splitting undoes joining: the lines and the trailing fragment are recovered from the
   * text alone, whatever the pieces it was assembled from.
   */
  lemma {:induction false} SplitTerminated(lines: seq<string>, fragment: string)
    requires NoNewlines(lines) && '\n' !in fragment
    ensures Split(Terminated(lines) + fragment) == lines + [fragment]
    decreases |lines|
  {
    if lines == [] {
      SplitFragment(fragment);
    } else {
      assert Terminated(lines) + fragment == lines[0] + "\n" + (Terminated(lines[1..]) + fragment);
      SplitLine(lines[0], Terminated(lines[1..]) + fragment);
      SplitTerminated(lines[1..], fragment);
      assert lines == [lines[0]] + lines[1..];
    }
  }

  /** The complete lines of `s`: everything before its last line feed, cut at line feeds. */
  function CompleteLines(s: string): seq<string>
  {
    Split(s)[..|Split(s)| - 1]
  }

  /** What follows the last line feed of `s`: the part kept in the buffer. */
  function Pending(s: string): string
  {
    Split(s)[|Split(s)| - 1]
  }

  /** The complete lines and the pending fragment of `s` hold no line feed and rebuild `s`. */
  lemma SplitParts(s: string)
    ensures NoNewlines(CompleteLines(s)) && '\n' !in Pending(s)
    ensures Terminated(CompleteLines(s)) + Pending(s) == s
  {
  }

  /** Two lists of lines without line feeds concatenate to one. */
  lemma NoNewlinesAppend(a: seq<string>, b: seq<string>)
    requires NoNewlines(a) && NoNewlines(b)
    ensures NoNewlines(a + b)
  {
  }

  /** Text rebuilt from lines and a fragment, extended by a chunk that re-splits the fragment, is rebuilt by all the lines. */
  lemma Reassemble(s: string, chunk: string, lines: seq<string>, frag: string, more: seq<string>, rest: string)
    requires s == Terminated(lines) + frag
    requires frag + chunk == Terminated(more) + rest
    ensures s + chunk == Terminated(lines + more) + rest
  {
    TerminatedAppend(lines, more);
    assert s + chunk == Terminated(lines) + (frag + chunk);
  }

  /**
   * The step one chunk makes: from lines and a fragment without line feeds, adding the
   * chunk to the fragment and splitting it yields lines and a fragment that again rebuild
   * all text received and are again what splitting that text gives.
   */
  lemma FeedPreservesSplit(lines: seq<string>, buffer: string, chunk: string)
    requires NoNewlines(lines) && '\n' !in buffer
    ensures NoNewlines(lines + CompleteLines(buffer + chunk)) && '\n' !in Pending(buffer + chunk)
    ensures Terminated(lines) + buffer + chunk == Terminated(lines + CompleteLines(buffer + chunk)) + Pending(buffer + chunk)
    ensures CompleteLines(Terminated(lines) + buffer + chunk) == lines + CompleteLines(buffer + chunk)
    ensures Pending(Terminated(lines) + buffer + chunk) == Pending(buffer + chunk)
  {
    var more, rest := CompleteLines(buffer + chunk), Pending(buffer + chunk);
    SplitParts(buffer + chunk);
    NoNewlinesAppend(lines, more);
    Reassemble(Terminated(lines) + buffer, chunk, lines, buffer, more, rest);
    SplitTerminated(lines + more, rest);
  }

  /**
   * Appending a chunk: the complete lines of the longer text are those of the shorter
   * text followed by those of its pending fragment plus the chunk, and the pending part
   * is that of the fragment plus the chunk. This is what lets the buffer carry only the fragment.
   */
  lemma CompleteLinesAppend(s: string, chunk: string)
    ensures CompleteLines(s + chunk) == CompleteLines(s) + CompleteLines(Pending(s) + chunk)
    ensures Pending(s + chunk) == Pending(Pending(s) + chunk)
  {
    var lines, frag := CompleteLines(s), Pending(s);
    var more, rest := CompleteLines(frag + chunk), Pending(frag + chunk);
    SplitParts(s);
    SplitParts(frag + chunk);
    NoNewlinesAppend(lines, more);
    Reassemble(s, chunk, lines, frag, more, rest);
    SplitTerminated(lines + more, rest);
  }

  /** Text that ends in a line feed followed by a fragment loses the fragment: only the lines before it are complete. */
  lemma TrailingFragmentDropped(lines: seq<string>, fragment: string)
    requires NoNewlines(lines) && '\n' !in fragment
    ensures CompleteLines(Terminated(lines) + fragment) == lines
    ensures Pending(Terminated(lines) + fragment) == fragment
  {
    SplitTerminated(lines, fragment);
  }

  /** A document carries a truthy `choices[0].delta.tool_calls` (lib/plugins/qwen-transformer.js:121). */
  predicate HasDeltaToolCalls(data: Json)
  {
    ToolCallsAt(data, "delta").Some? && Truthy(ToolCallsAt(data, "delta").value)
  }

  /**
   * The document a line is re-emitted with, or `None` when the line goes out verbatim
   * (lib/plugins/qwen-transformer.js:115-133): only a `data: ` line whose trimmed payload is
   * not the sentinel, parses, carries a delta tool-call list and renames without throwing.
   */
  function RewrittenPayload(line: string, parse: string -> Option<Json>): (r: Option<Json>)
    ensures !StartsWith(line, DataPrefix) ==> r.None?
    ensures StartsWith(line, DataPrefix) && Trim(line[|DataPrefix|..]) == DoneSentinel ==> r.None?
    ensures r.Some? ==>
      && parse(Trim(line[|DataPrefix|..])).Some?
      && var data := parse(Trim(line[|DataPrefix|..])).value;
      && HasDeltaToolCalls(data)
      && RenameToolCallsAt(data, "delta") == Normal(r.value)
      && ToolCallsAt(r.value, "delta").Some?
      && ToolCallsAt(r.value, "delta").value.JArr?
      && NoLegacyNames(ToolCallsAt(r.value, "delta").value.items)
    ensures (StartsWith(line, DataPrefix) && Trim(line[|DataPrefix|..]) != DoneSentinel &&
             parse(Trim(line[|DataPrefix|..])).Some? && HasDeltaToolCalls(parse(Trim(line[|DataPrefix|..])).value) &&
             r.None?) ==>
      RenameToolCallsAt(parse(Trim(line[|DataPrefix|..])).value, "delta").Throw?
  {
    if !StartsWith(line, DataPrefix) then None
    else
      var payload := Trim(line[|DataPrefix|..]);
      if payload == DoneSentinel then None
      else
        match parse(payload)
        case None => None
        case Some(data) =>
          if !HasDeltaToolCalls(data) then None
          else
            match RenameToolCallsAt(data, "delta")
            case Throw => None
            case Normal(renamed) =>
              RenameThrowsExactly(data, "delta");
              RenamedCallsAreCanonical(data, "delta");
              Some(renamed)
  }

  /**
   * What one complete line becomes: a rewritten line framed as `data: <json>` and two line
   * feeds (:127), or the original line with one line feed (:135).
   */
  function RewriteLine(line: string, parse: string -> Option<Json>, serialize: Json -> string): (out: string)
  {
    match RewrittenPayload(line, parse)
    case Some(data) => DataPrefix + serialize(data) + "\n\n"
    case None => line + "\n"
  }

  /**
   * The framing of an output piece: a line left alone is followed by exactly one line feed,
   * a rewritten one is a `data: ` line followed by two.
   */
  lemma LineFraming(line: string, parse: string -> Option<Json>, serialize: Json -> string)
    ensures var out := RewriteLine(line, parse, serialize);
      && |out| > 0 && out[|out| - 1] == '\n'
      && (RewrittenPayload(line, parse).None? ==> out[..|out| - 1] == line)
      && (RewrittenPayload(line, parse).Some? ==>
            StartsWith(out, DataPrefix) && |out| >= |DataPrefix| + 2 && out[|out| - 2..] == "\n\n")
  {
  }

  /** A sentinel line, however much whitespace surrounds its payload, goes out verbatim. */
  lemma DoneLineVerbatim(left: string, right: string, parse: string -> Option<Json>, serialize: Json -> string)
    requires forall i :: 0 <= i < |left| ==> IsJsWhitespace(left[i])
    requires forall i :: 0 <= i < |right| ==> IsJsWhitespace(right[i])
    ensures var line := DataPrefix + left + DoneSentinel + right;
      RewriteLine(line, parse, serialize) == line + "\n"
  {
    var line := DataPrefix + left + DoneSentinel + right;
    assert line[..|DataPrefix|] == DataPrefix;
    assert line[|DataPrefix|..] == left + DoneSentinel + right;
    TrimPadded(left, DoneSentinel, right);
  }

  /** Every complete line in order, each turned into its output piece. */
  function RewriteLines(lines: seq<string>, parse: string -> Option<Json>, serialize: Json -> string): (out: seq<string>)
    ensures |out| == |lines|
    ensures forall i :: 0 <= i < |lines| ==> out[i] == RewriteLine(lines[i], parse, serialize)
  {
    if lines == [] then [] else RewriteLines(lines[..|lines| - 1], parse, serialize) + [RewriteLine(lines[|lines| - 1], parse, serialize)]
  }

  /** The stream's whole output for the text received: one piece per complete line. */
  function StreamOutput(text: string, parse: string -> Option<Json>, serialize: Json -> string): seq<string>
  {
    RewriteLines(CompleteLines(text), parse, serialize)
  }

  /**
   * The state kept across reads (lib/plugins/qwen-transformer.js:99-137): the `buffer` holding
   * the unfinished last line, and the pieces enqueued so far. `received` and `lines` are the
   * proof's record of all text read and all complete lines handled.
   */
  class LineRewriter {
    const parse: string -> Option<Json>
    const serialize: Json -> string
    var buffer: string
    var output: seq<string>
    ghost var received: string
    ghost var lines: seq<string>

    ghost predicate Valid()
      reads this
    {
      && '\n' !in buffer
      && NoNewlines(lines)
      && received == Terminated(lines) + buffer
      && output == RewriteLines(lines, parse, serialize)
    }

    constructor (parse: string -> Option<Json>, serialize: Json -> string)
      ensures Valid()
      ensures this.parse == parse && this.serialize == serialize
      ensures received == "" && buffer == "" && output == []
    {
      this.parse := parse;
      this.serialize := serialize;
      buffer := "";
      output := [];
      received := "";
      lines := [];
    }

    /**
     * One decoded chunk (lib/plugins/qwen-transformer.js:108-136): append it to the buffer,
     * split at line feeds, keep the last part, emit every complete line in order. Afterwards
     * the lines handled and the buffer depend only on the text received, not on its chunking.
     */
    method Feed(chunk: string)
      requires Valid()
      modifies this
      ensures Valid()
      ensures received == old(received) + chunk
      ensures lines == CompleteLines(received) && buffer == Pending(received)
      ensures output == old(output) + RewriteLines(CompleteLines(old(buffer) + chunk), parse, serialize)
    {
      buffer := buffer + chunk;
      ghost var text := buffer;
      var parts := Split(buffer);
      buffer := parts[|parts| - 1];
      var complete := parts[..|parts| - 1];
      var i := 0;
      while i < |complete|
        invariant 0 <= i <= |complete|
        invariant output == old(output) + RewriteLines(complete[..i], parse, serialize)
        invariant buffer == parts[|parts| - 1] && lines == old(lines) && received == old(received)
      {
        assert complete[..i + 1][..i] == complete[..i];
        output := output + [RewriteLine(complete[i], parse, serialize)];
        i := i + 1;
      }
      assert complete[..i] == complete;
      assert complete == CompleteLines(text) && buffer == Pending(text);
      FeedPreservesSplit(lines, old(buffer), chunk);
      RewriteLinesAppend(lines, complete, parse, serialize);
      lines := lines + complete;
      received := received + chunk;
    }

    /**
     * End of input (lib/plugins/qwen-transformer.js:106, :138-140): the stream ends as the
     * upstream did, and the fragment still in the buffer is never emitted.
     */
    method Close(end: End) returns (s: Stream)
      requires Valid()
      ensures s.end == end
      ensures s.pieces == StreamOutput(received, parse, serialize)
      ensures s.pieces == RewriteLines(CompleteLines(received[..|received| - |buffer|]), parse, serialize)
    {
      SplitTerminated(lines, buffer);
      SplitTerminated(lines, "");
      assert received[..|received| - |buffer|] == Terminated(lines) + "";
      s := Stream(output, end);
    }
  }

  /** Rewriting two runs of lines one after the other gives the outputs of both, in order. */
  lemma {:induction false} RewriteLinesAppend(a: seq<string>, b: seq<string>, parse: string -> Option<Json>, serialize: Json -> string)
    ensures RewriteLines(a + b, parse, serialize) == RewriteLines(a, parse, serialize) + RewriteLines(b, parse, serialize)
  {
    var l, r := RewriteLines(a + b, parse, serialize), RewriteLines(a, parse, serialize) + RewriteLines(b, parse, serialize);
    assert |l| == |r|;
    forall i | 0 <= i < |l| ensures l[i] == r[i] {
      if i < |a| { assert (a + b)[i] == a[i]; } else { assert (a + b)[i] == b[i - |a|]; }
    }
  }

  /**
   * The read loop of lib/plugins/qwen-transformer.js:104-141 over a whole upstream body: the
   * output is one piece per complete line of the concatenated chunks, so it does not depend
   * on where the chunk boundaries fall, and it ends as the upstream ended.
   */
  method TransformStream(upstream: Stream, parse: string -> Option<Json>, serialize: Json -> string)
    returns (out: Stream)
    ensures out.pieces == StreamOutput(Concat(upstream.pieces), parse, serialize)
    ensures out.end == upstream.end
  {
    var rewriter := new LineRewriter(parse, serialize);
    var k := 0;
    while k < |upstream.pieces|
      invariant 0 <= k <= |upstream.pieces|
      invariant rewriter.Valid()
      invariant rewriter.parse == parse && rewriter.serialize == serialize
      invariant rewriter.received == Concat(upstream.pieces[..k])
    {
      assert upstream.pieces[..k + 1][..k] == upstream.pieces[..k];
      rewriter.Feed(upstream.pieces[k]);
      k := k + 1;
    }
    assert upstream.pieces[..k] == upstream.pieces;
    out := rewriter.Close(upstream.end);
  }
}
