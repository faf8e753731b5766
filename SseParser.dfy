/** The browser side of the chat stream (lib/createSSEParser.ts): a parser
    that keeps the unfinished tail of what has arrived in `buffer`, splits
    the rest into lines and turns each `data:` line into a stream message. */
module SseParser {
  import opened Wrappers
  import opened JsText
  import opened StreamProtocol

  const PARSE_FAILURE_TEXT: string := "Failed to parse SSE message"

  /** The message one complete line yields, if any: lines that do not start
      with the data prefix once trimmed give nothing, the done sentinel gives
      `Done`, a payload `JSON.parse` rejects gives an `Error`, and a parsed
      object is kept only when its `type` is a known message type. */
  function ClassifyLine(line: string, decode: string -> Decoded): (r: Option<StreamMessage>)
    ensures !StartsWith(Trim(line), SSE_DATA_PREFIX) ==> r.None?
    ensures Trim(line) == SSE_DATA_PREFIX + SSE_DONE_MESSAGE ==> r == Some(Done)
    ensures StartsWith(Trim(line), SSE_DATA_PREFIX) && Trim(line) != SSE_DATA_PREFIX + SSE_DONE_MESSAGE ==>
      var payload := Trim(line)[|SSE_DATA_PREFIX|..];
      && (decode(payload).Malformed? ==> r == Some(Error(PARSE_FAILURE_TEXT)))
      && (decode(payload).Parsed? ==> (r.Some? <==> IsKnownTypeName(decode(payload).typeField)))
      && (decode(payload).Parsed? && r.Some? ==> r.value == decode(payload).asMessage)
  {
    var trimmed := Trim(line);
    if !StartsWith(trimmed, SSE_DATA_PREFIX) then None
    else
      var data := trimmed[|SSE_DATA_PREFIX|..];
      assert trimmed == SSE_DATA_PREFIX + data;
      if data == SSE_DONE_MESSAGE then Some(Done)
      else match decode(data)
        case Malformed => Some(Error(PARSE_FAILURE_TEXT))
        case Parsed(typeField, message) => if IsKnownTypeName(typeField) then Some(message) else None
  }

  /** `lines.map(ClassifyLine).filter(m => m !== null)`. */
  function ClassifyLines(lines: seq<string>, decode: string -> Decoded): (r: seq<StreamMessage>)
    ensures |r| <= |lines|
  {
    if lines == [] then []
    else
      var last := ClassifyLine(lines[|lines| - 1], decode);
      ClassifyLines(lines[..|lines| - 1], decode) + (if last.Some? then [last.value] else [])
  }

  lemma {:induction false} ClassifyLinesAppend(xs: seq<string>, ys: seq<string>, decode: string -> Decoded)
    ensures ClassifyLines(xs + ys, decode) == ClassifyLines(xs, decode) + ClassifyLines(ys, decode)
    decreases |ys|
  {
    if ys == [] {
      assert xs + ys == xs;
    } else {
      var ys' := ys[..|ys| - 1];
      assert (xs + ys)[..|xs + ys| - 1] == xs + ys';
      assert (xs + ys)[|xs + ys| - 1] == ys[|ys| - 1];
      ClassifyLinesAppend(xs, ys', decode);
    }
  }

  datatype ParseResult = ParseResult(messages: seq<StreamMessage>, buffer: string)

  /** One call of `parse`: split `buffer + chunk` at line feeds, keep the
      last piece as the new buffer and classify the complete lines. */
  function ParseStep(buffer: string, chunk: string, decode: string -> Decoded): ParseResult {
    var lines := SplitLines(buffer + chunk);
    ParseResult(ClassifyLines(lines[..|lines| - 1], decode), lines[|lines| - 1])
  }

  /** The new buffer is the text after the last line feed of
      `buffer + chunk` (all of it when there is none, "" when the text ends
      in a line feed). */
  lemma BufferIsTextAfterLastNewline(buffer: string, chunk: string, decode: string -> Decoded)
    ensures var s, b := buffer + chunk, ParseStep(buffer, chunk, decode).buffer;
      && '\n' !in b && |b| <= |s| && b == s[|s| - |b|..]
      && (|b| < |s| ==> s[|s| - |b| - 1] == '\n')
  {
    var s := buffer + chunk;
    var lines := SplitLines(s);
    var b := lines[|lines| - 1];
    if |lines| > 1 {
      var init := lines[..|lines| - 1];
      assert lines == init + [b];
      JoinAppend(init, b, "\n");
      assert s == JoinWith(init, "\n") + "\n" + b;
      assert s[|s| - |b|..] == b;
    }
  }

  /** Output comes only from the complete lines (those followed by a line
      feed), at most one message per line: a chunk without a line feed
      yields nothing and only grows the buffer. */
  lemma OnlyCompleteLinesProduceOutput(buffer: string, chunk: string, decode: string -> Decoded)
    ensures var r := ParseStep(buffer, chunk, decode);
      |r.messages| <= |SplitLines(buffer + chunk)| - 1
    ensures '\n' !in buffer + chunk ==> ParseStep(buffer, chunk, decode) == ParseResult([], buffer + chunk)
  {
  }

  /** Feeding `a` and then `b` gives the same messages, in the same order,
      and the same buffer as feeding `a + b` at once. */
  lemma {:induction false} ChunkBoundaryIndependence(buffer: string, a: string, b: string, decode: string -> Decoded)
    ensures var r1 := ParseStep(buffer, a, decode);
      var r2 := ParseStep(r1.buffer, b, decode);
      ParseStep(buffer, a + b, decode) == ParseResult(r1.messages + r2.messages, r2.buffer)
  {
    var u := buffer + a;
    var su := SplitLines(u);
    var init1 := su[..|su| - 1];
    var sv := SplitLines(su[|su| - 1] + b);
    var init2 := sv[..|sv| - 1];
    SplitConcat(u, b);
    assert buffer + (a + b) == u + b;
    InitOfAppend(init1, sv);
    ClassifyLinesAppend(init1, init2, decode);
    StepOfLines(buffer, a + b, decode, init1 + sv);
  }

  lemma StepOfLines(buffer: string, chunk: string, decode: string -> Decoded, lines: seq<string>)
    requires SplitLines(buffer + chunk) == lines
    ensures ParseStep(buffer, chunk, decode) == ParseResult(ClassifyLines(lines[..|lines| - 1], decode), lines[|lines| - 1])
  {
  }

  lemma InitOfAppend(xs: seq<string>, ys: seq<string>)
    requires |ys| >= 1
    ensures (xs + ys)[..|xs + ys| - 1] == xs + ys[..|ys| - 1]
    ensures (xs + ys)[|xs + ys| - 1] == ys[|ys| - 1]
  {
  }

  /** Feeding a list of chunks of decoded text one after another, as the
      browser does with the text of each read from the response body. */
  function ParseChunks(buffer: string, chunks: seq<string>, decode: string -> Decoded): ParseResult
    decreases |chunks|
  {
    if chunks == [] then ParseResult([], buffer)
    else
      var first := ParseStep(buffer, chunks[0], decode);
      var rest := ParseChunks(first.buffer, chunks[1..], decode);
      ParseResult(first.messages + rest.messages, rest.buffer)
  }

  /** However the stream is cut into chunks, the messages and the final
      buffer are those of parsing the whole text at once. */
  lemma {:induction false} AnyChunkingParsesAlike(buffer: string, chunks: seq<string>, decode: string -> Decoded)
    requires '\n' !in buffer
    ensures ParseChunks(buffer, chunks, decode) == ParseStep(buffer, Concat(chunks), decode)
    decreases |chunks|
  {
    if chunks == [] {
      assert buffer + "" == buffer;
    } else {
      var c, rest := chunks[0], chunks[1..];
      assert Concat(chunks) == c + Concat(rest) by {
        assert chunks == [c] + rest;
        ConcatCons(c, rest);
      }
      var first := ParseStep(buffer, c, decode);
      BufferIsTextAfterLastNewline(buffer, c, decode);
      AnyChunkingParsesAlike(first.buffer, rest, decode);
      ChunkBoundaryIndependence(buffer, c, Concat(rest), decode);
    }
  }

  /** `createSSEParser()`: the closure's `buffer` becomes a field. */
  class Parser {
    var buffer: string
    const decode: string -> Decoded

    constructor (decode: string -> Decoded)
      ensures buffer == "" && this.decode == decode
    {
      buffer := "";
      this.decode := decode;
    }

    /** `parse(chunk)`. */
    method Parse(chunk: string) returns (messages: seq<StreamMessage>)
      modifies this
      ensures ParseStep(old(buffer), chunk, decode) == ParseResult(messages, buffer)
    {
      var lines := SplitLines(buffer + chunk);
      buffer := lines[|lines| - 1];
      messages := ClassifyLines(lines[..|lines| - 1], decode);
    }
  }
}
