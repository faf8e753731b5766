/** The two ends of the chat stream together: what `sendSSEMessage` writes,
    however the decoded text is cut into chunks, is parsed by the browser's
    parser back into the very messages the route sent. */
module WireRoundTrip {
  import opened Wrappers
  import opened JsText
  import opened StreamProtocol
  import opened SseParser
  import opened ChatStreamRoute

  /** One frame's data line classifies to the message it was made from. */
  lemma DataLineClassifies(m: StreamMessage, stringify: StreamMessage -> string, decode: string -> Decoded)
    requires JsonRoundTrips(stringify, decode)
    ensures ClassifyLine(SSE_DATA_PREFIX + stringify(m), decode) == Some(m)
  {
    var j := stringify(m);
    var line := SSE_DATA_PREFIX + j;
    assert |j| >= 2 && j[0] == '{' && j[|j| - 1] == '}';
    TrimKeepsUnpadded(line);
    assert line[|SSE_DATA_PREFIX|..] == j;
    assert line[|SSE_DATA_PREFIX|] == '{';
    WireNamesAreKnownAndDistinct(TypeOf(m), TypeOf(m));
  }

  /** A frame splits into its data line and the two empty pieces its
      blank-line delimiter leaves. */
  lemma FrameLines(m: StreamMessage, stringify: StreamMessage -> string, decode: string -> Decoded)
    requires JsonRoundTrips(stringify, decode)
    ensures SplitLines("" + SseFrame(m, stringify)) == [SSE_DATA_PREFIX + stringify(m), "", ""]
  {
    var j := stringify(m);
    var line := SSE_DATA_PREFIX + j;
    assert '\n' !in j;
    assert '\n' !in line;
    assert "" + SseFrame(m, stringify) == line + "\n" + ("" + "\n" + "");
    SplitAfterFirstLine(line, "\n");
    SplitAfterFirstLine("", "");
  }

  /** The data line yields the message and the empty line nothing. */
  lemma FrameLinesClassify(m: StreamMessage, stringify: StreamMessage -> string, decode: string -> Decoded)
    requires JsonRoundTrips(stringify, decode)
    ensures ClassifyLines([SSE_DATA_PREFIX + stringify(m), "", ""][..2], decode) == [m]
  {
    var line := SSE_DATA_PREFIX + stringify(m);
    assert [line, "", ""][..2] == [line, ""];
    DataLineClassifies(m, stringify, decode);
    assert [line, ""][..1] == [line];
    assert [line][..0] == [];
  }

  /** A single frame parses to its message and leaves the buffer empty. */
  lemma FrameParses(m: StreamMessage, stringify: StreamMessage -> string, decode: string -> Decoded)
    requires JsonRoundTrips(stringify, decode)
    ensures ParseStep("", SseFrame(m, stringify), decode) == ParseResult([m], "")
  {
    var line := SSE_DATA_PREFIX + stringify(m);
    FrameLines(m, stringify, decode);
    StepOfLines("", SseFrame(m, stringify), decode, [line, "", ""]);
    FrameLinesClassify(m, stringify, decode);
  }

  /** Everything the route writes parses, in one go, to the messages it sent. */
  lemma {:induction false} WireParses(sent: seq<StreamMessage>, stringify: StreamMessage -> string, decode: string -> Decoded)
    requires JsonRoundTrips(stringify, decode)
    ensures ParseStep("", Wire(sent, stringify), decode) == ParseResult(sent, "")
    decreases |sent|
  {
    if sent == [] {
      assert SplitLines("") == [""];
    } else {
      FrameParses(sent[0], stringify, decode);
      WireParses(sent[1..], stringify, decode);
      ChunkBoundaryIndependence("", SseFrame(sent[0], stringify), Wire(sent[1..], stringify), decode);
      assert [sent[0]] + sent[1..] == sent;
    }
  }

  /** The browser receives exactly the stream `startStream` sent, in order,
      however the decoded text is cut into chunks, and nothing is left in its buffer. */
  lemma StreamArrivesIntact(mode: string, storeFailure: Option<Thrown>, submission: Submission,
                            chunks: seq<string>, stringify: StreamMessage -> string, decode: string -> Decoded)
    requires JsonRoundTrips(stringify, decode)
    requires Concat(chunks) == Wire(StreamSpec(mode, storeFailure, submission), stringify)
    ensures ParseChunks("", chunks, decode) == ParseResult(StreamSpec(mode, storeFailure, submission), "")
  {
    AnyChunkingParsesAlike("", chunks, decode);
    WireParses(StreamSpec(mode, storeFailure, submission), stringify, decode);
  }
}
