/** How a chat message is cut into segments for display
    (components/MessageBubble.tsx, `parseMessage`): a cleanup of escapes and
    marker lines, then a scan for fenced code blocks. */
module MessageBubble {
  import opened Wrappers
  import opened JsText

  // ---------------------------------------------------------------------
  // Cleanup.

  /** `s.replace(/pattern/g, replacement)` for a literal pattern: matches are
      taken left to right and do not overlap, and the replacement is not
      scanned again. */
  function ReplaceLiteral(s: string, pattern: string, replacement: string): string
    requires |pattern| > 0
    decreases |s|
  {
    if s == [] then []
    else if StartsWith(s, pattern) then replacement + ReplaceLiteral(s[|pattern|..], pattern, replacement)
    else [s[0]] + ReplaceLiteral(s[1..], pattern, replacement)
  }

  const DOUBLE_BACKSLASH: string := "\\\\"
  const ESCAPED_NEWLINE: string := "\\n"

  /** The text with every backslash written twice, as an over-escaped
      message carries it. */
  function DoubleBackslashes(t: string): string {
    if t == [] then [] else (if t[0] == '\\' then DOUBLE_BACKSLASH else [t[0]]) + DoubleBackslashes(t[1..])
  }

  /** Collapsing backslash pairs undoes the doubling, whatever the text. */
  lemma {:induction false} CollapseUndoesDoubling(t: string)
    ensures ReplaceLiteral(DoubleBackslashes(t), DOUBLE_BACKSLASH, "\\") == t
  {
    if t != [] {
      CollapseUndoesDoubling(t[1..]);
      var d := DoubleBackslashes(t);
      if t[0] == '\\' {
        assert d[|DOUBLE_BACKSLASH|..] == DoubleBackslashes(t[1..]);
      } else {
        assert d[1..] == DoubleBackslashes(t[1..]);
      }
      assert t == [t[0]] + t[1..];
    }
  }

  /** The text with each line feed written as the two characters `\n`. */
  function EscapeNewlines(t: string): string {
    if t == [] then [] else (if t[0] == '\n' then ESCAPED_NEWLINE else [t[0]]) + EscapeNewlines(t[1..])
  }

  /** Unescaping restores the line feeds of a text without backslashes. */
  lemma {:induction false} UnescapeUndoesEscaping(t: string)
    requires '\\' !in t
    ensures ReplaceLiteral(EscapeNewlines(t), ESCAPED_NEWLINE, "\n") == t
  {
    if t != [] {
      UnescapeUndoesEscaping(t[1..]);
      var e := EscapeNewlines(t);
      if t[0] == '\n' {
        assert e[|ESCAPED_NEWLINE|..] == EscapeNewlines(t[1..]);
      } else {
        assert e[1..] == EscapeNewlines(t[1..]);
      }
      assert t == [t[0]] + t[1..];
    }
  }

  /** `s.replace(/marker\n?/g, "")`: each occurrence is dropped together with
      a line feed right after it. */
  function RemoveMarker(s: string, marker: string): string
    requires |marker| > 0
    decreases |s|
  {
    if s == [] then []
    else if StartsWith(s, marker) then
      var rest := s[|marker|..];
      RemoveMarker(if rest != [] && rest[0] == '\n' then rest[1..] else rest, marker)
    else [s[0]] + RemoveMarker(s[1..], marker)
  }

  /** Text before the first marker is kept as it is; the marker and its
      line feed go; the scan carries on after them. */
  lemma {:induction false} RemoveMarkerSplices(a: string, marker: string, b: string)
    requires |marker| > 0
    requires forall q: nat :: q < |a| ==> !OccursAt(a + marker, marker, q)
    ensures RemoveMarker(a + marker + b, marker)
      == a + RemoveMarker(if b != [] && b[0] == '\n' then b[1..] else b, marker)
    decreases |a|
  {
    var s := a + marker + b;
    if a == [] {
      assert s == marker + b;
      assert s[..|marker|] == marker;
      assert s[|marker|..] == b;
    } else {
      var rest := RemoveMarker(if b != [] && b[0] == '\n' then b[1..] else b, marker);
      calc {
        RemoveMarker(s, marker);
        { MarkerNotInFront(a, marker, b); }
        [s[0]] + RemoveMarker(s[1..], marker);
        { assert s[1..] == a[1..] + marker + b; }
        [a[0]] + RemoveMarker(a[1..] + marker + b, marker);
        { MarkerFreeTail(a, marker); RemoveMarkerSplices(a[1..], marker, b); }
        [a[0]] + (a[1..] + rest);
        { assert a == [a[0]] + a[1..]; }
        a + rest;
      }
    }
  }

  lemma MarkerNotInFront(a: string, marker: string, b: string)
    requires |a| > 0 && !OccursAt(a + marker, marker, 0)
    ensures !StartsWith(a + marker + b, marker)
  {
    var s := a + marker + b;
    assert s[..|marker|] == (a + marker)[..|marker|];
  }

  lemma MarkerFreeTail(a: string, marker: string)
    requires |a| > 0
    requires forall q: nat :: q < |a| ==> !OccursAt(a + marker, marker, q)
    ensures forall q: nat :: q < |a[1..]| ==> !OccursAt(a[1..] + marker, marker, q)
  {
    var x := a + marker;
    assert x[1..] == a[1..] + marker;
    forall q: nat | q < |a| - 1
      ensures !OccursAt(a[1..] + marker, marker, q)
    {
      assert !OccursAt(x, marker, q + 1);
      assert x[1..][q..q + |marker|] == x[q + 1..q + 1 + |marker|];
    }
  }

  const MARKERS: seq<string> := ["---START---", "---END---", "CODE START", "CODE END"]

  /** The cleanup at the top of `parseMessage`, in its order, then `trim`. */
  function Cleanup(content: string): string {
    var unescaped := ReplaceLiteral(ReplaceLiteral(content, DOUBLE_BACKSLASH, "\\"), ESCAPED_NEWLINE, "\n");
    Trim(RemoveMarker(RemoveMarker(RemoveMarker(RemoveMarker(unescaped, MARKERS[0]), MARKERS[1]), MARKERS[2]), MARKERS[3]))
  }

  // ---------------------------------------------------------------------
  // Code fences: /```(\w+)?\n([\s\S]*?)```/g.

  const FENCE: string := "```"

  /** `\w`. */
  predicate IsWordChar(c: char) {
    ('a' <= c <= 'z') || ('A' <= c <= 'Z') || ('0' <= c <= '9') || c == '_'
  }

  /** The length of the run of word characters starting at `i`. */
  function WordRunLength(s: string, i: nat): (n: nat)
    requires i <= |s|
    ensures i + n <= |s|
    decreases |s| - i
  {
    if i < |s| && IsWordChar(s[i]) then 1 + WordRunLength(s, i + 1) else 0
  }

  /** The run is greedy, as `(\w+)?` is: all word characters, and no word
      character right after it. */
  lemma {:induction false} WordRunIsMaximal(s: string, i: nat)
    requires i <= |s|
    ensures forall k :: i <= k < i + WordRunLength(s, i) ==> IsWordChar(s[k])
    ensures i + WordRunLength(s, i) == |s| || !IsWordChar(s[i + WordRunLength(s, i)])
    decreases |s| - i
  {
    if i < |s| && IsWordChar(s[i]) {
      WordRunIsMaximal(s, i + 1);
    }
  }

  /** Three backticks at `p`. */
  predicate BackticksAt(s: string, p: nat) {
    p + |FENCE| <= |s| && s[p] == '`' && s[p + 1] == '`' && s[p + 2] == '`'
  }

  lemma BackticksAtIsOccurrence(s: string, p: nat)
    ensures BackticksAt(s, p) <==> OccursAt(s, FENCE, p)
  {
    if p + |FENCE| <= |s| && OccursAt(s, FENCE, p) {
      assert s[p..p + |FENCE|][1] == s[p + 1];
      assert s[p..p + |FENCE|][2] == s[p + 2];
    }
  }

  /** The first backticks at or after `from`: where the lazy body ends. */
  function FindBackticks(s: string, from: nat): (r: Option<nat>)
    ensures r.Some? ==> from <= r.value && BackticksAt(s, r.value)
    decreases |s| - from
  {
    if from + |FENCE| > |s| then None
    else if BackticksAt(s, from) then Some(from)
    else FindBackticks(s, from + 1)
  }

  /** The body is as short as it can be: no backticks inside it. */
  lemma {:induction false} FindBackticksIsFirst(s: string, from: nat, q: nat)
    requires from <= q
    requires FindBackticks(s, from).None? || q < FindBackticks(s, from).value
    ensures !BackticksAt(s, q)
    decreases |s| - from
  {
    if from + |FENCE| <= |s| && !BackticksAt(s, from) && from < q {
      FindBackticksIsFirst(s, from + 1, q);
    }
  }

  /** A match: the opening backticks at `start`, the body between
      `bodyStart` and the closing backticks at `bodyEnd`. */
  datatype Fence = Fence(start: nat, bodyStart: nat, bodyEnd: nat)

  /** The match's parts sit in `s` where the fence says. */
  predicate WellPlaced(s: string, f: Fence) {
    && f.start + |FENCE| < f.bodyStart <= f.bodyEnd
    && BackticksAt(s, f.start)
    && BackticksAt(s, f.bodyEnd)
    && s[f.bodyStart - 1] == '\n'
  }

  /** The `(\w+)?` group: "" when it did not take part. */
  function Tag(s: string, f: Fence): string
    requires WellPlaced(s, f)
  {
    s[f.start + |FENCE|..f.bodyStart - 1]
  }

  /** The `([\s\S]*?)` group. */
  function Body(s: string, f: Fence): string
    requires WellPlaced(s, f)
  {
    s[f.bodyStart..f.bodyEnd]
  }

  /** The match of the fence pattern starting exactly at `p`, if any: the
      greedy tag must be followed by a line feed, and the lazy body ends at
      the first backticks after it. */
  function FenceAt(s: string, p: nat): (r: Option<Fence>)
    ensures r.Some? ==> r.value.start == p && WellPlaced(s, r.value)
  {
    if !BackticksAt(s, p) then None
    else
      var tagEnd := p + |FENCE| + WordRunLength(s, p + |FENCE|);
      if tagEnd < |s| && s[tagEnd] == '\n' then
        match FindBackticks(s, tagEnd + 1)
        case None => None
        case Some(e) => Some(Fence(p, tagEnd + 1, e))
      else None
  }

  /** `regex.exec` from `lastIndex = from`: the leftmost match. */
  function FindFence(s: string, from: nat): (r: Option<Fence>)
    ensures r.Some? ==> from <= r.value.start && FenceAt(s, r.value.start) == r
    decreases |s| - from
  {
    if from >= |s| then None
    else if FenceAt(s, from).Some? then FenceAt(s, from)
    else FindFence(s, from + 1)
  }

  /** The match found is the leftmost one: no fence starts between `from`
      and it, and none at all after `from` when nothing is found. */
  lemma {:induction false} FindFenceIsLeftmost(s: string, from: nat, q: nat)
    requires from <= q
    requires FindFence(s, from).None? || q < FindFence(s, from).value.start
    ensures FenceAt(s, q).None?
    decreases |s| - from
  {
    if from >= |s| {
      assert !BackticksAt(s, q);
    } else if FenceAt(s, from).None? && from < q {
      FindFenceIsLeftmost(s, from + 1, q);
    }
  }

  // ---------------------------------------------------------------------
  // Pieces and segments.

  /** The text is cut into the text between fences and the fences. */
  datatype Piece = TextPiece(text: string) | FencePiece(tag: string, body: string)

  /** The characters of the message a piece stands for. */
  function Raw(p: Piece): string {
    match p
    case TextPiece(t) => t
    case FencePiece(tag, body) => FENCE + tag + "\n" + body + FENCE
  }

  /** The text between `lastIndex` and a match, when there is any. */
  function Gap(s: string, from: nat, start: nat): seq<Piece>
    requires from <= start <= |s|
  {
    if start > from then [TextPiece(s[from..start])] else []
  }

  /** The scan of the `while` loop from `lastIndex = from`. */
  function Pieces(s: string, from: nat): seq<Piece>
    requires from <= |s|
    decreases |s| - from
  {
    match FindFence(s, from)
    case None => if from < |s| then [TextPiece(s[from..])] else []
    case Some(f) =>
      Gap(s, from, f.start)
      + [FencePiece(Tag(s, f), Body(s, f))]
      + Pieces(s, f.bodyEnd + |FENCE|)
  }

  function Raws(pieces: seq<Piece>): (raws: seq<string>)
    ensures |raws| == |pieces|
  {
    if pieces == [] then [] else [Raw(pieces[0])] + Raws(pieces[1..])
  }

  lemma {:induction false} RawsAppend(xs: seq<Piece>, ys: seq<Piece>)
    ensures Raws(xs + ys) == Raws(xs) + Raws(ys)
    decreases |xs|
  {
    if xs == [] {
      assert xs + ys == ys;
    } else {
      assert (xs + ys)[0] == xs[0];
      assert (xs + ys)[1..] == xs[1..] + ys;
      RawsAppend(xs[1..], ys);
    }
  }

  /** One step of the scan: the text before the match, the match, the rest. */
  lemma PiecesUnfold(s: string, from: nat)
    requires from <= |s| && FindFence(s, from).Some?
    ensures var f := FindFence(s, from).value;
      && f.bodyEnd + |FENCE| <= |s|
      && Pieces(s, from)
         == Gap(s, from, f.start)
            + [FencePiece(Tag(s, f), Body(s, f))]
            + Pieces(s, f.bodyEnd + |FENCE|)
  {
  }

  /** A fence piece stands for the characters of its match. */
  lemma FenceRaw(s: string, f: Fence)
    requires WellPlaced(s, f)
    ensures Raw(FencePiece(Tag(s, f), Body(s, f))) == s[f.start..f.bodyEnd + |FENCE|]
  {
    var tagStart, lineEnd, end := f.start + |FENCE|, f.bodyStart - 1, f.bodyEnd + |FENCE|;
    BackticksAtIsOccurrence(s, f.start);
    BackticksAtIsOccurrence(s, f.bodyEnd);
    var open, tag, nl, body, close := s[f.start..tagStart], s[tagStart..lineEnd], s[lineEnd..f.bodyStart], s[f.bodyStart..f.bodyEnd], s[f.bodyEnd..end];
    assert open == FENCE && close == FENCE;
    assert nl == "\n";
    SliceJoin(s, f.start, tagStart, lineEnd);
    SliceJoin(s, f.start, lineEnd, f.bodyStart);
    SliceJoin(s, f.start, f.bodyStart, f.bodyEnd);
    SliceJoin(s, f.start, f.bodyEnd, end);
    calc {
      s[f.start..end];
      s[f.start..f.bodyEnd] + close;
      s[f.start..f.bodyStart] + body + close;
      s[f.start..lineEnd] + nl + body + close;
      open + tag + nl + body + close;
      FENCE + tag + "\n" + body + FENCE;
      Raw(FencePiece(tag, body));
      { assert tag == Tag(s, f) && body == Body(s, f); }
      Raw(FencePiece(Tag(s, f), Body(s, f)));
    }
  }

  lemma SliceJoin(s: string, i: nat, j: nat, k: nat)
    requires i <= j <= k <= |s|
    ensures s[i..k] == s[i..j] + s[j..k]
  {
  }

  /** The pieces put back together are the text: segments come in source
      order, and nothing is lost or duplicated between them. */
  lemma {:induction false} PiecesRebuildText(s: string, from: nat)
    requires from <= |s|
    ensures Concat(Raws(Pieces(s, from))) == s[from..]
    decreases |s| - from
  {
    if FindFence(s, from).None? {
      UnfencedTailRebuilds(s, from);
    } else {
      var f := FindFence(s, from).value;
      var next := f.bodyEnd + |FENCE|;
      assert WellPlaced(s, f) && from < next <= |s|;
      PiecesRebuildText(s, next);
      FenceStepRebuilds(s, from);
    }
  }

  lemma UnfencedTailRebuilds(s: string, from: nat)
    requires from <= |s| && FindFence(s, from).None?
    ensures Concat(Raws(Pieces(s, from))) == s[from..]
  {
    if from < |s| {
      assert Pieces(s, from) == [TextPiece(s[from..])];
      assert Raws([TextPiece(s[from..])]) == [s[from..]];
      assert [s[from..]][..0] == [];
    } else {
      assert Pieces(s, from) == [];
      assert Raws([]) == [];
    }
  }

  lemma FenceStepRebuilds(s: string, from: nat)
    requires from <= |s| && FindFence(s, from).Some?
    requires var f := FindFence(s, from).value;
      f.bodyEnd + |FENCE| <= |s| && Concat(Raws(Pieces(s, f.bodyEnd + |FENCE|))) == s[f.bodyEnd + |FENCE|..]
    ensures Concat(Raws(Pieces(s, from))) == s[from..]
  {
    var f := FindFence(s, from).value;
    var next := f.bodyEnd + |FENCE|;
    PiecesUnfold(s, from);
    var before := Gap(s, from, f.start);
    var fence := FencePiece(Tag(s, f), Body(s, f));
    var rest := Pieces(s, next);
    var whole := Pieces(s, from);
    assert whole == before + [fence] + rest;
    assert Concat(Raws([fence])) == s[f.start..next] by {
      FenceRaw(s, f);
      assert Raws([fence]) == [Raw(fence)];
      assert [Raw(fence)][..0] == [];
    }
    assert Concat(Raws(before)) == s[from..f.start] by {
      if f.start > from {
        assert Raws(before) == [s[from..f.start]];
        assert [s[from..f.start]][..0] == [];
      } else {
        assert Raws(before) == [];
      }
    }
    calc {
      Concat(Raws(whole));
      { RawTextOfThree(before, fence, rest); }
      Concat(Raws(before)) + Concat(Raws([fence])) + Concat(Raws(rest));
      s[from..f.start] + s[f.start..next] + s[next..];
      { SliceSplits(s, from, f.start, next); }
      s[from..];
    }
  }

  lemma RawTextOfThree(before: seq<Piece>, fence: Piece, rest: seq<Piece>)
    ensures Concat(Raws(before + [fence] + rest)) == Concat(Raws(before)) + Concat(Raws([fence])) + Concat(Raws(rest))
  {
    RawsAppend(before + [fence], rest);
    RawsAppend(before, [fence]);
    ConcatAppend(Raws(before) + Raws([fence]), Raws(rest));
    ConcatAppend(Raws(before), Raws([fence]));
  }

  lemma SliceSplits(s: string, i: nat, j: nat, k: nat)
    requires i <= j <= k <= |s|
    ensures s[i..] == s[i..j] + s[j..k] + s[k..]
  {
  }

  datatype SegmentType = TextType | CodeType | MermaidType | HtmlType

  /** `Segment`. */
  datatype Segment = Segment(kind: SegmentType, content: string, lang: Option<string>)

  /** The segment type for a fence's language. */
  function FenceType(lang: string): (t: SegmentType)
    ensures t == MermaidType <==> lang == "mermaid"
    ensures t == HtmlType <==> lang == "html"
    ensures t != TextType
  {
    if lang == "mermaid" then MermaidType else if lang == "html" then HtmlType else CodeType
  }

  /** `match[1] || "plaintext"`. */
  function FenceLang(tag: string): string {
    if tag == "" then "plaintext" else tag
  }

  function SegmentOf(p: Piece): Segment {
    match p
    case TextPiece(t) => Segment(TextType, Trim(t), None)
    case FencePiece(tag, body) => Segment(FenceType(FenceLang(tag)), Trim(body), Some(FenceLang(tag)))
  }

  function SegmentsOf(pieces: seq<Piece>): (segs: seq<Segment>)
    ensures |segs| == |pieces|
  {
    if pieces == [] then [] else [SegmentOf(pieces[0])] + SegmentsOf(pieces[1..])
  }

  lemma {:induction false} SegmentsOfAppend(xs: seq<Piece>, ys: seq<Piece>)
    ensures SegmentsOf(xs + ys) == SegmentsOf(xs) + SegmentsOf(ys)
    decreases |xs|
  {
    if xs == [] {
      assert xs + ys == ys;
    } else {
      assert (xs + ys)[0] == xs[0];
      assert (xs + ys)[1..] == xs[1..] + ys;
      SegmentsOfAppend(xs[1..], ys);
    }
  }

  /** Each segment comes from the piece at the same place. */
  lemma {:induction false} SegmentsOfPointwise(pieces: seq<Piece>, k: nat)
    requires k < |pieces|
    ensures SegmentsOf(pieces)[k] == SegmentOf(pieces[k])
    decreases k
  {
    if k > 0 {
      SegmentsOfPointwise(pieces[1..], k - 1);
    }
  }

  /** `result.filter(seg => seg.content.length > 0)`. */
  function KeepNonEmpty(segs: seq<Segment>): (kept: seq<Segment>)
    ensures |kept| <= |segs|
    ensures forall k :: 0 <= k < |kept| ==> kept[k].content != [] && kept[k] in segs
  {
    if segs == [] then []
    else
      var rest := KeepNonEmpty(segs[..|segs| - 1]);
      var last := segs[|segs| - 1];
      assert forall x :: x in segs[..|segs| - 1] ==> x in segs;
      rest + (if last.content != [] then [last] else [])
  }

  /** The filter works segment by segment: filtering a concatenation is
      filtering each part, so the kept segments stay in their order. */
  lemma {:induction false} KeepNonEmptyAppend(xs: seq<Segment>, ys: seq<Segment>)
    ensures KeepNonEmpty(xs + ys) == KeepNonEmpty(xs) + KeepNonEmpty(ys)
    decreases |ys|
  {
    if ys == [] {
      assert xs + ys == xs;
    } else {
      var init, last := ys[..|ys| - 1], ys[|ys| - 1];
      assert (xs + ys)[..|xs + ys| - 1] == xs + init;
      assert (xs + ys)[|xs + ys| - 1] == last;
      KeepNonEmptyAppend(xs, init);
    }
  }

  /** No non-empty segment is dropped. */
  lemma {:induction false} KeepNonEmptyKeepsEvery(segs: seq<Segment>, k: nat)
    requires k < |segs| && segs[k].content != []
    ensures segs[k] in KeepNonEmpty(segs)
  {
    var front, back := segs[..k], segs[k..];
    assert segs == front + back;
    KeepNonEmptyAppend(front, back);
    assert back == [segs[k]] + back[1..];
    KeepNonEmptyAppend([segs[k]], back[1..]);
    assert KeepNonEmpty([segs[k]]) == [segs[k]] by {
      assert [segs[k]][..0] == [];
    }
  }

  /** What `parseMessage` returns. */
  function ParsedSegments(content: string): seq<Segment> {
    var s := Cleanup(content);
    KeepNonEmpty(SegmentsOf(Pieces(s, 0)))
  }

  /** One round of the `while` loop: the segments it pushes, then the rest. */
  lemma ScanStep(s: string, from: nat, f: Fence)
    requires from <= |s| && FindFence(s, from) == Some(f)
    ensures f.bodyEnd + |FENCE| <= |s|
    ensures SegmentsOf(Pieces(s, from))
         == SegmentsOf(Gap(s, from, f.start))
            + [SegmentOf(FencePiece(Tag(s, f), Body(s, f)))]
            + SegmentsOf(Pieces(s, f.bodyEnd + |FENCE|))
  {
    var before := Gap(s, from, f.start);
    var fence := FencePiece(Tag(s, f), Body(s, f));
    PiecesUnfold(s, from);
    var rest := Pieces(s, f.bodyEnd + |FENCE|);
    calc {
      SegmentsOf(Pieces(s, from));
      { assert Pieces(s, from) == before + [fence] + rest; }
      SegmentsOf(before + [fence] + rest);
      { SegmentsOfThree(before, fence, rest); }
      SegmentsOf(before) + [SegmentOf(fence)] + SegmentsOf(rest);
    }
  }

  lemma SegmentsOfThree(before: seq<Piece>, p: Piece, rest: seq<Piece>)
    ensures SegmentsOf(before + [p] + rest) == SegmentsOf(before) + [SegmentOf(p)] + SegmentsOf(rest)
  {
    SegmentsOfAppend(before + [p], rest);
    SegmentsOfAppend(before, [p]);
    assert SegmentsOf([p]) == [SegmentOf(p)];
  }

  lemma Regrouped<T>(a: seq<T>, b: seq<T>, c: seq<T>, d: seq<T>)
    ensures a + b + c + d == a + (b + c + d)
  {
  }

  /** After the last match: the trailing text, if any. */
  lemma ScanEnd(s: string, from: nat)
    requires from <= |s| && FindFence(s, from).None?
    ensures SegmentsOf(Pieces(s, from)) == if from < |s| then [Segment(TextType, Trim(s[from..]), None)] else []
  {
  }

  /** What one round of the `while` loop pushes onto `done` for the match
      `f` found from `lastIndex = from`: the text before it, if any, then
      the fence's segment. */
  function PushedFor(s: string, from: nat, f: Fence, done: seq<Segment>): seq<Segment>
    requires from <= f.start && WellPlaced(s, f)
  {
    done + SegmentsOf(Gap(s, from, f.start)) + [SegmentOf(FencePiece(Tag(s, f), Body(s, f)))]
  }

  /** What the `while` loop ends with when it reaches `lastIndex = from`
      having pushed `done`. */
  function ScanFrom(s: string, from: nat, done: seq<Segment>): seq<Segment>
    requires from <= |s|
  {
    done + SegmentsOf(Pieces(s, from))
  }

  /** One turn of the scan: pushing the match `f` found from `from` onto
      `done` (giving `pushed`) leaves the rest of the scan to start after
      the closing fence, at `next`. */
  lemma ScanFromStep(s: string, from: nat, f: Fence, done: seq<Segment>, pushed: seq<Segment>, next: nat)
    requires from <= |s| && FindFence(s, from) == Some(f)
    requires from <= f.start && WellPlaced(s, f) && pushed == PushedFor(s, from, f, done)
    requires next == f.bodyEnd + |FENCE|
    ensures from < next <= |s|
    ensures ScanFrom(s, next, pushed) == ScanFrom(s, from, done)
  {
    var gap := SegmentsOf(Gap(s, from, f.start));
    var fence := SegmentOf(FencePiece(Tag(s, f), Body(s, f)));
    ScanStep(s, from, f);
    var rest := SegmentsOf(Pieces(s, next));
    calc {
      ScanFrom(s, next, pushed);
      pushed + rest;
      done + gap + [fence] + rest;
      { Regrouped(done, gap, [fence], rest); }
      done + (gap + [fence] + rest);
      done + SegmentsOf(Pieces(s, from));
      ScanFrom(s, from, done);
    }
  }

  /** The segments of the text between `lastIndex` and a match. */
  lemma GapSegments(s: string, from: nat, start: nat)
    requires from <= start <= |s|
    ensures SegmentsOf(Gap(s, from, start))
         == if start > from then [Segment(TextType, Trim(s[from..start]), None)] else []
  {
    if start > from {
      assert SegmentsOf([TextPiece(s[from..start])]) == [SegmentOf(TextPiece(s[from..start]))];
    }
  }

  /** The body of the `while` loop for the match `f` found from `lastIndex`:
      push the text before it, if any, and the fence's segment, and move
      `lastIndex` past the match. */
  method PushMatch(s: string, lastIndex: nat, f: Fence, result: seq<Segment>) returns (pushed: seq<Segment>, next: nat)
    requires lastIndex <= |s| && FindFence(s, lastIndex) == Some(f)
    ensures lastIndex < next <= |s|
    ensures ScanFrom(s, next, pushed) == ScanFrom(s, lastIndex, result)
  {
    ghost var gap := SegmentsOf(Gap(s, lastIndex, f.start));
    ghost var fence := SegmentOf(FencePiece(Tag(s, f), Body(s, f)));
    pushed := result;
    if f.start > lastIndex {
      var text := Segment(TextType, Trim(s[lastIndex..f.start]), None);
      assert gap == [text] by { GapSegments(s, lastIndex, f.start); }
      pushed := pushed + [text];
    } else {
      assert gap == [] by { GapSegments(s, lastIndex, f.start); }
    }
    var lang := FenceLang(Tag(s, f));
    var fenceSegment := Segment(FenceType(lang), Trim(Body(s, f)), Some(lang));
    assert fenceSegment == fence;
    pushed := pushed + [fenceSegment];
    assert pushed == result + gap + [fence];
    next := f.bodyEnd + |FENCE|;
    ScanFromStep(s, lastIndex, f, result, pushed, next);
  }

  /** After the loop: the text after the last match, if any. */
  method PushTrailingText(s: string, lastIndex: nat, result: seq<Segment>) returns (pushed: seq<Segment>)
    requires lastIndex <= |s| && FindFence(s, lastIndex).None?
    ensures pushed == ScanFrom(s, lastIndex, result)
  {
    ScanEnd(s, lastIndex);
    pushed := result;
    if lastIndex < |s| {
      pushed := pushed + [Segment(TextType, Trim(s[lastIndex..]), None)];
    } else {
      assert pushed + [] == pushed;
    }
  }

  /** The `while (match = regex.exec(...))` loop of `parseMessage` and the
      trailing text after it, on the cleaned text `s`. */
  method ScanSegments(s: string) returns (result: seq<Segment>)
    ensures result == SegmentsOf(Pieces(s, 0))
  {
    result := [];
    var lastIndex: nat := 0;
    var found := FindFence(s, lastIndex);
    assert ScanFrom(s, lastIndex, result) == SegmentsOf(Pieces(s, 0));
    while found.Some?
      invariant lastIndex <= |s|
      invariant found == FindFence(s, lastIndex)
      invariant ScanFrom(s, lastIndex, result) == SegmentsOf(Pieces(s, 0))
      decreases |s| - lastIndex
    {
      result, lastIndex := PushMatch(s, lastIndex, found.value, result);
      found := FindFence(s, lastIndex);
    }
    result := PushTrailingText(s, lastIndex, result);
  }

  /** `parseMessage`. */
  method ParseMessage(content: string) returns (segments: seq<Segment>)
    ensures segments == ParsedSegments(content)
  {
    var cleaned := Cleanup(content);
    var result := ScanSegments(cleaned);
    segments := KeepNonEmpty(result);
  }

  // ---------------------------------------------------------------------
  // What the segments promise.

  /** Nothing with text in it is dropped: the segment of every piece of the
      cleaned text that is not blank is among the segments returned. */
  lemma NonBlankPiecesKept(content: string, k: nat)
    requires k < |Pieces(Cleanup(content), 0)|
    requires SegmentOf(Pieces(Cleanup(content), 0)[k]).content != []
    ensures SegmentOf(Pieces(Cleanup(content), 0)[k]) in ParsedSegments(content)
  {
    var pieces := Pieces(Cleanup(content), 0);
    SegmentsOfPointwise(pieces, k);
    KeepNonEmptyKeepsEvery(SegmentsOf(pieces), k);
  }

  /** Every segment is trimmed and not empty. */
  lemma SegmentsAreTrimmedAndNonEmpty(content: string)
    ensures forall k :: 0 <= k < |ParsedSegments(content)| ==>
      ParsedSegments(content)[k].content != [] && Trim(ParsedSegments(content)[k].content) == ParsedSegments(content)[k].content
  {
    var segs := SegmentsOf(Pieces(Cleanup(content), 0));
    forall seg | seg in segs
      ensures Trim(seg.content) == seg.content
    {
      var k :| 0 <= k < |segs| && segs[k] == seg;
      SegmentsOfPointwise(Pieces(Cleanup(content), 0), k);
      match Pieces(Cleanup(content), 0)[k]
      case TextPiece(t) => TrimIdempotent(t);
      case FencePiece(_, body) => TrimIdempotent(body);
    }
  }

  /** Text segments have no language; a fence's segment has the fence's tag
      ("plaintext" when untagged) and the type that tag selects. */
  lemma SegmentTypesFollowTags(p: Piece)
    ensures var seg := SegmentOf(p);
      && (p.TextPiece? <==> seg.kind == TextType)
      && (p.TextPiece? <==> seg.lang.None?)
      && (p.FencePiece? ==> seg.lang == Some(if p.tag == "" then "plaintext" else p.tag))
      && (p.FencePiece? ==> (seg.kind == MermaidType <==> p.tag == "mermaid"))
      && (p.FencePiece? ==> (seg.kind == HtmlType <==> p.tag == "html"))
  {
  }

  /** Without a complete fence the message is one text segment, the cleaned
      text, or nothing when the cleaned text is empty. */
  lemma NoFenceMeansOneTextSegment(content: string)
    requires FindFence(Cleanup(content), 0).None?
    ensures var s := Cleanup(content);
      ParsedSegments(content) == if s == [] then [] else [Segment(TextType, s, None)]
  {
    var s := Cleanup(content);
    TrimIdempotent(RemoveMarker(RemoveMarker(RemoveMarker(RemoveMarker(
      ReplaceLiteral(ReplaceLiteral(content, DOUBLE_BACKSLASH, "\\"), ESCAPED_NEWLINE, "\n"),
      MARKERS[0]), MARKERS[1]), MARKERS[2]), MARKERS[3]));
    assert s[0..] == s;
    if s != [] {
      assert SegmentsOf([TextPiece(s)]) == [Segment(TextType, s, None)];
      assert [Segment(TextType, s, None)][..0] == [];
    }
  }
}
