/** The few JavaScript string operations the modelled code relies on:
    `trim`, `split("\n")`, `join`, `startsWith`, `slice(0, n)` and the
    search for a literal substring. Strings are sequences of characters. */
module JsText {
  import opened Wrappers

  /** The characters JavaScript's `trim` removes, which are also the ones a
      regular expression's `\s` matches: WhiteSpace and LineTerminator. */
  predicate IsWhitespace(c: char) {
    c == ' ' || c == '\t' || c == '\n' || c == '\r' || c == '\U{B}' || c == '\U{C}'
    || c == '\U{A0}' || c == '\U{FEFF}' || c == '\U{1680}' || ('\U{2000}' <= c <= '\U{200A}')
    || c == '\U{2028}' || c == '\U{2029}' || c == '\U{202F}' || c == '\U{205F}' || c == '\U{3000}'
  }

  predicate AllWhitespace(s: string) {
    forall i :: 0 <= i < |s| ==> IsWhitespace(s[i])
  }

  function TrimStart(s: string): (r: string)
    ensures |r| <= |s|
  {
    if |s| > 0 && IsWhitespace(s[0]) then TrimStart(s[1..]) else s
  }

  /** `TrimStart` drops a run of leading whitespace and nothing more. */
  lemma {:induction false} TrimStartDropsLeadingRun(s: string)
    ensures var r := TrimStart(s);
      && r == s[|s| - |r|..] && AllWhitespace(s[..|s| - |r|])
      && (r == [] || !IsWhitespace(r[0]))
    decreases |s|
  {
    if |s| > 0 && IsWhitespace(s[0]) {
      var r := TrimStart(s[1..]);
      TrimStartDropsLeadingRun(s[1..]);
      assert s[1..][|s| - 1 - |r|..] == s[|s| - |r|..];
      assert forall i :: 0 < i < |s| - |r| ==> s[i] == s[1..][..|s| - 1 - |r|][i - 1];
    }
  }

  function TrimEnd(s: string): (r: string)
    ensures |r| <= |s|
  {
    if |s| > 0 && IsWhitespace(s[|s| - 1]) then TrimEnd(s[..|s| - 1]) else s
  }

  /** `TrimEnd` drops a run of trailing whitespace and nothing more. */
  lemma {:induction false} TrimEndDropsTrailingRun(s: string)
    ensures var r := TrimEnd(s);
      && r == s[..|r|] && AllWhitespace(s[|r|..])
      && (r == [] || !IsWhitespace(r[|r| - 1]))
    decreases |s|
  {
    if |s| > 0 && IsWhitespace(s[|s| - 1]) {
      var r := TrimEnd(s[..|s| - 1]);
      TrimEndDropsTrailingRun(s[..|s| - 1]);
      assert forall i :: |r| <= i < |s| - 1 ==> s[i] == s[..|s| - 1][i];
    }
  }

  /** JavaScript's `String.prototype.trim`. */
  function Trim(s: string): string {
    TrimEnd(TrimStart(s))
  }

  /** How many leading characters `Trim` drops. */
  function TrimOffset(s: string): nat {
    |s| - |TrimStart(s)|
  }

  /** `Trim(s)` is the slice of `s` between its leading and trailing
      whitespace runs: nothing else is removed and no whitespace remains
      at either end. */
  lemma TrimIsInnerSlice(s: string)
    ensures TrimOffset(s) + |Trim(s)| <= |s|
    ensures Trim(s) == s[TrimOffset(s)..TrimOffset(s) + |Trim(s)|]
    ensures AllWhitespace(s[..TrimOffset(s)]) && AllWhitespace(s[TrimOffset(s) + |Trim(s)|..])
  {
    var t := TrimStart(s);
    var r := TrimEnd(t);
    var a := |s| - |t|;
    TrimStartDropsLeadingRun(s);
    TrimEndDropsTrailingRun(t);
    assert t == s[a..];
    assert r == t[..|r|];
    SliceOfSuffix(s, a, |r|);
    var tail := t[|r|..];
    assert AllWhitespace(tail);
    assert tail == s[a + |r|..];
  }

  lemma SliceOfSuffix(s: string, a: nat, n: nat)
    requires a + n <= |s|
    ensures s[a..][..n] == s[a..a + n]
  {
  }

  lemma TrimHasNoOuterWhitespace(s: string)
    ensures Trim(s) == [] || (!IsWhitespace(Trim(s)[0]) && !IsWhitespace(Trim(s)[|Trim(s)| - 1]))
  {
    var t := TrimStart(s);
    var r := TrimEnd(t);
    TrimStartDropsLeadingRun(s);
    TrimEndDropsTrailingRun(t);
    if r != [] {
      assert r[0] == t[0];
    }
  }

  /** A string with no whitespace at either end is left alone by `trim`. */
  lemma TrimKeepsUnpadded(s: string)
    requires |s| > 0 && !IsWhitespace(s[0]) && !IsWhitespace(s[|s| - 1])
    ensures Trim(s) == s
  {
    assert TrimStart(s) == s;
  }

  /** Trimming twice changes nothing more. */
  lemma TrimIdempotent(s: string)
    ensures Trim(Trim(s)) == Trim(s)
  {
    TrimHasNoOuterWhitespace(s);
    var r := Trim(s);
    if r != [] {
      TrimKeepsUnpadded(r);
    }
  }

  /** `s.trim()` is falsy exactly when `s` is all whitespace. */
  lemma TrimEmptyIffBlank(s: string)
    ensures Trim(s) == [] <==> AllWhitespace(s)
  {
    TrimIsInnerSlice(s);
    TrimHasNoOuterWhitespace(s);
    if Trim(s) == [] {
      assert s == s[..TrimOffset(s)] + s[TrimOffset(s)..];
    }
  }

  predicate StartsWith(s: string, prefix: string) {
    |prefix| <= |s| && s[..|prefix|] == prefix
  }

  /** `s.slice(0, n)`. */
  function Take(s: string, n: nat): (r: string)
    ensures |r| <= n && |r| <= |s|
    ensures r == s[..|r|]
    ensures |s| <= n ==> r == s
  {
    if |s| <= n then s else s[..n]
  }

  /** `parts.join("")`. */
  function Concat(parts: seq<string>): string {
    if parts == [] then "" else Concat(parts[..|parts| - 1]) + parts[|parts| - 1]
  }

  lemma ConcatAppend(xs: seq<string>, ys: seq<string>)
    ensures Concat(xs + ys) == Concat(xs) + Concat(ys)
    decreases |ys|
  {
    if ys == [] {
      assert xs + ys == xs;
    } else {
      assert (xs + ys)[..|xs + ys| - 1] == xs + ys[..|ys| - 1];
      ConcatAppend(xs, ys[..|ys| - 1]);
    }
  }

  /** `Concat` read from the front. */
  lemma ConcatCons(c: string, rest: seq<string>)
    ensures Concat([c] + rest) == c + Concat(rest)
  {
    ConcatAppend([c], rest);
    assert [c][..0] == [];
  }

  /** `parts.join(sep)`. */
  function JoinWith(parts: seq<string>, sep: string): string {
    if |parts| == 0 then ""
    else if |parts| == 1 then parts[0]
    else JoinWith(parts[..|parts| - 1], sep) + sep + parts[|parts| - 1]
  }

  /** `s.indexOf(c)` for a character known to occur. */
  function IndexOf(s: string, c: char): (i: nat)
    requires c in s
    ensures i < |s| && s[i] == c && c !in s[..i]
  {
    if s[0] == c then 0
    else
      var j := IndexOf(s[1..], c);
      assert s[..j + 1] == [s[0]] + s[1..][..j];
      j + 1
  }

  /** `s.split("\n")`: the pieces between line feeds, never an empty list. */
  function SplitLines(s: string): (lines: seq<string>)
    ensures |lines| >= 1
    ensures forall k :: 0 <= k < |lines| ==> '\n' !in lines[k]
    ensures JoinWith(lines, "\n") == s
    decreases |s|
  {
    if '\n' in s then
      var i := IndexOf(s, '\n');
      var rest := SplitLines(s[i + 1..]);
      JoinPrepend(s[..i], rest, "\n");
      assert s == s[..i] + "\n" + s[i + 1..];
      [s[..i]] + rest
    else [s]
  }

  lemma {:induction false} JoinPrepend(x: string, parts: seq<string>, sep: string)
    requires |parts| >= 1
    ensures JoinWith([x] + parts, sep) == x + sep + JoinWith(parts, sep)
    decreases |parts|
  {
    if |parts| > 1 {
      var init := parts[..|parts| - 1];
      var last := parts[|parts| - 1];
      var xs := [x] + parts;
      assert xs[..|xs| - 1] == [x] + init;
      assert xs[|xs| - 1] == last;
      JoinPrepend(x, init, sep);
      calc {
        JoinWith(xs, sep);
        JoinWith([x] + init, sep) + sep + last;
        (x + sep + JoinWith(init, sep)) + sep + last;
        x + sep + (JoinWith(init, sep) + sep + last);
        x + sep + JoinWith(parts, sep);
      }
    }
  }

  lemma JoinAppend(parts: seq<string>, x: string, sep: string)
    requires |parts| >= 1
    ensures JoinWith(parts + [x], sep) == JoinWith(parts, sep) + sep + x
  {
    assert (parts + [x])[..|parts + [x]| - 1] == parts;
  }

  /** Splitting a text of lines joined by line feeds gives the lines back. */
  lemma {:induction false} SplitJoinLines(lines: seq<string>)
    requires |lines| >= 1
    requires forall k :: 0 <= k < |lines| ==> '\n' !in lines[k]
    ensures SplitLines(JoinWith(lines, "\n")) == lines
    decreases |lines|
  {
    if |lines| == 1 {
    } else {
      var rest := lines[1..];
      assert lines == [lines[0]] + rest;
      JoinPrepend(lines[0], rest, "\n");
      var s := JoinWith(lines, "\n");
      assert s == lines[0] + "\n" + JoinWith(rest, "\n");
      SplitAfterFirstLine(lines[0], JoinWith(rest, "\n"));
      SplitJoinLines(rest);
    }
  }

  /** A text made of a line, a line feed and more text splits into that line
      followed by the pieces of the rest. */
  lemma SplitAfterFirstLine(line: string, rest: string)
    requires '\n' !in line
    ensures SplitLines(line + "\n" + rest) == [line] + SplitLines(rest)
  {
    var s := line + "\n" + rest;
    assert s[|line|] == '\n';
    var i := IndexOf(s, '\n');
    assert s[..|line|] == line;
    assert s[..i] == line;
    assert s[i + 1..] == rest;
  }

  /** Splitting `u + v` splits `u` first and carries its unfinished last
      piece over into `v`: the basis of chunk-boundary independence. */
  lemma {:induction false} SplitConcat(u: string, v: string)
    ensures var su := SplitLines(u);
      SplitLines(u + v) == su[..|su| - 1] + SplitLines(su[|su| - 1] + v)
    decreases |u|
  {
    if '\n' in u {
      var i := IndexOf(u, '\n');
      var head, tail := u[..i], u[i + 1..];
      assert u == head + "\n" + tail;
      assert u + v == head + "\n" + (tail + v);
      SplitAfterFirstLine(head, tail);
      SplitAfterFirstLine(head, tail + v);
      SplitConcat(tail, v);
      var st := SplitLines(tail);
      var su := SplitLines(u);
      assert su[..|su| - 1] == [head] + st[..|st| - 1];
    }
  }

  predicate OccursAt(s: string, pattern: string, q: nat) {
    q + |pattern| <= |s| && s[q..q + |pattern|] == pattern
  }

  /** The first index at or after `from` where `pattern` occurs in `s`. */
  function FindFrom(s: string, pattern: string, from: nat): (r: Option<nat>)
    requires |pattern| > 0
    ensures r.Some? ==> from <= r.value && OccursAt(s, pattern, r.value)
    decreases |s| - from
  {
    if from + |pattern| > |s| then None
    else if OccursAt(s, pattern, from) then Some(from)
    else FindFrom(s, pattern, from + 1)
  }

  /** `FindFrom` finds the first occurrence: none lies between `from` and
      the index found, and none at all after `from` when nothing is found. */
  lemma {:induction false} FindFromIsFirst(s: string, pattern: string, from: nat, q: nat)
    requires |pattern| > 0 && from <= q
    requires FindFrom(s, pattern, from).None? || q < FindFrom(s, pattern, from).value
    ensures !OccursAt(s, pattern, q)
    decreases |s| - from
  {
    if from + |pattern| <= |s| && !OccursAt(s, pattern, from) && from < q {
      FindFromIsFirst(s, pattern, from + 1, q);
    }
  }
}
