/** The diff parser of pr_analysis/git_diff.py and the line splitting it relies on. */
module GitDiff {
  import opened Wrappers
  import opened Text

  datatype DiffError = BadPath | BadQuoting

  datatype Diff = Diff(files: seq<string>, lines: map<string, seq<nat>>)

  // ---- lists put together ----

  function Gathered<A, B>(items: seq<A>, of: A -> seq<B>): seq<B> {
    if items == [] then [] else Gathered(items[..|items| - 1], of) + of(items[|items| - 1])
  }

  lemma OneMoreGathered<A, B>(items: seq<A>, front: seq<A>, last: A, of: A -> seq<B>)
    requires items == front + [last]
    ensures Gathered(items, of) == Gathered(front, of) + of(last)
  {
    assert items[..|items| - 1] == front;
  }

  lemma {:induction false} GatheringGoesOn<A, B>(a: seq<A>, b: seq<A>, of: A -> seq<B>)
    ensures Gathered(a + b, of) == Gathered(a, of) + Gathered(b, of)
    decreases |b|
  {
    if b == [] {
      assert a + b == a;
    } else {
      var front, last := b[..|b| - 1], b[|b| - 1];
      GatheringGoesOn(a, front, of);
      OneMoreGathered(a + b, a + front, last, of);
      OneMoreGathered(b, front, last, of);
    }
  }

  lemma {:induction false} GatheredHas<A, B>(items: seq<A>, of: A -> seq<B>, b: B)
    ensures b in Gathered(items, of) <==> exists i :: 0 <= i < |items| && b in of(items[i])
  {
    if items != [] {
      var front, last := items[..|items| - 1], items[|items| - 1];
      GatheredHas(front, of, b);
      assert items == front + [last];
      if b in Gathered(front, of) {
        var i :| 0 <= i < |front| && b in of(front[i]);
        assert b in of(items[i]);
      }
      if i :| 0 <= i < |items| && b in of(items[i]) {
        assert i == |items| - 1 || b in of(front[i]);
      }
    }
  }

  // The state after all items, or the first error on the way.
  function Folded<S, T, E>(state: S, items: seq<T>, step: (S, T) -> Result<S, E>): Result<S, E> {
    if items == [] then Ok(state)
    else
      var before := Folded(state, items[..|items| - 1], step);
      if before.Err? then before else step(before.value, items[|items| - 1])
  }

  lemma OneMoreFolded<S, T, E>(state: S, items: seq<T>, n: nat, step: (S, T) -> Result<S, E>)
    requires n < |items|
    ensures var before := Folded(state, items[..n], step);
      Folded(state, items[..n + 1], step) == if before.Err? then before else step(before.value, items[n])
  {
    assert items[..n + 1][..n] == items[..n];
  }

  lemma {:induction false} FoldingStops<S, T, E>(state: S, items: seq<T>, m: nat, n: nat, step: (S, T) -> Result<S, E>)
    requires m <= n <= |items| && Folded(state, items[..m], step).Err?
    ensures Folded(state, items[..n], step) == Folded(state, items[..m], step)
  {
    if m < n {
      FoldingStops(state, items, m, n - 1, step);
      OneMoreFolded(state, items, n - 1, step);
    }
  }

  // ---- str.splitlines ----

  // The characters that end a line.
  predicate EndsLine(c: char) {
    '\n' <= c <= '\r' || '\U{1c}' <= c <= '\U{1e}' || c == '\U{85}' || c == '\U{2028}' || c == '\U{2029}'
  }

  // The lines of `text`, the first of which begins with `line`.
  function SplitFrom(text: string, line: string): (lines: seq<string>)
    ensures text != "" ==> lines != []
  {
    if text == "" then if line == "" then [] else [line]
    else if text[0] == '\r' && |text| > 1 && text[1] == '\n' then [line] + SplitFrom(text[2..], "")
    else if EndsLine(text[0]) then [line] + SplitFrom(text[1..], "")
    else SplitFrom(text[1..], line + [text[0]])
  }

  function SplitLines(text: string): seq<string> {
    SplitFrom(text, "")
  }

  function Unlines(lines: seq<string>): string {
    if lines == [] then "" else lines[0] + "\n" + Unlines(lines[1..])
  }

  predicate OneLine(s: string) {
    forall i :: 0 <= i < |s| ==> !EndsLine(s[i])
  }

  lemma {:induction false} SplitReadsOn(s: string, rest: string, line: string)
    requires OneLine(s)
    ensures SplitFrom(s + "\n" + rest, line) == [line + s] + SplitFrom(rest, "")
  {
    var text := s + "\n" + rest;
    if s == "" {
      assert text == "\n" + rest && text[1..] == rest && line + s == line;
    } else {
      assert text[1..] == s[1..] + "\n" + rest;
      SplitReadsOn(s[1..], rest, line + [s[0]]);
      assert line + [s[0]] + s[1..] == line + s;
    }
  }

  lemma {:induction false} SplitUndoesUnlines(lines: seq<string>)
    requires forall i :: 0 <= i < |lines| ==> OneLine(lines[i])
    ensures SplitLines(Unlines(lines)) == lines
  {
    if lines != [] {
      SplitReadsOn(lines[0], Unlines(lines[1..]), "");
      assert "" + lines[0] == lines[0];
      SplitUndoesUnlines(lines[1..]);
    }
  }

  // The lines that splitting makes of one line of text and its newline.
  function Pieces(s: string): (pieces: seq<string>)
    ensures pieces != []
  {
    SplitLines(s + "\n")
  }

  function AllPieces(lines: seq<string>): seq<string> {
    Gathered(lines, Pieces)
  }

  lemma {:induction false} SplitAtNewline(s: string, rest: string, line: string)
    ensures SplitFrom(s + "\n" + rest, line) == SplitFrom(s + "\n", line) + SplitFrom(rest, "")
    decreases |s|
  {
    var text, head := s + "\n" + rest, s + "\n";
    if s == "" {
      assert text == "\n" + rest && text[1..] == rest && head[1..] == "";
    } else if s == "\r" {
      assert text[2..] == rest && head[2..] == "";
    } else if s[0] == '\r' && s[1] == '\n' {
      assert text[2..] == s[2..] + "\n" + rest && head[2..] == s[2..] + "\n";
      SplitAtNewline(s[2..], rest, "");
    } else {
      assert text[1..] == s[1..] + "\n" + rest && head[1..] == s[1..] + "\n";
      SplitAtNewline(s[1..], rest, if EndsLine(s[0]) then "" else line + [s[0]]);
    }
  }

  lemma PiecesGoOn(a: seq<string>, b: seq<string>)
    ensures AllPieces(a + b) == AllPieces(a) + AllPieces(b)
  {
    GatheringGoesOn(a, b, Pieces);
  }

  lemma OnePieces(s: string)
    ensures AllPieces([s]) == Pieces(s)
  {
    OneMoreGathered([s], [], s, Pieces);
  }

  // Whatever the lines hold, splitting the joined text splits each of them.
  lemma {:induction false} SplitsEachLine(lines: seq<string>)
    ensures SplitLines(Unlines(lines)) == AllPieces(lines)
  {
    if lines != [] {
      SplitAtNewline(lines[0], Unlines(lines[1..]), "");
      SplitsEachLine(lines[1..]);
      OnePieces(lines[0]);
      PiecesGoOn([lines[0]], lines[1..]);
      assert [lines[0]] + lines[1..] == lines;
    }
  }

  // What is read before a text only makes its first line longer.
  lemma {:induction false} FirstPieceGrows(text: string, a: string, b: string)
    requires text != ""
    ensures SplitFrom(text, a + b) == [a + SplitFrom(text, b)[0]] + SplitFrom(text, b)[1..]
  {
    if !EndsLine(text[0]) {
      assert a + b + [text[0]] == a + (b + [text[0]]);
      if |text| > 1 {
        FirstPieceGrows(text[1..], a, b + [text[0]]);
      }
    }
  }

  lemma {:induction false} LineReadsOn(s: string, rest: string, line: string)
    requires OneLine(s)
    ensures SplitFrom(s + rest, line) == SplitFrom(rest, line + s)
  {
    if s == "" {
      assert s + rest == rest && line + s == line;
    } else {
      assert (s + rest)[1..] == s[1..] + rest;
      LineReadsOn(s[1..], rest, line + [s[0]]);
      assert line + [s[0]] + s[1..] == line + s;
    }
  }

  lemma PiecesAfter(s: string, text: string)
    requires OneLine(s)
    ensures Pieces(s + text) == [s + Pieces(text)[0]] + Pieces(text)[1..]
  {
    assert s + text + "\n" == s + (text + "\n");
    LineReadsOn(s, text + "\n", "");
    assert "" + s == s && s + "" == s;
    FirstPieceGrows(text + "\n", s, "");
  }

  lemma OneLineIsAPiece(s: string)
    requires OneLine(s)
    ensures Pieces(s) == [s]
  {
    SplitReadsOn(s, "", "");
    assert s + "\n" + "" == s + "\n" && "" + s == s;
  }

  // A line separator ends the first piece.
  lemma SeparatorSplits(s: string, c: char, text: string)
    requires OneLine(s) && EndsLine(c) && (text == "" || text[0] != '\n') && (c == '\r' ==> text != "")
    ensures Pieces(s + [c] + text) == [s] + Pieces(text)
  {
    assert s + [c] + text + "\n" == s + ([c] + (text + "\n"));
    LineReadsOn(s, [c] + (text + "\n"), "");
    assert "" + s == s;
    assert ([c] + (text + "\n"))[1..] == text + "\n";
  }

  // Universal newlines, as the standard output is read.
  function Translated(text: string): string {
    if text == "" then ""
    else if text[0] == '\r' then "\n" + Translated(if |text| > 1 && text[1] == '\n' then text[2..] else text[1..])
    else [text[0]] + Translated(text[1..])
  }

  // Reading the output that way changes nothing for the parser.
  lemma {:induction false} TranslationSplitsAlike(text: string, line: string)
    ensures SplitFrom(Translated(text), line) == SplitFrom(text, line)
    decreases |text|
  {
    if text != "" {
      var rest := if text[0] == '\r' && |text| > 1 && text[1] == '\n' then text[2..] else text[1..];
      var c := if text[0] == '\r' then '\n' else text[0];
      assert Translated(text) == [c] + Translated(rest);
      assert Translated(text)[1..] == Translated(rest);
      TranslationSplitsAlike(rest, if EndsLine(c) then "" else line + [c]);
    }
  }

  // ---- shlex.split ----

  datatype Mode = Between | InWord | InQuotes(quote: char) | Escaped(within: Option<char>)

  predicate IsBlankChar(c: char) {
    c == ' ' || c == '\t' || c == '\r' || c == '\n'
  }

  predicate IsQuote(c: char) {
    c == '\'' || c == '"'
  }

  // The shell words of s, read in the given mode with a word under way;
  // absent for a quotation or an escape left open.
  function Words(s: string, mode: Mode, word: string, quoted: bool): Option<seq<string>> {
    if s == "" then
      match mode
      case Between => Some([])
      case InWord => Some(if word != "" || quoted then [word] else [])
      case _ => None
    else
      var c, rest := s[0], s[1..];
      match mode
      case Between =>
        if IsBlankChar(c) then Words(rest, Between, "", false)
        else if c == '\\' then Words(rest, Escaped(None), "", false)
        else if IsQuote(c) then Words(rest, InQuotes(c), "", true)
        else Words(rest, InWord, [c], false)
      case InWord =>
        if IsBlankChar(c) then
          var others := Words(rest, Between, "", false);
          if others.None? then None else Some((if word != "" || quoted then [word] else []) + others.value)
        else if IsQuote(c) then Words(rest, InQuotes(c), word, true)
        else if c == '\\' then Words(rest, Escaped(None), word, quoted)
        else Words(rest, InWord, word + [c], quoted)
      case InQuotes(quote) =>
        if c == quote then Words(rest, InWord, word, quoted)
        else if c == '\\' && quote == '"' then Words(rest, Escaped(Some(quote)), word, quoted)
        else Words(rest, InQuotes(quote), word + [c], quoted)
      case Escaped(Some(quote)) =>
        Words(rest, InQuotes(quote), if c != '\\' && c != quote then word + ['\\', c] else word + [c], quoted)
      case Escaped(None) => Words(rest, InWord, word + [c], quoted)
  }

  function ShellWords(s: string): Option<seq<string>> {
    Words(s, Between, "", false)
  }

  predicate PlainChar(c: char) {
    !IsSpace(c) && !IsQuote(c) && c != '\\'
  }

  predicate IsPlain(s: string) {
    forall i :: 0 <= i < |s| ==> PlainChar(s[i])
  }

  lemma {:induction false} PlainReadsOn(s: string, rest: string, word: string)
    requires IsPlain(s)
    ensures Words(s + rest, InWord, word, false) == Words(rest, InWord, word + s, false)
  {
    if s == "" {
      assert s + rest == rest && word + s == word;
    } else {
      assert (s + rest)[1..] == s[1..] + rest;
      PlainReadsOn(s[1..], rest, word + [s[0]]);
      assert word + [s[0]] + s[1..] == word + s;
    }
  }

  lemma PlainIsAWord(s: string, rest: string)
    requires IsPlain(s) && s != ""
    ensures ShellWords(s) == Some([s])
    ensures ShellWords(rest).Some? ==> ShellWords(s + " " + rest) == Some([s] + ShellWords(rest).value)
  {
    assert [s[0]] + s[1..] == s;
    PlainReadsOn(s[1..], "", [s[0]]);
    assert s[1..] + "" == s[1..];
    var text := s + " " + rest;
    assert text[1..] == s[1..] + (" " + rest);
    PlainReadsOn(s[1..], " " + rest, [s[0]]);
    assert (" " + rest)[1..] == rest;
  }

  // ---- _normalize_path ----

  function Segments(s: string): seq<string>
    ensures |Segments(s)| > 0
  {
    if s == "" then [""]
    else
      var rest := Segments(s[1..]);
      if s[0] == '/' then [""] + rest else [[s[0]] + rest[0]] + rest[1..]
  }

  function WithSlashes(s: string): (r: string)
    ensures |r| == |s|
  {
    seq(|s|, i requires 0 <= i < |s| => if s[i] == '\\' then '/' else s[i])
  }

  predicate StaysInside(path: string) {
    path != "" && path[0] != '/' && ".." !in Segments(path)
  }

  function NormalizePath(value: string): Option<string> {
    var slashed := WithSlashes(value);
    var path := if StartsWith(slashed, "a/") || StartsWith(slashed, "b/") then slashed[2..] else slashed;
    if StaysInside(path) then Some(path) else None
  }

  lemma PlainPathNormalizes(path: string)
    requires IsPlain(path) && StaysInside(path)
    ensures NormalizePath("b/" + path) == Some(path)
  {
    assert WithSlashes("b/" + path) == "b/" + path;
    assert ("b/" + path)[2..] == path;
  }

  // ---- the hunk header ----

  function DigitRun(s: string): (n: nat)
    ensures n <= |s| && AllDigits(s[..n])
    ensures n < |s| ==> !IsDigit(s[n])
  {
    if s == "" || !IsDigit(s[0]) then 0 else 1 + DigitRun(s[1..])
  }

  datatype Range = Range(first: nat, second: Option<nat>, rest: string)

  // `\d+(?:,\d+)?` and what follows it.
  function ParseRange(s: string): Option<Range> {
    var n := DigitRun(s);
    if n == 0 then None
    else
      var rest := s[n..];
      if rest != "" && rest[0] == ',' && DigitRun(rest[1..]) > 0 then
        var m := DigitRun(rest[1..]);
        Some(Range(NumberOf(s[..n]), Some(NumberOf(rest[1..][..m])), rest[1..][m..]))
      else Some(Range(NumberOf(s[..n]), None, rest))
  }

  // ` \+(\d+)(?:,(\d+))? @@`: the start and count of the new side.
  function ParseNewSide(s: string): Option<(nat, nat)> {
    if !StartsWith(s, " +") then None
    else
      var after := ParseRange(s[2..]);
      if after.None? || !StartsWith(after.value.rest, " @@") then None
      else Some((after.value.first, if after.value.second.Some? then after.value.second.value else 1))
  }

  // The new-side start and count of a hunk header.
  function ParseHunk(line: string): Option<(nat, nat)> {
    if !StartsWith(line, "@@ -") then None
    else
      var before := ParseRange(line[4..]);
      if before.None? then None else ParseNewSide(before.value.rest)
  }

  function RangeText(first: nat, count: nat): string {
    if count == 1 then Digits(first) else Digits(first) + "," + Digits(count)
  }

  lemma {:induction false} DigitRunStops(s: string, rest: string)
    requires AllDigits(s) && (rest == "" || !IsDigit(rest[0]))
    ensures DigitRun(s + rest) == |s|
  {
    if s == "" {
      assert s + rest == rest;
    } else {
      assert (s + rest)[1..] == s[1..] + rest;
      DigitRunStops(s[1..], rest);
    }
  }

  lemma RangeReadsBack(first: nat, count: nat, rest: string)
    requires rest != "" && rest[0] == ' '
    ensures ParseRange(RangeText(first, count) + rest) ==
      Some(Range(first, if count == 1 then None else Some(count), rest))
  {
    DigitsReadBack(first);
    DigitsReadBack(count);
    var d := Digits(first);
    if count == 1 {
      DigitRunStops(d, rest);
      assert (d + rest)[..|d|] == d && (d + rest)[|d|..] == rest;
    } else {
      var e := Digits(count);
      var tail := "," + e + rest;
      assert d + "," + e + rest == d + tail;
      DigitRunStops(d, tail);
      assert (d + tail)[..|d|] == d && (d + tail)[|d|..] == tail;
      assert tail[1..] == e + rest;
      DigitRunStops(e, rest);
      assert (e + rest)[..|e|] == e && (e + rest)[|e|..] == rest;
    }
  }

  // ---- parse_git_diff ----

  datatype Parser = Parser(diff: Diff, current: Option<string>)

  const FRESH := Parser(Diff([], map[]), None)

  function Enter(p: Parser, file: string): Parser {
    if file in p.diff.files then p.(current := Some(file))
    else Parser(Diff(p.diff.files + [file],
                     if file in p.diff.lines then p.diff.lines else p.diff.lines[file := []]), Some(file))
  }

  function Span(start: nat, count: nat): seq<nat> {
    seq(count, i => start + i)
  }

  // More new-side lines for a file already listed.
  function Extend(p: Parser, file: string, more: seq<nat>): Parser
    requires file in p.diff.lines
  {
    p.(diff := p.diff.(lines := p.diff.lines[file := p.diff.lines[file] + more]))
  }

  // One line of the loop. A current file is always listed.
  function ParseLine(p: Parser, line: string): Result<Parser, DiffError> {
    if StartsWith(line, "diff --git ") then
      var words := ShellWords(line);
      if words.None? then Err(BadQuoting)
      else if |words.value| < 4 then Ok(p.(current := None))
      else
        var path := NormalizePath(words.value[|words.value| - 1]);
        if path.None? then Err(BadPath) else Ok(Enter(p, path.value))
    else if StartsWith(line, "+++ ") then
      if line[4..] == "/dev/null" then Ok(if p.current.Some? then Enter(p, p.current.value) else p)
      else
        var path := NormalizePath(line[4..]);
        if path.None? then Err(BadPath) else Ok(Enter(p, path.value))
    else
      var hunk := ParseHunk(line);
      if hunk.None? || p.current.None? || p.current.value !in p.diff.lines then Ok(p)
      else
        Ok(Extend(p, p.current.value, Span(hunk.value.0, hunk.value.1)))
  }

  function ParseLines(p: Parser, lines: seq<string>): Result<Parser, DiffError> {
    Folded(p, lines, ParseLine)
  }

  // ---- sorted(set(...)) ----

  predicate Increasing(s: seq<nat>) {
    forall i, j :: 0 <= i < j < |s| ==> s[i] < s[j]
  }

  // x put in its place in an increasing list, unless it is there.
  function Insert(s: seq<nat>, x: nat): seq<nat>
    decreases |s|
  {
    if s == [] then [x]
    else
      var n := |s| - 1;
      if s[n] < x then s + [x]
      else if s[n] == x then s
      else Insert(s[..n], x) + [s[n]]
  }

  function SortedSet(s: seq<nat>): seq<nat> {
    if s == [] then [] else Insert(SortedSet(s[..|s| - 1]), s[|s| - 1])
  }

  lemma AppendKeepsOrder(s: seq<nat>, x: nat)
    requires Increasing(s) && forall y :: y in s ==> y < x
    ensures Increasing(s + [x])
  {
    assert forall i :: 0 <= i < |s| ==> s[i] in s;
  }

  lemma {:induction false} InsertHolds(s: seq<nat>, x: nat, y: nat)
    ensures y in Insert(s, x) <==> y in s || y == x
    decreases |s|
  {
    if s != [] {
      var n := |s| - 1;
      InsertHolds(s[..n], x, y);
      assert s == s[..n] + [s[n]];
    }
  }

  lemma {:induction false} InsertKeepsOrder(s: seq<nat>, x: nat)
    requires Increasing(s)
    ensures Increasing(Insert(s, x))
    decreases |s|
  {
    if s != [] {
      var n := |s| - 1;
      if s[n] > x {
        InsertKeepsOrder(s[..n], x);
        forall y | y in Insert(s[..n], x)
          ensures y < s[n]
        {
          InsertHolds(s[..n], x, y);
        }
        AppendKeepsOrder(Insert(s[..n], x), s[n]);
      } else if s[n] < x {
        AppendKeepsOrder(s, x);
      }
    }
  }

  // The result is increasing and holds exactly the given numbers.
  lemma {:induction false} SortedSetIsSorted(s: seq<nat>)
    ensures Increasing(SortedSet(s)) && forall y :: y in SortedSet(s) <==> y in s
  {
    if s != [] {
      var n := |s| - 1;
      SortedSetIsSorted(s[..n]);
      InsertKeepsOrder(SortedSet(s[..n]), s[n]);
      assert s == s[..n] + [s[n]];
      forall y: nat
        ensures y in SortedSet(s) <==> y in SortedSet(s[..n]) || y == s[n]
      {
        InsertHolds(SortedSet(s[..n]), s[n], y);
      }
    }
  }

  lemma {:induction false} IncreasingStays(s: seq<nat>)
    requires Increasing(s)
    ensures SortedSet(s) == s
  {
    if s != [] {
      var n := |s| - 1;
      IncreasingStays(s[..n]);
      assert s == s[..n] + [s[n]];
    }
  }

  function Finished(d: Diff): Diff {
    Diff(d.files, map file | file in d.lines :: SortedSet(d.lines[file]))
  }

  function Parsed(text: string): Result<Diff, DiffError> {
    var p := ParseLines(FRESH, SplitLines(text));
    if p.Err? then Err(p.error) else Ok(Finished(p.value.diff))
  }

  // `parse_git_diff`
  method ParseGitDiff(text: string) returns (r: Result<Diff, DiffError>)
    ensures r == Parsed(text)
  {
    var lines := SplitLines(text);
    var p := FRESH;
    for i := 0 to |lines|
      invariant ParseLines(FRESH, lines[..i]) == Ok(p)
    {
      var next := ParseLine(p, lines[i]);
      OneMoreFolded(FRESH, lines, i, ParseLine);
      if next.Err? {
        FoldingStops(FRESH, lines, i + 1, |lines|, ParseLine);
        assert lines[..|lines|] == lines;
        return Err(next.error);
      }
      p := next.value;
    }
    assert lines[..|lines|] == lines;
    r := Ok(Finished(p.diff));
  }
}
