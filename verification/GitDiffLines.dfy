/**
  What the diff parser reads in a line, by the text of the line: shell words,
  paths, hunk headers and line ends, each against a grammar of its own.
 */
module GitDiffLines {
  import opened Wrappers
  import opened Text
  import opened GitDiff
  import opened GitDiffMarks

  // ---- lines ----

  // The code points that end a line, as Python's `str.splitlines` has them.
  lemma LineEndsAre(c: char)
    ensures EndsLine(c) <==> c as int in {10, 11, 12, 13, 28, 29, 30, 133, 8232, 8233}
  {
  }

  // The last line needs no end; an empty one is none.
  lemma LastLineIsRead(text: string, last: string)
    requires OneLine(last)
    ensures SplitLines(text + "\n" + last) == SplitLines(text + "\n") + if last == "" then [] else [last]
    ensures SplitLines(last) == if last == "" then [] else [last]
  {
    SplitAtNewline(text, last, "");
    LineReadsOn(last, "", "");
    assert last + "" == last && "" + last == last;
  }

  // ---- shell words ----

  // Inside double quotes: a character, or one after a backslash.
  datatype Item = Char(c: char) | Slashed(c: char)

  datatype Part = Bare(c: char) | Escape(c: char) | Single(text: string) | Double(items: seq<Item>)

  predicate IsItem(item: Item) {
    item.Char? ==> item.c != '"' && item.c != '\\'
  }

  predicate IsPart(part: Part) {
    match part
    case Bare(c) => c !in " \t\r\n'\"\\"
    case Escape(_) => true
    case Single(text) => '\'' !in text
    case Double(items) => forall i :: 0 <= i < |items| ==> IsItem(items[i])
  }

  function WriteItem(item: Item): string {
    if item.Char? then [item.c] else ['\\', item.c]
  }

  // A backslash in double quotes escapes only itself and the quote.
  function ItemMeans(item: Item): string {
    if item.Char? || item.c == '"' || item.c == '\\' then [item.c] else ['\\', item.c]
  }

  function WriteItems(items: seq<Item>): string {
    if items == [] then "" else WriteItem(items[0]) + WriteItems(items[1..])
  }

  function ItemsMean(items: seq<Item>): string {
    if items == [] then "" else ItemMeans(items[0]) + ItemsMean(items[1..])
  }

  function WritePart(part: Part): string {
    match part
    case Bare(c) => [c]
    case Escape(c) => ['\\', c]
    case Single(text) => ['\''] + text + ['\'']
    case Double(items) => ['"'] + WriteItems(items) + ['"']
  }

  function PartMeans(part: Part): string {
    match part
    case Bare(c) => [c]
    case Escape(c) => [c]
    case Single(text) => text
    case Double(items) => ItemsMean(items)
  }

  predicate IsWord(parts: seq<Part>) {
    parts != [] && forall i :: 0 <= i < |parts| ==> IsPart(parts[i])
  }

  function WriteParts(parts: seq<Part>): string {
    if parts == [] then "" else WritePart(parts[0]) + WriteParts(parts[1..])
  }

  function PartsMean(parts: seq<Part>): string {
    if parts == [] then "" else PartMeans(parts[0]) + PartsMean(parts[1..])
  }

  predicate HasQuotes(parts: seq<Part>) {
    exists i :: 0 <= i < |parts| && (parts[i].Single? || parts[i].Double?)
  }

  lemma {:induction false} SingleIsRead(text: string, rest: string, word: string, quoted: bool)
    requires '\'' !in text
    ensures Words(text + ['\''] + rest, InQuotes('\''), word, quoted) == Words(rest, InWord, word + text, quoted)
  {
    var all := text + ['\''] + rest;
    if text == "" {
      assert all[0] == '\'' && all[1..] == rest && word + text == word;
    } else {
      assert all[1..] == text[1..] + ['\''] + rest;
      SingleIsRead(text[1..], rest, word + [text[0]], quoted);
      assert word + [text[0]] + text[1..] == word + text;
    }
  }

  lemma ItemIsRead(item: Item, more: string, word: string, quoted: bool)
    requires IsItem(item)
    ensures Words(WriteItem(item) + more, InQuotes('"'), word, quoted) ==
      Words(more, InQuotes('"'), word + ItemMeans(item), quoted)
  {
    var text := WriteItem(item) + more;
    if item.Char? {
      assert text[1..] == more;
    } else {
      assert text[1..] == [item.c] + more && text[1..][1..] == more;
    }
  }

  lemma {:induction false} ItemsAreRead(items: seq<Item>, rest: string, word: string, quoted: bool)
    requires forall i :: 0 <= i < |items| ==> IsItem(items[i])
    ensures Words(WriteItems(items) + rest, InQuotes('"'), word, quoted) ==
      Words(rest, InQuotes('"'), word + ItemsMean(items), quoted)
  {
    if items == [] {
      assert "" + rest == rest && word + "" == word;
    } else {
      var first, others := items[0], items[1..];
      ItemsAreRead(others, rest, word + ItemMeans(first), quoted);
      assert word + ItemMeans(first) + ItemsMean(others) == word + ItemsMean(items);
      ItemIsRead(first, WriteItems(others) + rest, word, quoted);
      assert WriteItems(items) + rest == WriteItem(first) + (WriteItems(others) + rest);
    }
  }

  lemma SingleIsAPart(inner: string, rest: string, word: string, quoted: bool)
    requires '\'' !in inner
    ensures Words(['\''] + inner + ['\''] + rest, InWord, word, quoted) == Words(rest, InWord, word + inner, true)
  {
    var text := ['\''] + inner + ['\''] + rest;
    assert text[1..] == inner + ['\''] + rest;
    SingleIsRead(inner, rest, word, true);
  }

  lemma DoubleIsAPart(items: seq<Item>, rest: string, word: string, quoted: bool)
    requires forall i :: 0 <= i < |items| ==> IsItem(items[i])
    ensures Words(['"'] + WriteItems(items) + ['"'] + rest, InWord, word, quoted) ==
      Words(rest, InWord, word + ItemsMean(items), true)
  {
    var text := ['"'] + WriteItems(items) + ['"'] + rest;
    assert text[1..] == WriteItems(items) + (['"'] + rest);
    ItemsAreRead(items, ['"'] + rest, word, true);
    assert (['"'] + rest)[1..] == rest;
  }

  lemma CharIsAPart(c: char, rest: string, word: string, quoted: bool)
    ensures c !in " \t\r\n'\"\\" ==> Words([c] + rest, InWord, word, quoted) == Words(rest, InWord, word + [c], quoted)
    ensures Words(['\\', c] + rest, InWord, word, quoted) == Words(rest, InWord, word + [c], quoted)
  {
    assert ([c] + rest)[1..] == rest;
    var text := ['\\', c] + rest;
    assert text[1..] == [c] + rest;
  }

  // A part adds its meaning to the word under way.
  lemma PartIsRead(part: Part, rest: string, word: string, quoted: bool)
    requires IsPart(part)
    ensures Words(WritePart(part) + rest, InWord, word, quoted) ==
      Words(rest, InWord, word + PartMeans(part), quoted || part.Single? || part.Double?)
  {
    match part
    case Bare(c) => CharIsAPart(c, rest, word, quoted);
    case Escape(c) => CharIsAPart(c, rest, word, quoted);
    case Single(inner) => SingleIsAPart(inner, rest, word, quoted);
    case Double(items) => DoubleIsAPart(items, rest, word, quoted);
  }

  // Between words the first part begins one.
  lemma FirstPartIsRead(part: Part, rest: string)
    requires IsPart(part)
    ensures Words(WritePart(part) + rest, Between, "", false) == Words(WritePart(part) + rest, InWord, "", false)
  {
    var text := WritePart(part) + rest;
    if part.Bare? {
      assert "" + [part.c] == [part.c];
    }
  }

  lemma {:induction false} PartsAreRead(parts: seq<Part>, rest: string, word: string, quoted: bool)
    requires forall i :: 0 <= i < |parts| ==> IsPart(parts[i])
    ensures Words(WriteParts(parts) + rest, InWord, word, quoted) ==
      Words(rest, InWord, word + PartsMean(parts), quoted || HasQuotes(parts))
  {
    if parts == [] {
      assert "" + rest == rest && word + "" == word;
    } else {
      var first, others := parts[0], parts[1..];
      assert WriteParts(parts) + rest == WritePart(first) + (WriteParts(others) + rest);
      PartIsRead(first, WriteParts(others) + rest, word, quoted);
      PartsAreRead(others, rest, word + PartMeans(first), quoted || first.Single? || first.Double?);
      assert word + PartMeans(first) + PartsMean(others) == word + PartsMean(parts);
      QuotesOf(parts);
    }
  }

  lemma QuotesOf(parts: seq<Part>)
    requires parts != []
    ensures HasQuotes(parts) <==> parts[0].Single? || parts[0].Double? || HasQuotes(parts[1..])
  {
    if HasQuotes(parts[1..]) {
      var i :| 0 <= i < |parts| - 1 && (parts[1..][i].Single? || parts[1..][i].Double?);
      assert parts[i + 1] == parts[1..][i];
    }
    if HasQuotes(parts) {
      var i :| 0 <= i < |parts| && (parts[i].Single? || parts[i].Double?);
      assert i > 0 ==> parts[1..][i - 1] == parts[i];
    }
  }

  // A word is never lost: it has a character, or quotes around nothing.
  lemma {:induction false} WordIsThere(parts: seq<Part>)
    requires IsWord(parts)
    ensures PartsMean(parts) != "" || HasQuotes(parts)
  {
    if parts[0].Single? || parts[0].Double? {
      assert HasQuotes(parts);
    }
  }

  // Words with the blanks before each.
  datatype Spaced = Spaced(gap: string, parts: seq<Part>)

  predicate IsGap(s: string) {
    forall i :: 0 <= i < |s| ==> s[i] in " \t\r\n"
  }

  predicate IsLine(line: seq<Spaced>) {
    && (forall i :: 0 <= i < |line| ==> IsGap(line[i].gap) && IsWord(line[i].parts))
    && forall i :: 0 < i < |line| ==> line[i].gap != ""
  }

  function WriteLine(line: seq<Spaced>, end: string): string {
    if line == [] then end else line[0].gap + (WriteParts(line[0].parts) + WriteLine(line[1..], end))
  }

  function LineMeans(line: seq<Spaced>): seq<string> {
    if line == [] then [] else [PartsMean(line[0].parts)] + LineMeans(line[1..])
  }

  lemma {:induction false} GapIsSkipped(gap: string, rest: string)
    requires IsGap(gap)
    ensures Words(gap + rest, Between, "", false) == Words(rest, Between, "", false)
  {
    if gap == "" {
      assert gap + rest == rest;
    } else {
      assert (gap + rest)[1..] == gap[1..] + rest;
      GapIsSkipped(gap[1..], rest);
    }
  }

  // A blank or the end of the text ends the word.
  lemma WordEndsThere(rest: string, word: string, quoted: bool)
    requires word != "" || quoted
    requires rest == "" || rest[0] in " \t\r\n"
    requires Words(rest, Between, "", false).Some?
    ensures Words(rest, InWord, word, quoted) == Some([word] + Words(rest, Between, "", false).value)
  {
    if rest == "" {
      assert [word] + [] == [word];
    }
  }

  lemma WordIsRead(parts: seq<Part>, rest: string)
    requires IsWord(parts)
    ensures Words(WriteParts(parts) + rest, Between, "", false) ==
      Words(rest, InWord, PartsMean(parts), HasQuotes(parts))
  {
    var others := WriteParts(parts[1..]) + rest;
    assert WriteParts(parts) + rest == WritePart(parts[0]) + others;
    FirstPartIsRead(parts[0], others);
    PartsAreRead(parts, rest, "", false);
    assert "" + PartsMean(parts) == PartsMean(parts);
  }

  // Words written with any of the shell's quotations, blanks between them, are
  // read as what they mean.
  lemma {:induction false} WrittenWordsAreRead(line: seq<Spaced>, end: string)
    requires IsLine(line) && IsGap(end)
    ensures ShellWords(WriteLine(line, end)) == Some(LineMeans(line))
  {
    if line == [] {
      GapIsSkipped(end, "");
      assert end + "" == end;
    } else {
      var parts, rest := line[0].parts, WriteLine(line[1..], end);
      WrittenWordsAreRead(line[1..], end);
      GapIsSkipped(line[0].gap, WriteParts(parts) + rest);
      WordIsRead(parts, rest);
      WordIsThere(parts);
      assert rest != "" ==> rest[0] in " \t\r\n" by {
        if |line| > 1 {
          assert line[1].gap != "" && rest[0] == line[1].gap[0];
        }
      }
      WordEndsThere(rest, PartsMean(parts), HasQuotes(parts));
    }
  }

  // What is begun in a word and left open at the end of the text.
  datatype Unfinished = OpenSingle(text: string) | OpenDouble(items: seq<Item>, slash: bool) | OpenSlash

  predicate IsUnfinished(open: Unfinished) {
    match open
    case OpenSingle(text) => '\'' !in text
    case OpenDouble(items, _) => forall i :: 0 <= i < |items| ==> IsItem(items[i])
    case OpenSlash => true
  }

  function WriteOpen(open: Unfinished): string {
    match open
    case OpenSingle(text) => ['\''] + text
    case OpenDouble(items, slash) => ['"'] + WriteItems(items) + if slash then ['\\'] else []
    case OpenSlash => ['\\']
  }

  lemma {:induction false} OpenSingleFails(text: string, word: string, quoted: bool)
    requires '\'' !in text
    ensures Words(text, InQuotes('\''), word, quoted).None?
  {
    if text != "" {
      OpenSingleFails(text[1..], word + [text[0]], quoted);
    }
  }

  lemma OpenFails(open: Unfinished, word: string, quoted: bool)
    requires IsUnfinished(open)
    ensures Words(WriteOpen(open), InWord, word, quoted).None? && Words(WriteOpen(open), Between, "", false).None?
  {
    var text := WriteOpen(open);
    match open
    case OpenSingle(inner) =>
      assert text[1..] == inner;
      OpenSingleFails(inner, word, true);
      OpenSingleFails(inner, "", true);
    case OpenDouble(items, slash) =>
      var end := if slash then ['\\'] else [];
      assert text[1..] == WriteItems(items) + end;
      ItemsAreRead(items, end, word, true);
      ItemsAreRead(items, end, "", true);
      assert slash ==> end[1..] == "";
    case OpenSlash => assert text[1..] == "";
  }

  // An open quotation or escape at the end makes the whole text unreadable,
  // whether it begins a word or goes on with one.
  lemma {:induction false} UnfinishedWordsFail(line: seq<Spaced>, gap: string, open: Unfinished)
    requires IsLine(line) && IsGap(gap) && IsUnfinished(open)
    ensures ShellWords(WriteLine(line, gap + WriteOpen(open))).None?
  {
    var end := gap + WriteOpen(open);
    if line == [] {
      OpenFails(open, "", false);
      GapIsSkipped(gap, WriteOpen(open));
    } else {
      var parts, rest := line[0].parts, WriteLine(line[1..], end);
      GapIsSkipped(line[0].gap, WriteParts(parts) + rest);
      WordIsRead(parts, rest);
      if |line| > 1 {
        UnfinishedWordsFail(line[1..], gap, open);
        assert rest[0] == line[1].gap[0];
      } else if gap == "" {
        assert rest == WriteOpen(open);
        OpenFails(open, PartsMean(parts), HasQuotes(parts));
      } else {
        UnfinishedWordsFail([], gap, open);
        assert rest == end && end[0] == gap[0];
      }
    }
  }

  // ---- paths ----

  function Joined(segments: seq<string>): string
    requires segments != []
  {
    if |segments| == 1 then segments[0] else segments[0] + "/" + Joined(segments[1..])
  }

  // The segments are what stands between the slashes.
  lemma {:induction false} SegmentsJoin(s: string)
    ensures Joined(Segments(s)) == s
    ensures forall i :: 0 <= i < |Segments(s)| ==> '/' !in Segments(s)[i]
  {
    if s != "" {
      var rest := Segments(s[1..]);
      SegmentsJoin(s[1..]);
      if s[0] == '/' {
        assert ([""] + rest)[1..] == rest;
        assert "" + "/" + s[1..] == s;
      } else {
        var all := [[s[0]] + rest[0]] + rest[1..];
        assert all[1..] == rest[1..];
        if |rest| == 1 {
          assert [s[0]] + rest[0] == s;
        } else {
          assert [s[0]] + rest[0] + "/" + Joined(rest[1..]) == [s[0]] + (rest[0] + "/" + Joined(rest[1..])) == s;
        }
      }
    }
  }

  // A path is taken with slashes for backslashes and without one leading `a/` or
  // `b/`; refused if nothing is left, if it is absolute or has a segment `..`.
  lemma NormalizesExactly(value: string, slashed: string, name: string)
    requires |slashed| == |value|
    requires forall i :: 0 <= i < |value| ==> slashed[i] == if value[i] == '\\' then '/' else value[i]
    ensures NormalizePath(value) == Some(name) <==>
      && (if |slashed| >= 2 && slashed[0] in "ab" && slashed[1] == '/' then name == slashed[2..] else name == slashed)
      && name != "" && name[0] != '/' && ".." !in Segments(name)
  {
    assert WithSlashes(value) == slashed;
    if |slashed| >= 2 {
      assert slashed[..2] == [slashed[0], slashed[1]];
    }
  }

  // ---- hunk headers ----

  predicate IsNumber(s: string) {
    s != "" && AllDigits(s)
  }

  ghost predicate SaysTwo(text: string, first: nat, count: nat) {
    exists d, e :: IsNumber(d) && IsNumber(e) && text == d + ("," + e) && NumberOf(d) == first && NumberOf(e) == count
  }

  // A number, or two with a comma between; the second is the count, else one.
  ghost predicate SaysRange(text: string, first: nat, count: nat) {
    || (IsNumber(text) && NumberOf(text) == first && count == 1)
    || SaysTwo(text, first, count)
  }

  // The new side and what follows it.
  ghost predicate IsNewSide(side: string, start: nat, count: nat) {
    exists right, heading :: side == " +" + (right + (" @@" + heading)) && SaysRange(right, start, count)
  }

  // `@@ -`, a range for the old side, and the new side.
  ghost predicate IsHunkHeader(line: string, start: nat, count: nat) {
    exists left, side, leftStart: nat, leftCount: nat ::
      line == "@@ -" + (left + side) && SaysRange(left, leftStart, leftCount) && IsNewSide(side, start, count)
  }

  function CountOf(r: Range): nat {
    if r.second.Some? then r.second.value else 1
  }

  lemma RunIs(d: string, rest: string)
    requires IsNumber(d) && (rest == "" || !IsDigit(rest[0]))
    ensures DigitRun(d + rest) == |d| && (d + rest)[..|d|] == d && (d + rest)[|d|..] == rest
  {
    DigitRunStops(d, rest);
  }

  lemma OneNumberIsRead(d: string, rest: string)
    requires IsNumber(d) && rest != "" && rest[0] == ' '
    ensures ParseRange(d + rest) == Some(Range(NumberOf(d), None, rest))
  {
    RunIs(d, rest);
  }

  lemma TwoNumbersAreRead(d: string, e: string, rest: string)
    requires IsNumber(d) && IsNumber(e) && rest != "" && rest[0] == ' '
    ensures ParseRange(d + ("," + e) + rest) == Some(Range(NumberOf(d), Some(NumberOf(e)), rest))
  {
    var tail := "," + (e + rest);
    assert d + ("," + e) + rest == d + tail;
    RunIs(d, tail);
    assert tail[1..] == e + rest;
    RunIs(e, rest);
  }

  lemma RangeIsRead(text: string, first: nat, count: nat, rest: string)
    requires SaysRange(text, first, count) && rest != "" && rest[0] == ' '
    ensures var r := ParseRange(text + rest);
      r.Some? && r.value.first == first && CountOf(r.value) == count && r.value.rest == rest
  {
    if SaysTwo(text, first, count) {
      var d, e :| IsNumber(d) && IsNumber(e) && text == d + ("," + e) && NumberOf(d) == first && NumberOf(e) == count;
      TwoNumbersAreRead(d, e, rest);
    } else {
      OneNumberIsRead(text, rest);
    }
  }

  lemma RangeSays(s: string)
    requires ParseRange(s).Some?
    ensures var r := ParseRange(s).value;
      |r.rest| <= |s| && s[|s| - |r.rest|..] == r.rest
      && SaysRange(s[..|s| - |r.rest|], r.first, CountOf(r))
  {
    var n, r := DigitRun(s), ParseRange(s).value;
    if r.second.Some? {
      var m := DigitRun(s[n..][1..]);
      var d, e := s[..n], s[n..][1..][..m];
      var k := n + 1 + m;
      assert s[n..][1..][m..] == s[k..] && e == s[n + 1..k];
      assert s[..k] == d + ("," + e);
      assert IsNumber(d) && IsNumber(e);
      assert SaysTwo(s[..k], r.first, CountOf(r));
    }
  }

  lemma StartSplits(s: string, start: string)
    requires StartsWith(s, start)
    ensures s == start + s[|start|..]
  {
  }

  lemma SideIsRead(side: string, start: nat, count: nat)
    requires IsNewSide(side, start, count)
    ensures ParseNewSide(side) == Some((start, count))
  {
    var right, heading :| side == " +" + (right + (" @@" + heading)) && SaysRange(right, start, count);
    var end := " @@" + heading;
    RangeIsRead(right, start, count, end);
    assert side[2..] == right + end && side[..2] == " +" && end[..3] == " @@";
  }

  lemma HunkIsRead(line: string, start: nat, count: nat)
    requires IsHunkHeader(line, start, count)
    ensures ParseHunk(line) == Some((start, count))
  {
    var left, side, leftStart: nat, leftCount: nat :|
      line == "@@ -" + (left + side) && SaysRange(left, leftStart, leftCount) && IsNewSide(side, start, count);
    SideIsRead(side, start, count);
    assert side[0] == ' ';
    RangeIsRead(left, leftStart, leftCount, side);
    assert line[4..] == left + side && line[..4] == "@@ -";
  }

  // What a text starts with, the middle, and what it ends with.
  lemma ThreeParts(s: string, start: string, rest: string)
    requires StartsWith(s, start) && |rest| <= |s| - |start| && s[|s| - |rest|..] == rest
    ensures s == start + (s[|start|..|s| - |rest|] + rest)
  {
  }

  lemma SideSays(side: string)
    requires ParseNewSide(side).Some?
    ensures IsNewSide(side, ParseNewSide(side).value.0, ParseNewSide(side).value.1)
  {
    var end := ParseRange(side[2..]).value.rest;
    RangeSays(side[2..]);
    StartSplits(end, " @@");
    ThreeParts(side, " +", end);
    assert side[2..|side| - |end|] == side[2..][..|side| - 2 - |end|];
  }

  lemma LeftSays(line: string)
    requires StartsWith(line, "@@ -") && ParseRange(line[4..]).Some?
    ensures var r := ParseRange(line[4..]).value;
      exists left :: line == "@@ -" + (left + r.rest) && SaysRange(left, r.first, CountOf(r))
  {
    var side := ParseRange(line[4..]).value.rest;
    RangeSays(line[4..]);
    ThreeParts(line, "@@ -", side);
    assert line[4..|line| - |side|] == line[4..][..|line| - 4 - |side|];
  }

  lemma HunkIsHeader(line: string)
    requires ParseHunk(line).Some?
    ensures IsHunkHeader(line, ParseHunk(line).value.0, ParseHunk(line).value.1)
  {
    var r := ParseRange(line[4..]).value;
    LeftSays(line);
    SideSays(r.rest);
    var left :| line == "@@ -" + (left + r.rest) && SaysRange(left, r.first, CountOf(r));
  }

  // A line is a hunk header exactly if it has the form of one; the new side's
  // start and count are what it says.
  lemma HunkExactly(line: string, start: nat, count: nat)
    ensures ParseHunk(line) == Some((start, count)) <==> IsHunkHeader(line, start, count)
  {
    if ParseHunk(line).Some? {
      HunkIsHeader(line);
    }
    if IsHunkHeader(line, start, count) {
      HunkIsRead(line, start, count);
    }
  }

  // ---- the mark of a line ----

  // `diff --git`: the last of four words or more names the file; with fewer words
  // no file is named any more.
  lemma FirstLineMarks(rest: string)
    ensures var words := ShellWords("diff --git " + rest);
      LineMarks("diff --git " + rest) ==
        if words.None? then [Fails(BadQuoting)]
        else if |words.value| in {0, 1, 2, 3} then [Deselects]
        else [NameMark(words.value[|words.value| - 1])]
  {
  }

  lemma NameLineMarks(rest: string)
    ensures LineMarks("+++ " + rest) == if rest == "/dev/null" then [] else [NameMark(rest)]
  {
    assert ("+++ " + rest)[4..] == rest;
  }

  lemma NamesExactly(value: string)
    ensures NameMark(value) == if NormalizePath(value).Some? then Names(NormalizePath(value).value) else Fails(BadPath)
  {
  }

  // A hunk header covers its count of lines from its start on.
  lemma HunkMarks(line: string, start: nat, count: nat)
    requires ParseHunk(line) == Some((start, count))
    ensures LineMarks(line) == [Covers(Span(start, count))]
  {
    HunkStarts(line);
  }

  lemma HunkStarts(line: string)
    requires ParseHunk(line).Some?
    ensures !StartsWith(line, "diff --git ") && !StartsWith(line, "+++ ")
  {
    assert line[0] == '@';
  }

  lemma SpanIs(start: nat, count: nat)
    ensures |Span(start, count)| == count && forall i :: 0 <= i < count ==> Span(start, count)[i] == start + i
  {
  }

  lemma OtherLinesSayNothing(line: string)
    requires forall rest :: line != "diff --git " + rest && line != "+++ " + rest
    requires forall start: nat, count: nat :: !IsHunkHeader(line, start, count)
    ensures LineMarks(line) == []
  {
    if StartsWith(line, "diff --git ") {
      StartSplits(line, "diff --git ");
    }
    if StartsWith(line, "+++ ") {
      StartSplits(line, "+++ ");
    }
    if ParseHunk(line).Some? {
      HunkIsHeader(line);
    }
  }

  // What comes out of a text without a refusal: the files named, in the order of
  // their first mention, and for each the lines credited to it, in order and once.
  lemma AnswerIs(text: string)
    ensures var marks := Marks(SplitLines(text));
      match Parsed(text)
      case Err(error) => Failure(marks) == Some(error)
      case Ok(diff) =>
        && Failure(marks).None?
        && diff.files == Mentioned(marks)
        && (forall file :: file in diff.lines <==> file in diff.files)
        && forall file :: file in diff.lines ==>
             && Increasing(diff.lines[file])
             && forall line :: line in diff.lines[file] <==> line in Credited(marks, file)
  {
    TextIsRead(text);
    var marks := Marks(SplitLines(text));
    forall file
      ensures Increasing(SortedSet(Credited(marks, file)))
      ensures forall line :: line in SortedSet(Credited(marks, file)) <==> line in Credited(marks, file)
    {
      SortedSetIsSorted(Credited(marks, file));
    }
  }
}
