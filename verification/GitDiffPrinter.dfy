/** Git's zero-context layout, and what the parser makes of its single lines. */
module GitDiffPrinter {
  import opened Wrappers
  import opened Text
  import opened GitDiff

  datatype BodyLine = Removed(text: string) | Added(text: string) | NoNewline

  datatype Hunk = Hunk(oldStart: nat, start: nat, body: seq<BodyLine>, heading: string)

  // `notes` are the extended header lines between the first line and the hunks.
  // Notes, headings and content are any text: only newlines end git's lines.
  datatype FileDiff = FileDiff(path: string, created: bool, deleted: bool, notes: seq<string>, hunks: seq<Hunk>)

  function CountAdded(body: seq<BodyLine>): nat {
    if body == [] then 0 else CountAdded(body[..|body| - 1]) + if body[|body| - 1].Added? then 1 else 0
  }

  function CountRemoved(body: seq<BodyLine>): nat {
    if body == [] then 0 else CountRemoved(body[..|body| - 1]) + if body[|body| - 1].Removed? then 1 else 0
  }

  function PrintBodyLine(line: BodyLine): string {
    match line
    case Removed(text) => "-" + text
    case Added(text) => "+" + text
    case NoNewline => "\\ No newline at end of file"
  }

  function PrintBody(body: seq<BodyLine>): (lines: seq<string>)
    ensures |lines| == |body|
  {
    seq(|body|, i requires 0 <= i < |body| => PrintBodyLine(body[i]))
  }

  function HeaderText(oldStart: nat, removed: nat, start: nat, added: nat, heading: string): string {
    "@@ -" + (RangeText(oldStart, removed) + (" +" + (RangeText(start, added) + (" @@" + heading))))
  }

  function PrintHeader(h: Hunk): string {
    HeaderText(h.oldStart, CountRemoved(h.body), h.start, CountAdded(h.body), h.heading)
  }

  function PrintHunks(hunks: seq<Hunk>): seq<string> {
    if hunks == [] then []
    else PrintHunks(hunks[..|hunks| - 1]) + ([PrintHeader(hunks[|hunks| - 1])] + PrintBody(hunks[|hunks| - 1].body))
  }

  function FirstLine(path: string): string {
    "diff" + " " + ("--git" + " " + (("a/" + path) + " " + ("b/" + path)))
  }

  function PrintNames(f: FileDiff): seq<string> {
    if f.hunks == [] then []
    else ["--- " + (if f.created then "/dev/null" else "a/" + f.path),
          "+++ " + (if f.deleted then "/dev/null" else "b/" + f.path)]
  }

  function PrintFile(f: FileDiff): seq<string> {
    [FirstLine(f.path)] + (f.notes + (PrintNames(f) + PrintHunks(f.hunks)))
  }

  function PrintAll(files: seq<FileDiff>): seq<string> {
    if files == [] then [] else PrintAll(files[..|files| - 1]) + PrintFile(files[|files| - 1])
  }

  // The new-side lines the hunks cover, in their order.
  function Covered(hunks: seq<Hunk>): seq<nat> {
    if hunks == [] then []
    else
      var last := hunks[|hunks| - 1];
      Covered(hunks[..|hunks| - 1]) + Span(last.start, CountAdded(last.body))
  }

  // ---- what git prints ----

  // Later hunks start after the lines of earlier ones.
  predicate InOrder(hunks: seq<Hunk>) {
    forall i, j :: 0 <= i < j < |hunks| ==>
      CountAdded(hunks[i].body) == 0 || CountAdded(hunks[j].body) == 0
      || hunks[i].start + CountAdded(hunks[i].body) <= hunks[j].start
  }

  // The notes, the headings and the content may be any text.
  predicate LaidOut(f: FileDiff) {
    && IsPlain(f.path) && StaysInside(f.path)
    && (f.deleted ==> forall i :: 0 <= i < |f.hunks| ==> CountAdded(f.hunks[i].body) == 0)
    && InOrder(f.hunks)
  }

  predicate AllLaidOut(files: seq<FileDiff>) {
    && (forall i :: 0 <= i < |files| ==> LaidOut(files[i]))
    && forall i, j :: 0 <= i < j < |files| ==> files[i].path != files[j].path
  }

  // ---- the parser on each kind of line ----

  // A line that looks like no line the parser acts on.
  predicate Inert(line: string) {
    !StartsWith(line, "diff --git ") && !StartsWith(line, "+++ ") && !StartsWith(line, "@@ -")
  }

  // Added text that is printed like the line that names a file.
  predicate PosesAsName(line: BodyLine) {
    line.Added? && StartsWith(line.text, "++ ")
  }

  // The line leaves a parser alone that is reading the file of this path.
  predicate StaysIn(path: string, line: BodyLine) {
    PosesAsName(line) ==> line.text[3..] == "/dev/null" || NormalizePath(line.text[3..]) == Some(path)
  }

  lemma FirstLineWords(path: string)
    requires IsPlain(path)
    ensures var words := ShellWords(FirstLine(path));
      words.Some? && |words.value| == 4 && words.value[3] == "b/" + path
  {
    assert IsPlain("diff") && IsPlain("--git") && IsPlain("a/" + path) && IsPlain("b/" + path);
    PlainIsAWord("b/" + path, "");
    PlainIsAWord("a/" + path, "b/" + path);
    PlainIsAWord("--git", ("a/" + path) + " " + ("b/" + path));
    PlainIsAWord("diff", "--git" + " " + (("a/" + path) + " " + ("b/" + path)));
  }

  lemma NewSideOf(u: string, r: Range, heading: string)
    requires ParseRange(u) == Some(r) && r.rest == " @@" + heading
    ensures ParseNewSide(" +" + u) == Some((r.first, if r.second.Some? then r.second.value else 1))
  {
    assert (" +" + u)[..2] == " +" && (" +" + u)[2..] == u;
    assert r.rest[..3] == " @@";
  }

  lemma HunkOf(t: string, r: Range)
    requires ParseRange(t) == Some(r)
    ensures ParseHunk("@@ -" + t) == ParseNewSide(r.rest)
  {
    assert ("@@ -" + t)[..4] == "@@ -" && ("@@ -" + t)[4..] == t;
  }

  lemma HeaderTextReadsBack(oldStart: nat, removed: nat, start: nat, added: nat, heading: string)
    ensures ParseHunk(HeaderText(oldStart, removed, start, added, heading)) == Some((start, added))
  {
    var end := " @@" + heading;
    var u := RangeText(start, added) + end;
    RangeReadsBack(start, added, end);
    NewSideOf(u, ParseRange(u).value, heading);
    var t := RangeText(oldStart, removed) + (" +" + u);
    RangeReadsBack(oldStart, removed, " +" + u);
    HunkOf(t, ParseRange(t).value);
  }

  lemma HeaderReadsBack(h: Hunk)
    ensures ParseHunk(PrintHeader(h)) == Some((h.start, CountAdded(h.body)))
  {
    HeaderTextReadsBack(h.oldStart, CountRemoved(h.body), h.start, CountAdded(h.body), h.heading);
  }

  // A printed line of content looks like no other kind of line unless it is
  // added text that starts with `++ `.
  lemma BodyLineIsInert(line: BodyLine)
    ensures Inert(PrintBodyLine(line)) <==> !PosesAsName(line)
  {
    var printed := PrintBodyLine(line);
    assert printed[0] != 'd' && printed[0] != '@';
    assert line.Added? ==> printed[1..] == line.text;
    if PosesAsName(line) {
      assert printed[..4] == "+" + line.text[..3] == "+++ ";
    }
  }

  // What the parser makes of added text that poses as a name.
  lemma PosedNameIsEntered(p: Parser, line: BodyLine)
    requires PosesAsName(line)
    ensures line.text[3..] == "/dev/null" ==>
      ParseLine(p, PrintBodyLine(line)) == Ok(if p.current.Some? then Enter(p, p.current.value) else p)
    ensures line.text[3..] != "/dev/null" ==>
      ParseLine(p, PrintBodyLine(line)) ==
        var name := NormalizePath(line.text[3..]);
        if name.None? then Err(BadPath) else Ok(Enter(p, name.value))
  {
    var printed := PrintBodyLine(line);
    assert printed[1..] == line.text && printed[4..] == line.text[3..];
    assert printed[..4] == "+" + line.text[..3] == "+++ ";
  }

  // Reading a file, the parser passes over a printed line of content exactly
  // when the line stays in that file.
  lemma BodyLineIsPassed(p: Parser, path: string, line: BodyLine)
    requires p.current == Some(path) && path in p.diff.files
    ensures ParseLine(p, PrintBodyLine(line)) == Ok(p) <==> StaysIn(path, line)
  {
    BodyLineIsInert(line);
    if PosesAsName(line) {
      PosedNameIsEntered(p, line);
    }
  }

  // ---- one line each ----

  lemma RangeIsOneLine(first: nat, count: nat)
    ensures OneLine(RangeText(first, count))
  {
    DigitsAreOneLine(Digits(first));
    DigitsAreOneLine(Digits(count));
    assert OneLine(",");
    assert OneLine(Digits(first) + ",");
  }

  lemma DigitsAreOneLine(s: string)
    requires AllDigits(s)
    ensures OneLine(s)
  {
  }

  lemma JoinedIsOneLine(a: string, b: string)
    requires OneLine(a) && OneLine(b)
    ensures OneLine(a + b)
  {
  }

  lemma HeaderIsOneLine(oldStart: nat, removed: nat, start: nat, added: nat)
    ensures OneLine(HeaderText(oldStart, removed, start, added, ""))
  {
    RangeIsOneLine(oldStart, removed);
    RangeIsOneLine(start, added);
    assert OneLine(" @@" + "") && OneLine(" +") && OneLine("@@ -");
    var end := RangeText(start, added) + (" @@" + "");
    JoinedIsOneLine(RangeText(start, added), " @@" + "");
    JoinedIsOneLine(" +", end);
    JoinedIsOneLine(RangeText(oldStart, removed), " +" + end);
    JoinedIsOneLine("@@ -", RangeText(oldStart, removed) + (" +" + end));
  }

  lemma Nested(a: string, b: string, c: string, d: string, e: string, heading: string)
    ensures a + (b + (c + (d + (e + heading)))) == a + (b + (c + (d + (e + "")))) + heading
  {
  }

  lemma HeaderTextStarts(oldStart: nat, removed: nat, start: nat, added: nat, heading: string)
    ensures OneLine(HeaderText(oldStart, removed, start, added, ""))
    ensures HeaderText(oldStart, removed, start, added, heading) ==
      HeaderText(oldStart, removed, start, added, "") + heading
  {
    HeaderIsOneLine(oldStart, removed, start, added);
    Nested("@@ -", RangeText(oldStart, removed), " +", RangeText(start, added), " @@", heading);
  }

  // The header up to its heading.
  function HeaderStart(h: Hunk): string {
    PrintHeader(h.(heading := ""))
  }

  lemma HeaderStarts(h: Hunk)
    ensures OneLine(HeaderStart(h)) && PrintHeader(h) == HeaderStart(h) + h.heading
  {
    HeaderTextStarts(h.oldStart, CountRemoved(h.body), h.start, CountAdded(h.body), h.heading);
  }

  lemma FirstIsOneLine(path: string)
    requires OneLine(path)
    ensures OneLine(FirstLine(path))
  {
    assert OneLine("a/" + path) && OneLine("b/" + path);
    assert OneLine(("a/" + path) + " " + ("b/" + path));
    assert OneLine("diff" + " ") && OneLine("--git" + " ");
  }

  lemma NamesAreOneLine(f: FileDiff)
    requires OneLine(f.path)
    ensures forall i :: 0 <= i < |PrintNames(f)| ==> OneLine(PrintNames(f)[i])
  {
    assert OneLine("--- ") && OneLine("+++ ") && OneLine("/dev/null");
    assert OneLine("a/" + f.path) && OneLine("b/" + f.path);
  }

  // ---- the whole diff ----

  function Paths(files: seq<FileDiff>): (paths: seq<string>)
    ensures |paths| == |files|
  {
    seq(|files|, i requires 0 <= i < |files| => files[i].path)
  }

  // The parser has read exactly these files.
  predicate HasRead(d: Diff, files: seq<FileDiff>) {
    && d.files == Paths(files)
    && (forall file :: file in d.lines ==> file in d.files)
    && forall i :: 0 <= i < |files| ==> files[i].path in d.lines && d.lines[files[i].path] == Covered(files[i].hunks)
  }

  lemma {:induction false} CoveredIsIncreasing(hunks: seq<Hunk>)
    requires InOrder(hunks)
    ensures Increasing(Covered(hunks))
    ensures forall x :: x in Covered(hunks) ==>
      exists i :: 0 <= i < |hunks| && hunks[i].start <= x < hunks[i].start + CountAdded(hunks[i].body)
    decreases |hunks|
  {
    if hunks != [] {
      var front, last := hunks[..|hunks| - 1], hunks[|hunks| - 1];
      CoveredIsIncreasing(front);
      var before, added := Covered(front), Span(last.start, CountAdded(last.body));
      forall x, y | x in before && y in added
        ensures x < y
      {
        var i :| 0 <= i < |front| && front[i].start <= x < front[i].start + CountAdded(front[i].body);
        assert hunks[i] == front[i];
      }
      forall x | x in Covered(hunks)
        ensures exists i :: 0 <= i < |hunks| && hunks[i].start <= x < hunks[i].start + CountAdded(hunks[i].body)
      {
        if x in before {
          var i :| 0 <= i < |front| && front[i].start <= x < front[i].start + CountAdded(front[i].body);
          assert hunks[i] == front[i];
        } else {
          assert hunks[|hunks| - 1] == last;
        }
      }
      forall i, j | 0 <= i < j < |before + added|
        ensures (before + added)[i] < (before + added)[j]
      {
        if i < |before| <= j {
          assert before[i] in before && added[j - |before|] in added;
        }
      }
    }
  }

  lemma {:induction false} DeletedCoversNothing(hunks: seq<Hunk>)
    requires forall i :: 0 <= i < |hunks| ==> CountAdded(hunks[i].body) == 0
    ensures Covered(hunks) == []
    decreases |hunks|
  {
    if hunks != [] {
      DeletedCoversNothing(hunks[..|hunks| - 1]);
    }
  }

  lemma FileLinesAreSorted(f: FileDiff)
    requires LaidOut(f)
    ensures Increasing(Covered(f.hunks)) && SortedSet(Covered(f.hunks)) == Covered(f.hunks)
    ensures f.deleted ==> Covered(f.hunks) == []
  {
    CoveredIsIncreasing(f.hunks);
    IncreasingStays(Covered(f.hunks));
    if f.deleted {
      DeletedCoversNothing(f.hunks);
    }
  }

  // The strictly increasing new-side lines of every file; none if deleted.
  predicate LinesInOrder(files: seq<FileDiff>) {
    forall i :: 0 <= i < |files| ==>
      Increasing(Covered(files[i].hunks)) && (files[i].deleted ==> Covered(files[i].hunks) == [])
  }
}
