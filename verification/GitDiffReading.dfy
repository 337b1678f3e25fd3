/**
  What the parser makes of every diff laid out as git does, whatever text it
  holds, and exactly when that is what was printed.
 */
module GitDiffReading {
  import opened Wrappers
  import opened Text
  import opened GitDiff
  import opened GitDiffPrinter
  import opened GitDiffMarks

  // ---- the marks of a printed diff ----

  function TextMarks(lines: seq<string>): seq<Mark> {
    Marks(AllPieces(lines))
  }

  // What a heading and the content lines add to the marks of a hunk.
  function HunkStrays(h: Hunk): seq<Mark> {
    Marks(Pieces(h.heading)[1..]) + TextMarks(PrintBody(h.body))
  }

  function HunkMarks(h: Hunk): seq<Mark> {
    [Covers(Span(h.start, CountAdded(h.body)))] + HunkStrays(h)
  }

  function NameMarks(f: FileDiff): seq<Mark> {
    if f.hunks == [] || f.deleted then [] else [Names(f.path)]
  }

  function FileMarks(f: FileDiff): seq<Mark> {
    [Names(f.path)] + (TextMarks(f.notes) + (NameMarks(f) + Gathered(f.hunks, HunkMarks)))
  }

  function DiffMarks(files: seq<FileDiff>): seq<Mark> {
    Gathered(files, FileMarks)
  }

  lemma TextMarksGoOn(a: seq<string>, b: seq<string>)
    ensures TextMarks(a + b) == TextMarks(a) + TextMarks(b)
  {
    PiecesGoOn(a, b);
    MarksGoOn(AllPieces(a), AllPieces(b));
  }

  lemma Joined(a: seq<string>, m: seq<Mark>, b: seq<string>, n: seq<Mark>)
    requires TextMarks(a) == m && TextMarks(b) == n
    ensures TextMarks(a + b) == m + n
  {
    TextMarksGoOn(a, b);
  }

  lemma Regrouped<T>(a: seq<T>, b: seq<T>, c: seq<T>)
    ensures a + b + c == a + (b + c)
  {
  }

  lemma TextMarksOfOne(line: string)
    ensures TextMarks([line]) == Marks(Pieces(line))
    ensures OneLine(line) ==> TextMarks([line]) == LineMarks(line)
  {
    OnePieces(line);
    if OneLine(line) {
      OneLineIsAPiece(line);
      OneLineMarks(line);
    }
  }

  lemma FirstLineMarks(path: string)
    requires IsPlain(path) && StaysInside(path)
    ensures LineMarks(FirstLine(path)) == [Names(path)] && OneLine(FirstLine(path))
  {
    assert OneLine(path);
    FirstIsOneLine(path);
    FirstLineWords(path);
    PlainPathNormalizes(path);
    assert FirstLine(path)[..11] == "diff --git ";
  }

  lemma OldNameMarks(name: string)
    ensures LineMarks("--- " + name) == []
  {
    var line := "--- " + name;
    assert line[0] == '-';
  }

  lemma NewNameMarks(path: string)
    requires IsPlain(path) && StaysInside(path)
    ensures LineMarks("+++ " + "b/" + path) == [Names(path)] && LineMarks("+++ " + "/dev/null") == []
  {
    PlainPathNormalizes(path);
    var line := "+++ " + "b/" + path;
    assert line[..4] == "+++ " && line[4..] == "b/" + path && line[4] == 'b';
    var none := "+++ " + "/dev/null";
    assert none[..4] == "+++ " && none[4..] == "/dev/null";
  }

  lemma NamesMarks(f: FileDiff)
    requires LaidOut(f)
    ensures TextMarks(PrintNames(f)) == NameMarks(f)
  {
    if f.hunks != [] {
      var old_, new_ := PrintNames(f)[0], PrintNames(f)[1];
      assert OneLine(f.path);
      NamesAreOneLine(f);
      assert OneLine(PrintNames(f)[0]) && OneLine(PrintNames(f)[1]);
      OldNameMarks(if f.created then "/dev/null" else "a/" + f.path);
      NewNameMarks(f.path);
      assert "+++ " + "b/" + f.path == "+++ " + ("b/" + f.path);
      TextMarksOfOne(old_);
      TextMarksOfOne(new_);
      TextMarksGoOn([old_], [new_]);
      assert PrintNames(f) == [old_] + [new_];
    }
  }

  lemma AtLineIsNoName(line: string)
    requires line != "" && line[0] == '@'
    ensures !StartsWith(line, "diff --git ") && !StartsWith(line, "+++ ")
  {
    assert "diff --git "[0] == 'd' && "+++ "[0] == '+';
  }

  lemma HunkLineMarks(line: string, start: nat, count: nat)
    requires line != "" && line[0] == '@' && ParseHunk(line) == Some((start, count))
    ensures LineMarks(line) == [Covers(Span(start, count))]
  {
    AtLineIsNoName(line);
  }

  lemma HeaderLineMarks(h: Hunk)
    ensures LineMarks(PrintHeader(h)) == [Covers(Span(h.start, CountAdded(h.body)))]
  {
    HeaderReadsBack(h);
    HunkLineMarks(PrintHeader(h), h.start, CountAdded(h.body));
  }

  lemma HeaderPieces(h: Hunk)
    ensures Pieces(PrintHeader(h)) == [PrintHeader(h.(heading := Pieces(h.heading)[0]))] + Pieces(h.heading)[1..]
  {
    HeaderStarts(h);
    HeaderStarts(h.(heading := Pieces(h.heading)[0]));
    PiecesAfter(HeaderStart(h), h.heading);
  }

  lemma HeaderMarks(h: Hunk)
    ensures TextMarks([PrintHeader(h)]) ==
      [Covers(Span(h.start, CountAdded(h.body)))] + Marks(Pieces(h.heading)[1..])
  {
    var short := PrintHeader(h.(heading := Pieces(h.heading)[0]));
    HeaderPieces(h);
    TextMarksOfOne(PrintHeader(h));
    MarksGoOn([short], Pieces(h.heading)[1..]);
    OneLineMarks(short);
    HeaderLineMarks(h.(heading := Pieces(h.heading)[0]));
  }

  lemma PrintedHunkMarks(h: Hunk)
    ensures TextMarks([PrintHeader(h)] + PrintBody(h.body)) == HunkMarks(h)
  {
    var cover, tail := [Covers(Span(h.start, CountAdded(h.body)))], Marks(Pieces(h.heading)[1..]);
    HeaderMarks(h);
    Joined([PrintHeader(h)], cover + tail, PrintBody(h.body), TextMarks(PrintBody(h.body)));
    Regrouped(cover, tail, TextMarks(PrintBody(h.body)));
  }

  lemma {:induction false} PrintedHunksMarks(hunks: seq<Hunk>)
    ensures TextMarks(PrintHunks(hunks)) == Gathered(hunks, HunkMarks)
    decreases |hunks|
  {
    if hunks != [] {
      var front, last := hunks[..|hunks| - 1], hunks[|hunks| - 1];
      PrintedHunksMarks(front);
      PrintedHunkMarks(last);
      Joined(PrintHunks(front), Gathered(front, HunkMarks), [PrintHeader(last)] + PrintBody(last.body), HunkMarks(last));
    }
  }

  lemma PrintedFileMarks(f: FileDiff)
    requires LaidOut(f)
    ensures TextMarks(PrintFile(f)) == FileMarks(f)
  {
    var first, names, hunks := [FirstLine(f.path)], PrintNames(f), PrintHunks(f.hunks);
    FirstLineMarks(f.path);
    TextMarksOfOne(FirstLine(f.path));
    NamesMarks(f);
    PrintedHunksMarks(f.hunks);
    var rest := NameMarks(f) + Gathered(f.hunks, HunkMarks);
    Joined(names, NameMarks(f), hunks, Gathered(f.hunks, HunkMarks));
    Joined(f.notes, TextMarks(f.notes), names + hunks, rest);
    Joined(first, [Names(f.path)], f.notes + (names + hunks), TextMarks(f.notes) + rest);
  }

  lemma {:induction false} PrintedMarks(files: seq<FileDiff>)
    requires forall i :: 0 <= i < |files| ==> LaidOut(files[i])
    ensures TextMarks(PrintAll(files)) == DiffMarks(files)
    decreases |files|
  {
    if files != [] {
      var front, last := files[..|files| - 1], files[|files| - 1];
      PrintedMarks(front);
      PrintedFileMarks(last);
      Joined(PrintAll(front), DiffMarks(front), PrintFile(last), FileMarks(last));
    }
  }

  // The mark of a content line's first piece.
  function PosedMark(line: BodyLine): seq<Mark> {
    if line.Added? then
      var first := Pieces(line.text)[0];
      if StartsWith(first, "++ ") && first[3..] != "/dev/null" then [NameMark(first[3..])] else []
    else []
  }

  lemma SignedTextMarks(sign: string, text: string)
    requires OneLine(sign)
    ensures TextMarks([sign + text]) == LineMarks(sign + Pieces(text)[0]) + Marks(Pieces(text)[1..])
  {
    TextMarksOfOne(sign + text);
    PiecesAfter(sign, text);
    MarksGoOn([sign + Pieces(text)[0]], Pieces(text)[1..]);
    OneLineMarks(sign + Pieces(text)[0]);
  }

  lemma BackslashMarks(line: string)
    requires line != "" && line[0] == '\\'
    ensures LineMarks(line) == []
  {
    assert "diff --git "[0] == 'd' && "+++ "[0] == '+' && "@@ -"[0] == '@';
  }

  lemma NoNewlineIsOneLine()
    ensures OneLine(PrintBodyLine(NoNewline)) && PrintBodyLine(NoNewline)[0] == '\\'
  {
  }

  lemma NoNewlineMarks(line: string)
    requires line == PrintBodyLine(NoNewline)
    ensures TextMarks([line]) == []
  {
    NoNewlineIsOneLine();
    BackslashMarks(line);
    TextMarksOfOne(line);
  }

  // A content line has the marks of the lines a separator makes of it, and one
  // for added text that starts with `++ `; without a separator it has no other.
  lemma ContentMarks(line: BodyLine)
    ensures TextMarks([PrintBodyLine(line)]) ==
      PosedMark(line) + if line.NoNewline? then [] else Marks(Pieces(line.text)[1..])
    ensures !line.NoNewline? && OneLine(line.text) ==> Pieces(line.text) == [line.text]
  {
    if line.NoNewline? {
      NoNewlineMarks(PrintBodyLine(line));
    } else {
      var sign := if line.Added? then "+" else "-";
      SignedTextMarks(sign, line.text);
      SignedMarks(line, sign + Pieces(line.text)[0]);
      if OneLine(line.text) {
        OneLineIsAPiece(line.text);
      }
    }
  }

  lemma SignedMarks(line: BodyLine, printed: string)
    requires !line.NoNewline? && printed == (if line.Added? then "+" else "-") + Pieces(line.text)[0]
    ensures LineMarks(printed) == PosedMark(line)
  {
    var first := Pieces(line.text)[0];
    assert printed[0] != 'd' && printed[0] != '@' && printed[1..] == first;
    if StartsWith(printed, "+++ ") {
      assert first[..3] == printed[1..4] == "++ " && first[3..] == printed[4..];
    }
    if line.Added? && StartsWith(first, "++ ") {
      assert printed[..4] == "+" + first[..3] == "+++ ";
    }
  }

  // ---- the whole parse ----

  // For every printed diff, whatever text it holds, the answer is read off its
  // marks: the first refusal, or the files in the order of their first mention,
  // each with the lines covered while it was the file named last.
  lemma PrintedDiffIsRead(files: seq<FileDiff>)
    requires AllLaidOut(files)
    ensures var marks := DiffMarks(files);
      Parsed(Unlines(PrintAll(files))) ==
        if Failure(marks).Some? then Err(Failure(marks).value) else Ok(Finished(Holding(marks).diff))
  {
    SplitsEachLine(PrintAll(files));
    TextIsRead(Unlines(PrintAll(files)));
    PrintedMarks(files);
  }

  predicate ReadsBack(files: seq<FileDiff>) {
    var parsed := Parsed(Unlines(PrintAll(files)));
    parsed.Ok? && HasRead(parsed.value, files)
  }

  ghost predicate SameNumbers(s: seq<nat>, t: seq<nat>) {
    forall x :: x in s <==> x in t
  }

  // The lines credited to each file are those its own hunks cover.
  ghost predicate CreditedRightly(files: seq<FileDiff>) {
    forall i :: 0 <= i < |files| ==> SameNumbers(Credited(DiffMarks(files), files[i].path), Covered(files[i].hunks))
  }

  lemma FinishedHasRead(marks: seq<Mark>, files: seq<FileDiff>)
    requires AllLaidOut(files)
    ensures HasRead(Finished(Holding(marks).diff), files) <==>
      && Mentioned(marks) == Paths(files)
      && forall i :: 0 <= i < |files| ==> SameNumbers(Credited(marks, files[i].path), Covered(files[i].hunks))
  {
    var d := Finished(Holding(marks).diff);
    forall i | 0 <= i < |files|
      ensures SortedSet(Credited(marks, files[i].path)) == Covered(files[i].hunks) <==>
        SameNumbers(Credited(marks, files[i].path), Covered(files[i].hunks))
    {
      FileLinesAreSorted(files[i]);
      SameSetSameOrder(Credited(marks, files[i].path), Covered(files[i].hunks));
    }
    if Mentioned(marks) == Paths(files) {
      forall i | 0 <= i < |files|
        ensures files[i].path in d.lines && d.lines[files[i].path] == SortedSet(Credited(marks, files[i].path))
      {
        assert Paths(files)[i] in Mentioned(marks);
      }
    }
  }

  // The round trip holds exactly when nothing is refused, the names enter the
  // files in order, and each file is credited with the lines its hunks cover.
  lemma ReadsBackExactly(files: seq<FileDiff>)
    requires AllLaidOut(files)
    ensures ReadsBack(files) <==>
      Failure(DiffMarks(files)).None? && Mentioned(DiffMarks(files)) == Paths(files) && CreditedRightly(files)
  {
    PrintedDiffIsRead(files);
    FinishedHasRead(DiffMarks(files), files);
  }

  lemma EmptyHasNone(a: seq<nat>)
    ensures a == [] <==> forall x :: x !in a
  {
    assert a == [] || a[0] in a;
  }

  lemma AllButLast(a: seq<nat>, x: nat)
    requires Increasing(a) && a != []
    ensures x in a[..|a| - 1] <==> x in a && x != a[|a| - 1]
  {
    assert a == a[..|a| - 1] + [a[|a| - 1]];
    assert x in a[..|a| - 1] ==> x < a[|a| - 1];
  }

  // Two increasing lists of the same numbers are equal.
  lemma {:induction false} IncreasingAreEqual(a: seq<nat>, b: seq<nat>)
    requires Increasing(a) && Increasing(b) && SameNumbers(a, b)
    ensures a == b
    decreases |a|
  {
    EmptyHasNone(a);
    EmptyHasNone(b);
    if a != [] {
      assert a[|a| - 1] in b;
      var m, n := |a| - 1, |b| - 1;
      assert b[n] in a;
      assert a[m] == b[n];
      forall x: nat
        ensures x in a[..m] <==> x in b[..n]
      {
        AllButLast(a, x);
        AllButLast(b, x);
      }
      IncreasingAreEqual(a[..m], b[..n]);
    }
  }

  lemma SameSetSameOrder(s: seq<nat>, t: seq<nat>)
    requires Increasing(t)
    ensures SortedSet(s) == t <==> SameNumbers(s, t)
  {
    SortedSetIsSorted(s);
    if SameNumbers(s, t) {
      IncreasingAreEqual(SortedSet(s), t);
    }
  }

  // ---- texts that keep to their own file ----

  // The marks that the notes, headings and content of a file add to its own.
  function Strays(f: FileDiff): seq<Mark> {
    TextMarks(f.notes) + Gathered(f.hunks, HunkStrays)
  }

  // The mark names the file it stands in, or covers lines that are covered anyway.
  predicate Harmless(f: FileDiff, mark: Mark) {
    mark == Names(f.path) || (mark.Covers? && forall x :: x in mark.lines ==> x in Covered(f.hunks))
  }

  predicate Printable(f: FileDiff) {
    LaidOut(f) && forall m :: m in Strays(f) ==> Harmless(f, m)
  }

  predicate AllPrintable(files: seq<FileDiff>) {
    AllLaidOut(files) && forall i :: 0 <= i < |files| ==> Printable(files[i])
  }

  predicate IsOwnCover(f: FileDiff, mark: Mark) {
    exists j :: 0 <= j < |f.hunks| && mark == HunkMarks(f.hunks[j])[0]
  }

  lemma MarksOfFile(f: FileDiff, mark: Mark)
    ensures mark in FileMarks(f) <==> mark == Names(f.path) || mark in Strays(f) || IsOwnCover(f, mark)
  {
    GatheredHas(f.hunks, HunkMarks, mark);
    GatheredHas(f.hunks, HunkStrays, mark);
    forall j | 0 <= j < |f.hunks|
      ensures mark in HunkMarks(f.hunks[j]) <==> mark == HunkMarks(f.hunks[j])[0] || mark in HunkStrays(f.hunks[j])
    {
    }
  }

  lemma {:induction false} CoveredByHunks(hunks: seq<Hunk>, x: nat)
    ensures x in Covered(hunks) <==>
      exists j :: 0 <= j < |hunks| && x in Span(hunks[j].start, CountAdded(hunks[j].body))
    decreases |hunks|
  {
    if hunks != [] {
      var front, last := hunks[..|hunks| - 1], hunks[|hunks| - 1];
      CoveredByHunks(front, x);
      if x in Covered(front) {
        var j :| 0 <= j < |front| && x in Span(front[j].start, CountAdded(front[j].body));
        assert hunks[j] == front[j];
      }
      if j :| 0 <= j < |hunks| && x in Span(hunks[j].start, CountAdded(hunks[j].body)) {
        assert j == |hunks| - 1 || hunks[j] == front[j];
      }
    }
  }

  // No mark of the file leaves it.
  predicate Own(f: FileDiff) {
    forall m :: m in FileMarks(f) ==> m == Names(f.path) || m.Covers?
  }

  // All lines covered in the file are its hunks' own, exactly when its strays
  // cover nothing else.
  lemma CoversItsOwn(f: FileDiff)
    requires LaidOut(f) && Own(f)
    ensures SameNumbers(Gathered(FileMarks(f), MarkLines), Covered(f.hunks)) <==> Printable(f)
  {
    var all := Gathered(FileMarks(f), MarkLines);
    forall x: nat
      ensures x in Covered(f.hunks) ==> x in all
      ensures x in all ==> x in Covered(f.hunks) || exists m :: m in Strays(f) && x in MarkLines(m)
      ensures (exists m :: m in Strays(f) && x in MarkLines(m)) ==> x in all
    {
      LineCoveredInFile(f, x);
    }
    forall m | m in Strays(f)
      ensures m == Names(f.path) || m.Covers?
    {
      MarksOfFile(f, m);
    }
    if SameNumbers(all, Covered(f.hunks)) {
      forall m | m in Strays(f)
        ensures Harmless(f, m)
      {
        assert forall x :: x in MarkLines(m) ==> x in all;
      }
    }
  }

  lemma LineOfFileMarks(f: FileDiff, x: nat, mark: Mark)
    requires mark in FileMarks(f) && x in MarkLines(mark)
    ensures x in Covered(f.hunks) || mark in Strays(f)
  {
    MarksOfFile(f, mark);
    if IsOwnCover(f, mark) {
      var j :| 0 <= j < |f.hunks| && mark == HunkMarks(f.hunks[j])[0];
      CoveredByHunks(f.hunks, x);
      assert x in Span(f.hunks[j].start, CountAdded(f.hunks[j].body));
    }
  }

  lemma CoveredIsMarked(f: FileDiff, x: nat) returns (mark: Mark)
    requires x in Covered(f.hunks)
    ensures mark in FileMarks(f) && x in MarkLines(mark)
  {
    CoveredByHunks(f.hunks, x);
    var j :| 0 <= j < |f.hunks| && x in Span(f.hunks[j].start, CountAdded(f.hunks[j].body));
    mark := HunkMarks(f.hunks[j])[0];
    assert IsOwnCover(f, mark);
    MarksOfFile(f, mark);
  }

  lemma LineCoveredInFile(f: FileDiff, x: nat)
    ensures x in Gathered(FileMarks(f), MarkLines) <==>
      x in Covered(f.hunks) || exists m :: m in Strays(f) && x in MarkLines(m)
  {
    LinesOfMarks(FileMarks(f), x);
    if m :| m in FileMarks(f) && x in MarkLines(m) {
      LineOfFileMarks(f, x, m);
    }
    if x in Covered(f.hunks) {
      var m := CoveredIsMarked(f, x);
    }
    if m :| m in Strays(f) && x in MarkLines(m) {
      MarksOfFile(f, m);
    }
  }

  lemma FileMarksAre(f: FileDiff)
    ensures FileMarks(f) == [Names(f.path)] + FileMarks(f)[1..]
    ensures forall m :: m in FileMarks(f)[1..] ==> m in FileMarks(f)
  {
  }

  lemma OwnFileIsBlock(f: FileDiff)
    requires Own(f)
    ensures OwnBlock(f.path, FileMarks(f))
  {
    FileMarksAre(f);
  }

  lemma PrintableIsOwn(f: FileDiff)
    requires Printable(f)
    ensures Own(f)
  {
    forall m | m in FileMarks(f)
      ensures m == Names(f.path) || m.Covers?
    {
      MarksOfFile(f, m);
    }
  }

  // The parser adds a printed file at the end, with exactly the lines its hunks
  // cover, and leaves all other files as they were.
  lemma FileReadsBack(before: seq<Mark>, f: FileDiff)
    requires Printable(f) && Failure(before).None? && f.path !in Mentioned(before)
    ensures var p, after := Holding(before), ParseLines(Holding(before), AllPieces(PrintFile(f)));
      && after.Ok? && after.value.current == Some(f.path)
      && after.value.diff.files == p.diff.files + [f.path]
      && after.value.diff.lines.Keys == p.diff.lines.Keys + {f.path}
      && SameNumbers(after.value.diff.lines[f.path], Covered(f.hunks))
      && forall file :: file in p.diff.lines ==> after.value.diff.lines[file] == p.diff.lines[file]
  {
    FileIsFollowed(before, f);
    PrintableIsOwn(f);
    OwnFileIsBlock(f);
    BlockIsHeld(before, f.path, FileMarks(f));
    CoversItsOwn(f);
  }

  lemma FileIsFollowed(before: seq<Mark>, f: FileDiff)
    requires LaidOut(f) && Failure(before).None?
    ensures ParseLines(Holding(before), AllPieces(PrintFile(f))) == Held(before + FileMarks(f))
  {
    var pieces := AllPieces(PrintFile(f));
    PrintedFileMarks(f);
    LinesAreRead(before, pieces);
  }

  function PathOf(f: FileDiff): string {
    f.path
  }

  lemma OwnFilesHold(files: seq<FileDiff>)
    requires AllLaidOut(files) && forall i :: 0 <= i < |files| ==> Own(files[i])
    ensures Failure(DiffMarks(files)).None? && Mentioned(DiffMarks(files)) == Paths(files)
    ensures forall i :: 0 <= i < |files| ==>
      Credited(DiffMarks(files), files[i].path) == Gathered(FileMarks(files[i]), MarkLines)
  {
    forall i | 0 <= i < |files|
      ensures OwnBlock(PathOf(files[i]), FileMarks(files[i]))
    {
      OwnFileIsBlock(files[i]);
    }
    OwnBlocksHold(files, PathOf, FileMarks);
  }

  lemma OwnFilesReadBack(files: seq<FileDiff>)
    requires AllLaidOut(files) && forall i :: 0 <= i < |files| ==> Own(files[i])
    ensures ReadsBack(files) <==> AllPrintable(files)
  {
    OwnFilesHold(files);
    ReadsBackExactly(files);
    forall i | 0 <= i < |files|
      ensures SameNumbers(Credited(DiffMarks(files), files[i].path), Covered(files[i].hunks)) <==> Printable(files[i])
    {
      CoversItsOwn(files[i]);
    }
  }

  // The strictly increasing new-side lines of every printed file, none for a
  // deleted one: the round trip.
  lemma PrintedDiffReadsBack(files: seq<FileDiff>)
    requires AllPrintable(files)
    ensures ReadsBack(files) && LinesInOrder(files)
  {
    forall i | 0 <= i < |files|
      ensures Own(files[i]) && Increasing(Covered(files[i].hunks))
      ensures files[i].deleted ==> Covered(files[i].hunks) == []
    {
      PrintableIsOwn(files[i]);
      FileLinesAreSorted(files[i]);
    }
    OwnFilesReadBack(files);
  }

  // No text of a file names another file of the same diff, or none.
  predicate KeepsApart(files: seq<FileDiff>, f: FileDiff) {
    forall m :: m in Strays(f) ==> !m.Deselects? && (m.Names? ==> m.file == f.path || m.file !in Paths(files))
  }

  predicate KeepApart(files: seq<FileDiff>) {
    forall i :: 0 <= i < |files| ==> KeepsApart(files, files[i])
  }

  // A mark that is refused, or names a file the diff does not change, breaks the
  // round trip.
  lemma StrangerBreaks(files: seq<FileDiff>, i: nat, mark: Mark)
    requires AllLaidOut(files) && i < |files| && mark in FileMarks(files[i])
    requires mark.Fails? || (mark.Names? && mark.file !in Paths(files))
    ensures !ReadsBack(files)
  {
    GatheredHas(files, FileMarks, mark);
    FailureIsMarked(DiffMarks(files));
    if mark.Names? {
      MentionedIsNamed(DiffMarks(files), mark.file);
    }
    ReadsBackExactly(files);
  }

  // As long as the files keep apart, the round trip holds exactly when every
  // text is harmless to its own file.
  lemma ReadsBackIfPrintable(files: seq<FileDiff>)
    requires AllLaidOut(files) && KeepApart(files)
    ensures ReadsBack(files) <==> AllPrintable(files)
  {
    if forall i :: 0 <= i < |files| ==> Own(files[i]) {
      OwnFilesReadBack(files);
    } else {
      var i :| 0 <= i < |files| && !Own(files[i]);
      StrayBreaks(files, i);
    }
  }

  lemma StrayOf(f: FileDiff) returns (mark: Mark)
    requires !Own(f)
    ensures mark in FileMarks(f) && mark in Strays(f) && !mark.Covers? && mark != Names(f.path)
  {
    mark :| mark in FileMarks(f) && mark != Names(f.path) && !mark.Covers?;
    MarksOfFile(f, mark);
  }

  lemma StrangerOf(files: seq<FileDiff>, f: FileDiff) returns (mark: Mark)
    requires KeepsApart(files, f) && !Own(f)
    ensures mark in FileMarks(f) && (mark.Fails? || (mark.Names? && mark.file !in Paths(files)))
    ensures !Printable(f)
  {
    mark := StrayOf(f);
    assert !Harmless(f, mark);
  }

  lemma StrayBreaks(files: seq<FileDiff>, i: nat)
    requires AllLaidOut(files) && KeepApart(files) && i < |files| && !Own(files[i])
    ensures !ReadsBack(files) && !AllPrintable(files)
  {
    var mark := StrangerOf(files, files[i]);
    StrangerBreaks(files, i, mark);
  }
}
