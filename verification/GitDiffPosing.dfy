/** Texts that the diff parser takes for the diff's own lines. */
module GitDiffPosing {
  import opened Wrappers
  import opened Text
  import opened GitDiff
  import opened GitDiffPrinter
  import opened GitDiffMarks
  import opened GitDiffReading

  // ---- one file that adds one line at a time ----

  function OneAdded(oldStart: nat, start: nat, text: string): Hunk {
    Hunk(oldStart, start, [Added(text)], "")
  }

  lemma OneAddedMarks(h: Hunk, text: string)
    requires h.body == [Added(text)] && h.heading == ""
    ensures CountAdded(h.body) == 1 && CountRemoved(h.body) == 0
    ensures HunkStrays(h) == PosedMark(Added(text)) + Marks(Pieces(text)[1..])
    ensures HunkMarks(h) == [Covers([h.start])] + HunkStrays(h)
  {
    assert h.body[..0] == [];
    ContentMarks(Added(text));
    assert PrintBody(h.body) == [PrintBodyLine(Added(text))];
    assert OneLine("");
    OneLineIsAPiece("");
    assert Span(h.start, 1) == [h.start];
    assert [] + HunkStrays(h) == HunkStrays(h);
  }

  function Changed(path: string, hunks: seq<Hunk>): FileDiff {
    FileDiff(path, false, false, [], hunks)
  }

  lemma ChangedMarks(path: string, hunks: seq<Hunk>)
    requires hunks != []
    ensures DiffMarks([Changed(path, hunks)]) == [Names(path), Names(path)] + Gathered(hunks, HunkMarks)
    ensures Strays(Changed(path, hunks)) == Gathered(hunks, HunkStrays)
  {
    var f := Changed(path, hunks);
    OneMoreGathered([f], [], f, FileMarks);
    assert TextMarks([]) == [];
    assert NameMarks(f) == [Names(path)];
    assert [] + ([Names(path)] + Gathered(hunks, HunkMarks)) == [Names(path)] + Gathered(hunks, HunkMarks);
    assert [Names(path)] + ([Names(path)] + Gathered(hunks, HunkMarks))
        == [Names(path), Names(path)] + Gathered(hunks, HunkMarks);
  }

  lemma TwoGathered<A, B>(a: A, b: A, of: A -> seq<B>)
    ensures Gathered([a], of) == of(a) && Gathered([a, b], of) == of(a) + of(b)
  {
    OneMoreGathered([a], [], a, of);
    OneMoreGathered([a, b], [a], b, of);
  }

  // ---- text that poses as a file name ----

  // Line 1 is added as `++ x`, and line 5 after it.
  function Posing(path: string, x: string): FileDiff {
    Changed(path, [OneAdded(0, 1, "++ " + x), OneAdded(3, 5, "")])
  }

  // No line that a separator makes of the rest of the text means anything.
  predicate QuietAfterFirst(x: string) {
    Marks(Pieces(x)[1..]) == []
  }

  lemma PosedPieces(x: string)
    ensures Pieces("++ " + x) == ["++ " + Pieces(x)[0]] + Pieces(x)[1..]
    ensures PosedMark(Added("++ " + x)) == if Pieces(x)[0] == "/dev/null" then [] else [NameMark(Pieces(x)[0])]
  {
    assert OneLine("++ ");
    PiecesAfter("++ ", x);
    var first := "++ " + Pieces(x)[0];
    assert first[..3] == "++ " && first[3..] == Pieces(x)[0];
  }

  lemma PosingHunk(x: string)
    requires QuietAfterFirst(x)
    ensures HunkStrays(OneAdded(0, 1, "++ " + x)) == PosedMark(Added("++ " + x))
    ensures HunkMarks(OneAdded(0, 1, "++ " + x)) == [Covers([1])] + PosedMark(Added("++ " + x))
  {
    PosedPieces(x);
    assert Pieces("++ " + x)[1..] == Pieces(x)[1..];
    OneAddedMarks(OneAdded(0, 1, "++ " + x), "++ " + x);
    assert PosedMark(Added("++ " + x)) + [] == PosedMark(Added("++ " + x));
  }

  lemma EmptyHunk()
    ensures HunkStrays(OneAdded(3, 5, "")) == [] && HunkMarks(OneAdded(3, 5, "")) == [Covers([5])]
  {
    assert OneLine("");
    OneLineIsAPiece("");
    OneAddedMarks(OneAdded(3, 5, ""), "");
  }

  lemma PosingMarks(path: string, x: string)
    requires QuietAfterFirst(x)
    ensures Strays(Posing(path, x)) == PosedMark(Added("++ " + x))
    ensures DiffMarks([Posing(path, x)]) ==
      [Names(path), Names(path)] + ([Covers([1])] + PosedMark(Added("++ " + x)) + [Covers([5])])
  {
    var h, g := OneAdded(0, 1, "++ " + x), OneAdded(3, 5, "");
    PosingHunk(x);
    EmptyHunk();
    ChangedMarks(path, [h, g]);
    TwoGathered(h, g, HunkMarks);
    TwoGathered(h, g, HunkStrays);
  }

  lemma PosingIsLaidOut(path: string, x: string)
    requires IsPlain(path) && StaysInside(path)
    ensures AllLaidOut([Posing(path, x)]) && Paths([Posing(path, x)]) == [path]
  {
    assert OneAdded(0, 1, "++ " + x).body[..0] == [];
  }

  // What the one mark of the posing text means for its file.
  lemma PosedMarkIsHarmless(f: FileDiff, x: string)
    requires LaidOut(f) && Strays(f) == PosedMark(Added("++ " + x)) && Paths([f]) == [f.path]
    ensures var name := Pieces(x)[0];
      && KeepsApart([f], f)
      && (Printable(f) <==> name == "/dev/null" || NormalizePath(name) == Some(f.path))
  {
    PosedPieces(x);
    if Strays(f) != [] {
      assert Strays(f)[0] in Strays(f);
    }
  }

  lemma PosingIsPrintable(path: string, x: string)
    requires IsPlain(path) && StaysInside(path) && QuietAfterFirst(x)
    ensures var name := Pieces(x)[0];
      && AllLaidOut([Posing(path, x)]) && KeepApart([Posing(path, x)])
      && (AllPrintable([Posing(path, x)]) <==> name == "/dev/null" || NormalizePath(name) == Some(path))
  {
    PosingIsLaidOut(path, x);
    PosingMarks(path, x);
    PosedMarkIsHarmless(Posing(path, x), x);
    assert [Posing(path, x)][0] == Posing(path, x);
  }

  lemma PosedCredits(path: string, name: string, file: string)
    requires name != path
    ensures var marks := [Names(path)] + [Names(path)] + [Covers([1])] + [Names(name)] + [Covers([5])];
      && Failure(marks).None? && Mentioned(marks) == [path, name]
      && Credited(marks, file) == if file == path then [1] else if file == name then [5] else []
  {
    OneMoreMark([], Names(path), file);
    assert [] + [Names(path)] == [Names(path)];
    OneMoreMark([Names(path)], Names(path), file);
    OneMoreMark([Names(path)] + [Names(path)], Covers([1]), file);
    OneMoreMark([Names(path)] + [Names(path)] + [Covers([1])], Names(name), file);
    OneMoreMark([Names(path)] + [Names(path)] + [Covers([1])] + [Names(name)], Covers([5]), file);
  }

  lemma CreditsHold(marks: seq<Mark>, path: string, name: string)
    requires Mentioned(marks) == [path, name] && path != name
    requires Credited(marks, path) == [1] && Credited(marks, name) == [5]
    ensures Finished(Holding(marks).diff) == Diff([path, name], map[path := [1], name := [5]])
  {
    IncreasingStays([1]);
    IncreasingStays([5]);
    var d := Finished(Holding(marks).diff);
    assert d.lines.Keys == {path, name};
    assert d.lines == map[path := [1], name := [5]];
  }

  lemma RefusedMark(before: seq<Mark>, error: DiffError, after: seq<Mark>)
    requires Failure(before).None?
    ensures Failure(before + [Fails(error)] + after) == Some(error)
  {
    OneMoreMark(before, Fails(error), "");
    FailureStays(before + [Fails(error)], after);
  }

  // For every path and every text x, an added line `++ x` breaks the round trip
  // exactly when the file its first piece names is neither /dev/null nor the
  // path; what follows is then counted for that file, or the diff is refused.
  lemma AddedTextCanPoseAsAFile(path: string, x: string)
    requires IsPlain(path) && StaysInside(path) && QuietAfterFirst(x)
    ensures AllLaidOut([Posing(path, x)])
    ensures var name := Pieces(x)[0];
      ReadsBack([Posing(path, x)]) <==> name == "/dev/null" || NormalizePath(name) == Some(path)
    ensures !ReadsBack([Posing(path, x)]) ==>
      Parsed(Unlines(PrintAll([Posing(path, x)]))) ==
        var name := NormalizePath(Pieces(x)[0]);
        if name.None? then Err(BadPath) else Ok(Diff([path, name.value], map[path := [1], name.value := [5]]))
  {
    PosingIsPrintable(path, x);
    ReadsBackIfPrintable([Posing(path, x)]);
    if !ReadsBack([Posing(path, x)]) {
      PosingMarks(path, x);
      PosedPieces(x);
      PrintedDiffIsRead([Posing(path, x)]);
      PosingIsRead(path, Pieces(x)[0], DiffMarks([Posing(path, x)]));
    }
  }

  lemma PosingIsRead(path: string, value: string, marks: seq<Mark>)
    requires NormalizePath(value) != Some(path)
    requires marks == [Names(path), Names(path)] + ([Covers([1])] + [NameMark(value)] + [Covers([5])])
    ensures var name := NormalizePath(value);
      if name.None? then Failure(marks) == Some(BadPath)
      else Failure(marks).None?
           && Finished(Holding(marks).diff) == Diff([path, name.value], map[path := [1], name.value := [5]])
  {
    var before := [Names(path)] + [Names(path)] + [Covers([1])];
    assert marks == before + [NameMark(value)] + [Covers([5])];
    if NormalizePath(value).None? {
      FailureIsMarked(before);
      RefusedMark(before, BadPath, [Covers([5])]);
    } else {
      var name := NormalizePath(value).value;
      PosedCredits(path, name, path);
      PosedCredits(path, name, name);
      CreditsHold(marks, path, name);
    }
  }

  // ---- text that a separator turns into a hunk header ----

  // Line 1 is added; behind the separator its text looks like a header.
  function Splitting(path: string, text: string, separator: char, start: nat, count: nat): FileDiff {
    Changed(path, [OneAdded(0, 1, text + [separator] + HeaderText(0, 0, start, count, ""))])
  }

  predicate SplitsOff(text: string, separator: char) {
    OneLine(text) && !StartsWith(text, "++ ") && EndsLine(separator) && separator != '\n'
  }

  lemma SplitPieces(text: string, separator: char, start: nat, count: nat)
    requires SplitsOff(text, separator)
    ensures var all := text + [separator] + HeaderText(0, 0, start, count, "");
      PosedMark(Added(all)) == [] && Marks(Pieces(all)[1..]) == [Covers(Span(start, count))]
  {
    var header := HeaderText(0, 0, start, count, "");
    HeaderTextStarts(0, 0, start, count, "");
    HeaderTextReadsBack(0, 0, start, count, "");
    assert header[0] == '@';
    SeparatorSplits(text, separator, header);
    OneLineIsAPiece(header);
    OneLineMarks(header);
    HunkLineMarks(header, start, count);
    assert ([text] + [header])[1..] == [header];
  }

  lemma SplittingMarks(path: string, text: string, separator: char, start: nat, count: nat)
    requires SplitsOff(text, separator)
    ensures DiffMarks([Splitting(path, text, separator, start, count)]) ==
      [Names(path), Names(path)] + ([Covers([1])] + [Covers(Span(start, count))])
  {
    var h := OneAdded(0, 1, text + [separator] + HeaderText(0, 0, start, count, ""));
    SplitPieces(text, separator, start, count);
    OneAddedMarks(h, text + [separator] + HeaderText(0, 0, start, count, ""));
    ChangedMarks(path, [h]);
    OneMoreGathered([h], [], h, HunkMarks);
    assert [] + [Covers(Span(start, count))] == [Covers(Span(start, count))];
  }

  lemma SplittingCredits(path: string, lines: seq<nat>)
    ensures var marks := [Names(path), Names(path)] + ([Covers([1])] + [Covers(lines)]);
      && Failure(marks).None? && Mentioned(marks) == [path] && Credited(marks, path) == [1] + lines
  {
    var marks := [Names(path)] + [Names(path)] + [Covers([1])] + [Covers(lines)];
    assert marks == [Names(path), Names(path)] + ([Covers([1])] + [Covers(lines)]);
    OneMoreMark([], Names(path), path);
    assert [] + [Names(path)] == [Names(path)];
    OneMoreMark([Names(path)], Names(path), path);
    OneMoreMark([Names(path)] + [Names(path)], Covers([1]), path);
    OneMoreMark([Names(path)] + [Names(path)] + [Covers([1])], Covers(lines), path);
  }

  // For every text, separator and range: an added line `text<separator>@@ -0,0
  // +start,count @@` also counts the lines of that range as added, and breaks
  // the round trip unless the range holds no line but 1.
  lemma AddedTextCanPoseAsAHunk(path: string, text: string, separator: char, start: nat, count: nat)
    requires IsPlain(path) && StaysInside(path) && SplitsOff(text, separator)
    ensures var f := Splitting(path, text, separator, start, count);
      && AllLaidOut([f]) && Covered(f.hunks) == [1]
      && Parsed(Unlines(PrintAll([f]))) == Ok(Diff([path], map[path := SortedSet([1] + Span(start, count))]))
      && (ReadsBack([f]) <==> count == 0 || (start == 1 && count == 1))
  {
    var f := Splitting(path, text, separator, start, count);
    var marks := DiffMarks([f]);
    SplittingMarks(path, text, separator, start, count);
    SplittingCredits(path, Span(start, count));
    SplittingCovers(f);
    PrintedDiffIsRead([f]);
    SplittingIsHeld(marks, path, [1] + Span(start, count));
    ReadsBackExactly([f]);
    RangeAddsNothing(start, count);
    assert Paths([f]) == [path] && [f][0] == f;
  }

  lemma SplittingCovers(f: FileDiff)
    requires |f.hunks| == 1 && f.hunks[0].start == 1 && |f.hunks[0].body| == 1 && f.hunks[0].body[0].Added?
    ensures Covered(f.hunks) == [1]
  {
    var h := f.hunks[0];
    assert h.body[..0] == [] && CountAdded(h.body) == 1;
    assert f.hunks[..0] == [] && Covered(f.hunks) == Covered(f.hunks[..0]) + Span(1, 1);
    assert Span(1, 1) == [1];
  }

  lemma DiffOfOne(d: Diff, path: string, lines: seq<nat>)
    requires d.files == [path] && d.lines.Keys == {path} && d.lines[path] == lines
    ensures d == Diff([path], map[path := lines])
  {
    assert d.lines == map[path := lines];
  }

  lemma HeldOfOne(marks: seq<Mark>, path: string)
    requires Mentioned(marks) == [path]
    ensures var d := Finished(Holding(marks).diff);
      d.files == [path] && d.lines.Keys == {path} && d.lines[path] == SortedSet(Credited(marks, path))
  {
    var held := Holding(marks).diff;
    assert path in Mentioned(marks) && held.lines.Keys == {path} && held.lines[path] == Credited(marks, path);
    assert Finished(held).lines.Keys == held.lines.Keys;
  }

  lemma SplittingIsHeld(marks: seq<Mark>, path: string, lines: seq<nat>)
    requires Mentioned(marks) == [path] && Credited(marks, path) == lines
    ensures Finished(Holding(marks).diff) == Diff([path], map[path := SortedSet(lines)])
  {
    HeldOfOne(marks, path);
    DiffOfOne(Finished(Holding(marks).diff), path, SortedSet(lines));
  }

  lemma RangeAddsNothing(start: nat, count: nat)
    ensures SameNumbers([1] + Span(start, count), [1]) <==> count == 0 || (start == 1 && count == 1)
  {
    var all := [1] + Span(start, count);
    if count == 0 {
      assert all == [1];
    } else if start == 1 && count == 1 {
      assert all == [1, 1];
      assert forall x :: x in all <==> x in [1];
    } else {
      var other := if start == 1 then start + count - 1 else start;
      assert all[if start == 1 then count else 1] == other;
      assert other in all && other !in [1];
    }
  }

  // ---- paths with a space ----

  // The first line and the new name of a path `a b`; git does not quote it, and
  // ends the name with a tab.
  function SpacedFirst(a: string, b: string): string {
    "diff" + " " + ("--git" + " " + (("a/" + a) + " " + (b + " " + (("b/" + a) + " " + b))))
  }

  function SpacedName(a: string, b: string): string {
    "+++ " + ("b/" + a + " " + b + "\t")
  }

  lemma SpacedWords(a: string, b: string)
    requires IsPlain(a) && IsPlain(b) && b != ""
    ensures LineMarks(SpacedFirst(a, b)) == [NameMark(b)]
  {
    assert IsPlain("diff") && IsPlain("--git") && IsPlain("a/" + a) && IsPlain("b/" + a);
    PlainIsAWord(b, "");
    PlainIsAWord("b/" + a, b);
    PlainIsAWord(b, ("b/" + a) + " " + b);
    PlainIsAWord("a/" + a, b + " " + (("b/" + a) + " " + b));
    PlainIsAWord("--git", ("a/" + a) + " " + (b + " " + (("b/" + a) + " " + b)));
    PlainIsAWord("diff", "--git" + " " + (("a/" + a) + " " + (b + " " + (("b/" + a) + " " + b))));
    assert SpacedFirst(a, b)[..11] == "diff --git ";
  }

  lemma SpacedNameMarks(a: string, b: string)
    ensures LineMarks(SpacedName(a, b)) == [NameMark("b/" + a + " " + b + "\t")]
  {
    var value, line := "b/" + a + " " + b + "\t", SpacedName(a, b);
    assert line[..4] == "+++ " && line[4..] == value;
    assert line[0] == '+' && value[0] == 'b' && "/dev/null"[0] == '/';
  }

  // A name is as long as the path it stands for, but for a leading `a/` or `b/`.
  lemma NamesByLength(value: string, path: string)
    requires |path| != |value| && |path| + 2 != |value|
    ensures NameMark(value) != Names(path)
  {
  }

  // A path with a space is never listed from these lines: the first one names
  // its last word, and the other its name with a tab.
  lemma SpacedPathIsMisread(a: string, b: string)
    requires IsPlain(a) && IsPlain(b) && b != ""
    ensures a + " " + b !in Mentioned(Marks([SpacedFirst(a, b), SpacedName(a, b)]))
    ensures Marks([SpacedFirst(a, b), SpacedName(a, b)]) == [NameMark(b), NameMark("b/" + a + " " + b + "\t")]
  {
    var path, value := a + " " + b, "b/" + a + " " + b + "\t";
    SpacedWords(a, b);
    SpacedNameMarks(a, b);
    TwoGathered(SpacedFirst(a, b), SpacedName(a, b), LineMarks);
    NamesByLength(value, path);
    NamesByLength(b, path);
    MentionedIsNamed([NameMark(b), NameMark(value)], path);
  }
}
