/**
  What the diff parser reads from a text, said without its state: each line is
  turned into at most one mark, and the answer is read off the marks.
 */
module GitDiffMarks {
  import opened Wrappers
  import opened Text
  import opened GitDiff

  // A file is named, no file is named any more, lines are covered, or the line
  // is refused.
  datatype Mark = Names(file: string) | Deselects | Covers(lines: seq<nat>) | Fails(error: DiffError)

  function NameMark(value: string): Mark {
    var name := NormalizePath(value);
    if name.None? then Fails(BadPath) else Names(name.value)
  }

  function LineMarks(line: string): seq<Mark> {
    if StartsWith(line, "diff --git ") then
      var words := ShellWords(line);
      [if words.None? then Fails(BadQuoting)
       else if |words.value| < 4 then Deselects
       else NameMark(words.value[|words.value| - 1])]
    else if StartsWith(line, "+++ ") then
      if line[4..] == "/dev/null" then [] else [NameMark(line[4..])]
    else
      var hunk := ParseHunk(line);
      if hunk.None? then [] else [Covers(Span(hunk.value.0, hunk.value.1))]
  }

  function Marks(lines: seq<string>): seq<Mark> {
    Gathered(lines, LineMarks)
  }

  lemma OneLineMarks(line: string)
    ensures Marks([line]) == LineMarks(line)
  {
    OneMoreGathered([line], [], line, LineMarks);
  }

  lemma MarksGoOn(a: seq<string>, b: seq<string>)
    ensures Marks(a + b) == Marks(a) + Marks(b)
  {
    GatheringGoesOn(a, b, LineMarks);
  }

  // ---- what marks say ----

  // The first refusal.
  function Failure(marks: seq<Mark>): Option<DiffError> {
    if marks == [] then None
    else
      var before, last := Failure(marks[..|marks| - 1]), marks[|marks| - 1];
      if before.Some? then before else if last.Fails? then Some(last.error) else None
  }

  // The file named last.
  function Selected(marks: seq<Mark>): Option<string> {
    if marks == [] then None
    else
      match marks[|marks| - 1]
      case Names(file) => Some(file)
      case Deselects => None
      case _ => Selected(marks[..|marks| - 1])
  }

  // The files named, in the order of their first mention.
  function Mentioned(marks: seq<Mark>): seq<string> {
    if marks == [] then []
    else
      var front, last := Mentioned(marks[..|marks| - 1]), marks[|marks| - 1];
      if last.Names? && last.file !in front then front + [last.file] else front
  }

  // The lines covered while this file was the one named last.
  function Credited(marks: seq<Mark>, file: string): seq<nat> {
    if marks == [] then []
    else
      var front, last := marks[..|marks| - 1], marks[|marks| - 1];
      Credited(front, file) + if last.Covers? && Selected(front) == Some(file) then last.lines else []
  }

  lemma OneMoreMark(before: seq<Mark>, mark: Mark, file: string)
    ensures var after := before + [mark];
      && Failure(after) == (if Failure(before).Some? then Failure(before)
                            else if mark.Fails? then Some(mark.error) else None)
      && Selected(after) == (if mark.Names? then Some(mark.file) else if mark.Deselects? then None else Selected(before))
      && Mentioned(after) == Mentioned(before) +
           (if mark.Names? && mark.file !in Mentioned(before) then [mark.file] else [])
      && Credited(after, file) == Credited(before, file) +
           if mark.Covers? && Selected(before) == Some(file) then mark.lines else []
  {
    assert (before + [mark])[..|before|] == before;
  }

  lemma {:induction false} SelectedIsMentioned(marks: seq<Mark>)
    ensures Selected(marks).Some? ==> Selected(marks).value in Mentioned(marks)
  {
    if marks != [] {
      SelectedIsMentioned(marks[..|marks| - 1]);
    }
  }

  lemma {:induction false} MentionedIsNamed(marks: seq<Mark>, file: string)
    ensures file in Mentioned(marks) <==> Names(file) in marks
  {
    if marks != [] {
      MentionedIsNamed(marks[..|marks| - 1], file);
      assert marks == marks[..|marks| - 1] + [marks[|marks| - 1]];
    }
  }

  lemma {:induction false} FailureIsMarked(marks: seq<Mark>)
    ensures Failure(marks).Some? <==> exists m :: m in marks && m.Fails?
  {
    if marks != [] {
      FailureIsMarked(marks[..|marks| - 1]);
      assert marks == marks[..|marks| - 1] + [marks[|marks| - 1]];
      assert marks[|marks| - 1] in marks;
    }
  }

  lemma {:induction false} UnmentionedHasNoCredit(marks: seq<Mark>, file: string)
    requires file !in Mentioned(marks)
    ensures Credited(marks, file) == []
  {
    if marks != [] {
      UnmentionedHasNoCredit(marks[..|marks| - 1], file);
      SelectedIsMentioned(marks[..|marks| - 1]);
    }
  }

  // ---- the parser follows the marks ----

  // What the parser holds after these marks.
  function Holding(marks: seq<Mark>): Parser {
    Parser(Diff(Mentioned(marks), map file | file in Mentioned(marks) :: Credited(marks, file)), Selected(marks))
  }

  function Held(marks: seq<Mark>): Result<Parser, DiffError> {
    if Failure(marks).Some? then Err(Failure(marks).value) else Ok(Holding(marks))
  }

  // The parser has listed and credited what the marks say.
  ghost predicate Agrees(p: Parser, marks: seq<Mark>) {
    && p.current == Selected(marks) && p.diff.files == Mentioned(marks)
    && (forall file :: file in p.diff.lines <==> file in p.diff.files)
    && forall file :: file in p.diff.lines ==> p.diff.lines[file] == Credited(marks, file)
  }

  lemma AgreesIsHolding(p: Parser, marks: seq<Mark>)
    requires Agrees(p, marks)
    ensures p == Holding(marks)
  {
    assert p.diff.lines == Holding(marks).diff.lines;
  }

  lemma HoldingAgrees(marks: seq<Mark>)
    ensures Agrees(Holding(marks), marks)
  {
  }

  lemma CreditsAfter(before: seq<Mark>, mark: Mark)
    ensures forall file ::
      Credited(before + [mark], file) ==
      Credited(before, file) + if mark.Covers? && Selected(before) == Some(file) then mark.lines else []
  {
    forall file
      ensures Credited(before + [mark], file) ==
        Credited(before, file) + if mark.Covers? && Selected(before) == Some(file) then mark.lines else []
    {
      OneMoreMark(before, mark, file);
    }
  }

  lemma NameHolds(before: seq<Mark>, file: string)
    ensures Enter(Holding(before), file) == Holding(before + [Names(file)])
  {
    var p := Holding(before);
    HoldingAgrees(before);
    CreditsAfter(before, Names(file));
    OneMoreMark(before, Names(file), file);
    if file !in Mentioned(before) {
      UnmentionedHasNoCredit(before, file);
    }
    EnterAgrees(p, before, before + [Names(file)], file);
  }

  lemma EnterAgrees(p: Parser, before: seq<Mark>, after: seq<Mark>, file: string)
    requires Agrees(p, before) && Selected(after) == Some(file)
    requires Mentioned(after) == Mentioned(before) + if file in Mentioned(before) then [] else [file]
    requires forall x :: Credited(after, x) == Credited(before, x) + []
    requires file !in Mentioned(before) ==> Credited(before, file) == []
    ensures Enter(p, file) == Holding(after)
  {
    AgreesIsHolding(Enter(p, file), after);
  }

  lemma DeselectHolds(before: seq<Mark>)
    ensures Holding(before).(current := None) == Holding(before + [Deselects])
  {
    HoldingAgrees(before);
    CreditsAfter(before, Deselects);
    OneMoreMark(before, Deselects, "");
    SelectAgrees(Holding(before), before, before + [Deselects]);
  }

  lemma SelectAgrees(p: Parser, before: seq<Mark>, after: seq<Mark>)
    requires Agrees(p, before) && Mentioned(after) == Mentioned(before)
    requires forall x :: Credited(after, x) == Credited(before, x) + []
    ensures p.(current := Selected(after)) == Holding(after)
  {
    AgreesIsHolding(p.(current := Selected(after)), after);
  }

  lemma CoverHolds(before: seq<Mark>, lines: seq<nat>)
    ensures Selected(before).Some? ==> Selected(before).value in Holding(before).diff.lines
    ensures Holding(before + [Covers(lines)]) ==
      if Selected(before).None? then Holding(before) else Extend(Holding(before), Selected(before).value, lines)
  {
    HoldingAgrees(before);
    SelectedIsMentioned(before);
    CreditsAfter(before, Covers(lines));
    OneMoreMark(before, Covers(lines), "");
    if Selected(before).None? {
      SelectAgrees(Holding(before), before, before + [Covers(lines)]);
    } else {
      ExtendAgrees(Holding(before), before, before + [Covers(lines)], Selected(before).value, lines);
    }
  }

  lemma ExtendAgrees(p: Parser, before: seq<Mark>, after: seq<Mark>, file: string, lines: seq<nat>)
    requires Agrees(p, before) && file in p.diff.lines
    requires Selected(after) == Selected(before) && Mentioned(after) == Mentioned(before)
    requires forall x :: Credited(after, x) == Credited(before, x) + if x == file then lines else []
    ensures Extend(p, file, lines) == Holding(after)
  {
    assert forall x :: Credited(before, x) + [] == Credited(before, x);
    AgreesIsHolding(Extend(p, file, lines), after);
  }

  // A parser reads the file it has selected among those it has listed.
  predicate Sane(p: Parser) {
    p.current.Some? ==> p.current.value in p.diff.files && p.current.value in p.diff.lines
  }

  function Act(p: Parser, mark: Mark): Result<Parser, DiffError>
    requires Sane(p)
  {
    match mark
    case Names(file) => Ok(Enter(p, file))
    case Deselects => Ok(p.(current := None))
    case Covers(lines) => Ok(if p.current.None? then p else Extend(p, p.current.value, lines))
    case Fails(error) => Err(error)
  }

  // All the parser does with a line is what the line's mark says.
  lemma LineActs(p: Parser, line: string)
    requires Sane(p)
    ensures |LineMarks(line)| <= 1
    ensures ParseLine(p, line) == if LineMarks(line) == [] then Ok(p) else Act(p, LineMarks(line)[0])
  {
  }

  lemma MarkHolds(before: seq<Mark>, mark: Mark)
    requires Failure(before).None?
    ensures Sane(Holding(before)) && Act(Holding(before), mark) == Held(before + [mark])
  {
    SelectedIsMentioned(before);
    OneMoreMark(before, mark, "");
    match mark
    case Names(file) => NameHolds(before, file);
    case Deselects => DeselectHolds(before);
    case Covers(lines) => CoverHolds(before, lines);
    case Fails(_) =>
  }

  lemma ActHolds(before: seq<Mark>, marks: seq<Mark>, after: Result<Parser, DiffError>)
    requires Failure(before).None? && |marks| <= 1 && Sane(Holding(before))
    requires after == if marks == [] then Ok(Holding(before)) else Act(Holding(before), marks[0])
    ensures after == Held(before + marks)
  {
    if marks == [] {
      assert before + [] == before;
    } else {
      MarkHolds(before, marks[0]);
      assert marks == [marks[0]];
    }
  }

  lemma LineHolds(before: seq<Mark>, line: string)
    requires Failure(before).None?
    ensures ParseLine(Holding(before), line) == Held(before + LineMarks(line))
  {
    SelectedIsMentioned(before);
    LineActs(Holding(before), line);
    ActHolds(before, LineMarks(line), ParseLine(Holding(before), line));
  }

  lemma {:induction false} FailureStays(before: seq<Mark>, marks: seq<Mark>)
    requires Failure(before).Some?
    ensures Failure(before + marks) == Failure(before)
  {
    if marks == [] {
      assert before + marks == before;
    } else {
      var front, last := marks[..|marks| - 1], marks[|marks| - 1];
      FailureStays(before, front);
      assert before + marks == before + front + [last];
      OneMoreMark(before + front, last, "");
    }
  }

  // One line takes a parser that holds these marks to what they and its own say.
  ghost predicate Follows(step: (Parser, string) -> Result<Parser, DiffError>, of: string -> seq<Mark>,
                          held: seq<Mark> -> Result<Parser, DiffError>, marks: seq<Mark>, line: string) {
    held(marks + of(line)) == if held(marks).Err? then held(marks) else step(held(marks).value, line)
  }

  // If every line does, all lines together do.
  lemma {:induction false} FoldingFollows(
      before: seq<Mark>, lines: seq<string>, n: nat, step: (Parser, string) -> Result<Parser, DiffError>,
      of: string -> seq<Mark>, held: seq<Mark> -> Result<Parser, DiffError>)
    requires held(before).Ok? && n <= |lines|
    requires forall marks, line :: Follows(step, of, held, marks, line)
    ensures Folded(held(before).value, lines[..n], step) == held(before + Gathered(lines[..n], of))
  {
    if n == 0 {
      assert before + Gathered(lines[..0], of) == before;
    } else {
      var marks, last := before + Gathered(lines[..n - 1], of), lines[n - 1];
      FoldingFollows(before, lines, n - 1, step, of, held);
      OneMoreFolded(held(before).value, lines, n - 1, step);
      OneMoreGathered(lines[..n], lines[..n - 1], last, of);
      assert before + Gathered(lines[..n], of) == marks + of(last);
      assert Follows(step, of, held, marks, last);
    }
  }

  // From any marks on, the parser holds what the marks of its lines add.
  lemma LinesAreRead(before: seq<Mark>, lines: seq<string>)
    requires Failure(before).None?
    ensures ParseLines(Holding(before), lines) == Held(before + Marks(lines))
  {
    forall marks, line
      ensures Follows(ParseLine, LineMarks, Held, marks, line)
    {
      if Failure(marks).None? {
        LineHolds(marks, line);
      } else {
        FailureStays(marks, LineMarks(line));
      }
    }
    FoldingFollows(before, lines, |lines|, ParseLine, LineMarks, Held);
    assert lines[..|lines|] == lines;
  }

  // For every text: the first refused line makes the parse fail; otherwise the
  // files are those named, in the order of their first mention, and the lines of
  // a file are those covered while it was the one named last.
  lemma TextIsRead(text: string)
    ensures var marks := Marks(SplitLines(text));
      Parsed(text) ==
        if Failure(marks).Some? then Err(Failure(marks).value) else Ok(Finished(Holding(marks).diff))
  {
    assert Holding([]) == FRESH;
    LinesAreRead([], SplitLines(text));
    assert [] + Marks(SplitLines(text)) == Marks(SplitLines(text));
  }

  // Reading a listed file, the parser passes over a line exactly when the line
  // has no mark, names that file again or covers nothing.
  lemma LineIsPassed(p: Parser, path: string, line: string)
    requires p.current == Some(path) && path in p.diff.files && path in p.diff.lines
    ensures ParseLine(p, line) == Ok(p) <==> forall m :: m in LineMarks(line) ==> m == Names(path) || m == Covers([])
  {
    LineActs(p, line);
    if LineMarks(line) != [] {
      var mark := LineMarks(line)[0];
      assert LineMarks(line) == [mark] && mark in LineMarks(line);
      if mark.Covers? {
        ExtendSees(p, path, mark.lines);
      }
    }
  }

  lemma ExtendSees(p: Parser, path: string, more: seq<nat>)
    requires path in p.diff.lines
    ensures Extend(p, path, more) == p <==> more == []
  {
    var lines := p.diff.lines[path];
    assert Extend(p, path, more).diff.lines[path] == lines + more;
    assert |lines + more| == |lines| + |more|;
    if more == [] {
      assert lines + more == lines;
      assert Extend(p, path, more).diff.lines == p.diff.lines;
    }
  }

  // ---- blocks of marks that stay in one file ----

  function MarkLines(mark: Mark): seq<nat> {
    if mark.Covers? then mark.lines else []
  }

  lemma LinesOfMarks(marks: seq<Mark>, x: nat)
    ensures x in Gathered(marks, MarkLines) <==> exists m :: m in marks && x in MarkLines(m)
  {
    GatheredHas(marks, MarkLines, x);
    if m :| m in marks && x in MarkLines(m) {
      var i :| 0 <= i < |marks| && marks[i] == m;
      assert x in MarkLines(marks[i]);
    }
  }

  // A name, and after it only that name and covered lines.
  predicate OwnBlock(path: string, marks: seq<Mark>) {
    marks != [] && marks[0] == Names(path) && forall m :: m in marks[1..] ==> m == Names(path) || m.Covers?
  }

  // After these marks the same file is selected, and this one has more lines.
  predicate Grown(before: seq<Mark>, after: seq<Mark>, path: string, file: string, more: seq<nat>) {
    && Failure(after) == Failure(before) && Selected(after) == Some(path) && Mentioned(after) == Mentioned(before)
    && Credited(after, file) == Credited(before, file) + more
  }

  function LinesFor(path: string, file: string, lines: seq<nat>): seq<nat> {
    if file == path then lines else []
  }

  lemma OwnMarkHolds(before: seq<Mark>, mid: seq<Mark>, path: string, file: string, more: seq<nat>, mark: Mark)
    requires Grown(before, mid, path, file, more) && (mark == Names(path) || mark.Covers?)
    ensures Grown(before, mid + [mark], path, file, more + LinesFor(path, file, MarkLines(mark)))
  {
    OneMoreMark(mid, mark, file);
    SelectedIsMentioned(mid);
  }

  // Marks that name this file or cover lines, after this file was named.
  lemma {:induction false} OwnMarksHold(before: seq<Mark>, path: string, marks: seq<Mark>, file: string, n: nat)
    requires Selected(before) == Some(path) && n <= |marks|
    requires forall m :: m in marks ==> m == Names(path) || m.Covers?
    ensures Grown(before, before + marks[..n], path, file, LinesFor(path, file, Gathered(marks[..n], MarkLines)))
  {
    if n == 0 {
      assert before + marks[..0] == before;
    } else {
      var front, last := marks[..n - 1], marks[n - 1];
      OwnMarksHold(before, path, marks, file, n - 1);
      OwnMarkHolds(before, before + front, path, file, LinesFor(path, file, Gathered(front, MarkLines)), last);
      OneMoreGathered(marks[..n], front, last, MarkLines);
      assert before + marks[..n] == before + front + [last];
    }
  }

  // The file's first mark.
  lemma NameBegins(before: seq<Mark>, path: string, file: string)
    requires Failure(before).None? && path !in Mentioned(before)
    ensures var named := before + [Names(path)];
      && Failure(named).None? && Selected(named) == Some(path) && Mentioned(named) == Mentioned(before) + [path]
      && Credited(named, file) == if file == path then [] else Credited(before, file)
  {
    OneMoreMark(before, Names(path), file);
    if file == path {
      UnmentionedHasNoCredit(before, file);
    }
  }

  lemma RestHolds(before: seq<Mark>, path: string, rest: seq<Mark>, file: string)
    requires forall m :: m in rest ==> m == Names(path) || m.Covers?
    requires Selected(before + [Names(path)]) == Some(path)
    ensures Grown(before + [Names(path)], before + ([Names(path)] + rest), path, file,
                  LinesFor(path, file, Gathered(rest, MarkLines)))
  {
    OwnMarksHold(before + [Names(path)], path, rest, file, |rest|);
    assert rest[..|rest|] == rest;
    assert before + [Names(path)] + rest == before + ([Names(path)] + rest);
  }

  lemma NameCoversNothing(marks: seq<Mark>)
    requires marks != [] && marks[0].Names?
    ensures marks == [marks[0]] + marks[1..]
    ensures Gathered(marks, MarkLines) == Gathered(marks[1..], MarkLines)
  {
    GatheringGoesOn([marks[0]], marks[1..], MarkLines);
    OneMoreGathered([marks[0]], [], marks[0], MarkLines);
  }

  // A block adds its file at the end and credits it with the lines covered in
  // it; nothing else changes.
  lemma OwnBlockHolds(before: seq<Mark>, path: string, marks: seq<Mark>, file: string)
    requires OwnBlock(path, marks) && Failure(before).None? && path !in Mentioned(before)
    ensures var after := before + marks;
      && Failure(after).None? && Selected(after) == Some(path) && Mentioned(after) == Mentioned(before) + [path]
      && Credited(after, file) == if file == path then Gathered(marks, MarkLines) else Credited(before, file)
  {
    NameCoversNothing(marks);
    NameBegins(before, path, file);
    RestHolds(before, path, marks[1..], file);
  }

  lemma BlockIsHeld(before: seq<Mark>, path: string, marks: seq<Mark>)
    requires OwnBlock(path, marks) && Failure(before).None? && path !in Mentioned(before)
    ensures var p, after := Holding(before), Held(before + marks);
      && after.Ok? && after.value.current == Some(path) && after.value.diff.files == p.diff.files + [path]
      && after.value.diff.lines.Keys == p.diff.lines.Keys + {path}
      && after.value.diff.lines[path] == Gathered(marks, MarkLines)
      && forall file :: file in p.diff.lines ==> after.value.diff.lines[file] == p.diff.lines[file]
  {
    OwnBlockHolds(before, path, marks, path);
    forall file | file in Holding(before).diff.lines
      ensures Credited(before + marks, file) == Credited(before, file)
    {
      OwnBlockHolds(before, path, marks, file);
    }
  }

  // The marks list these items, and credit each with what its own marks cover.
  predicate Lists<A>(marks: seq<Mark>, items: seq<A>, pathOf: A -> string, marksOf: A -> seq<Mark>) {
    && Failure(marks).None? && |Mentioned(marks)| == |items|
    && (forall i :: 0 <= i < |items| ==> Mentioned(marks)[i] == pathOf(items[i]))
    && forall i :: 0 <= i < |items| ==>
         Credited(marks, pathOf(items[i])) == Gathered(marksOf(items[i]), MarkLines)
  }

  lemma ListsOneMore<A>(marks: seq<Mark>, items: seq<A>, item: A, pathOf: A -> string, marksOf: A -> seq<Mark>)
    requires Lists(marks, items, pathOf, marksOf) && OwnBlock(pathOf(item), marksOf(item))
    requires forall i :: 0 <= i < |items| ==> pathOf(items[i]) != pathOf(item)
    ensures Lists(marks + marksOf(item), items + [item], pathOf, marksOf)
  {
    OwnBlockHolds(marks, pathOf(item), marksOf(item), pathOf(item));
    forall i | 0 <= i < |items|
      ensures Credited(marks + marksOf(item), pathOf(items[i])) == Credited(marks, pathOf(items[i]))
    {
      OwnBlockHolds(marks, pathOf(item), marksOf(item), pathOf(items[i]));
    }
  }

  lemma {:induction false} OwnBlocksHold<A>(items: seq<A>, pathOf: A -> string, marksOf: A -> seq<Mark>)
    requires forall i :: 0 <= i < |items| ==> OwnBlock(pathOf(items[i]), marksOf(items[i]))
    requires forall i, j :: 0 <= i < j < |items| ==> pathOf(items[i]) != pathOf(items[j])
    ensures Lists(Gathered(items, marksOf), items, pathOf, marksOf)
    decreases |items|
  {
    if items != [] {
      var front, last := items[..|items| - 1], items[|items| - 1];
      OwnBlocksHold(front, pathOf, marksOf);
      ListsOneMore(Gathered(front, marksOf), front, last, pathOf, marksOf);
      assert front + [last] == items;
    }
  }
}
