/**
 * The priming batch a `startTail` request sends before live lines: the
 * handler runs the POSIX `tail -n <count>` utility on the file and emits its
 * standard output. The utility itself is not modelled; its output is
 * abstracted as "the last |count| complete lines of the file".
 */
module Priming {
  import opened Basics

  /** Line count used when the client sends none (or a falsy one). */
  const DEFAULT_PRIMING_LINES: int := 10

  /** The `lines` field of a `startTail` payload: absent, or an integer. */
  type LinesArg = Option<int>

  /** One line of a file, without its terminating newline. */
  type Line = s: string | '\n' !in s

  /** `lines || 10`: a truthy count is used as given, otherwise 10. */
  function PrimingCount(lines: LinesArg): (count: int)
    ensures count != 0
    ensures lines.None? ==> count == DEFAULT_PRIMING_LINES
    ensures lines.Some? && lines.value == 0 ==> count == DEFAULT_PRIMING_LINES
    ensures lines.Some? && lines.value != 0 ==> count == lines.value
  {
    match lines
    case None => DEFAULT_PRIMING_LINES
    case Some(n) => if n != 0 then n else DEFAULT_PRIMING_LINES
  }

  /**
   * The lines `tail -n <count>` selects. With no sign or a `-` sign the
   * count is measured from the end of the file, so both `5` and `-5` select
   * the last five lines; a file with fewer lines yields all of them.
   */
  function LastLines(fileLines: seq<Line>, count: int): (r: seq<Line>)
    ensures |r| == if Abs(count) < |fileLines| then Abs(count) else |fileLines|
    ensures IsSuffix(r, fileLines)
  {
    var n := Abs(count);
    if n >= |fileLines| then fileLines else fileLines[|fileLines| - n..]
  }

  /** File contents made of complete lines, each ending in a newline. */
  function JoinLines(ls: seq<Line>): (r: string)
  {
    if |ls| == 0 then "" else ls[0] + "\n" + JoinLines(ls[1..])
  }

  lemma {:induction false} JoinLinesAppend(a: seq<Line>, b: seq<Line>)
    ensures JoinLines(a + b) == JoinLines(a) + JoinLines(b)
    decreases |a|
  {
    if |a| == 0 {
      assert a + b == b;
    } else {
      assert (a + b)[1..] == a[1..] + b;
      JoinLinesAppend(a[1..], b);
    }
  }

  /** The priming output is the end of the file: a suffix of its contents. */
  lemma PrimingIsFileSuffix(fileLines: seq<Line>, count: int)
    ensures IsSuffix(JoinLines(LastLines(fileLines, count)), JoinLines(fileLines))
  {
    var r := LastLines(fileLines, count);
    var front := fileLines[..|fileLines| - |r|];
    assert fileLines == front + r;
    JoinLinesAppend(front, r);
    var whole := JoinLines(fileLines);
    assert whole == JoinLines(front) + JoinLines(r);
    assert whole[|whole| - |JoinLines(r)|..] == JoinLines(r);
  }

  /**
   * Joined complete lines hold exactly one newline per line, so the priming
   * text of `k` lines is `k` lines of the file and no more.
   */
  lemma {:induction false} JoinLinesNewlines(ls: seq<Line>)
    ensures multiset(JoinLines(ls))['\n'] == |ls|
    decreases |ls|
  {
    if |ls| > 0 {
      JoinLinesNewlines(ls[1..]);
      assert '\n' !in multiset(ls[0]);
      assert JoinLines(ls) == ls[0] + "\n" + JoinLines(ls[1..]);
    }
  }
}
