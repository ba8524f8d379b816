/**
 * The compiler-directive line transformer: the leading run of lines that hold a CBL or PROCESS
 * statement is rewritten to a canonical `       CBL ...` form, and the error previously
 * registered for each rewritten line is withdrawn.
 */
module CompilerDirectives {
  import opened Wrappers

  /** A physical line, split into its sequence, indicator, content and comment areas */
  datatype CobolLine = CobolLine(sequenceArea: string, indicatorArea: string, contentArea: string,
                                 commentArea: string)

  /** CobolLine.toString: the whole line */
  function Serialize(line: CobolLine): string
  {
    line.sequenceArea + line.indicatorArea + line.contentArea + line.commentArea
  }

  /** CobolLine.serializeWithoutCommentArea: the sequence, indicator and content areas */
  function SerializeWithoutCommentArea(line: CobolLine): string
  {
    line.sequenceArea + line.indicatorArea + line.contentArea
  }

  /** CobolLine.copyCobolLineWithContentArea: the line with its content area replaced */
  function CopyWithContentArea(content: string, line: CobolLine): CobolLine
  {
    line.(contentArea := content)
  }

  // ---------------------------------------------------------------------------------------------
  // Character classes of java.util.regex (no UNICODE_CHARACTER_CLASS, no DOTALL, no UNIX_LINES)
  // ---------------------------------------------------------------------------------------------

  /** `\d` */
  predicate IsDigit(c: char)
  {
    '0' <= c <= '9'
  }

  /** `\s`: space, tab, line feed, vertical tab, form feed, carriage return */
  predicate IsWhitespace(c: char)
  {
    c == ' ' || c == '\t' || c == '\n' || c == '\U{B}' || c == '\U{C}' || c == '\r'
  }

  /** The characters `.` does not match */
  predicate IsLineTerminator(c: char)
  {
    c == '\n' || c == '\r' || c == '\U{85}' || c == '\U{2028}' || c == '\U{2029}'
  }

  predicate NoLineTerminator(s: string)
  {
    forall i :: 0 <= i < |s| ==> !IsLineTerminator(s[i])
  }

  /** No line terminator among the first `n` characters of `s` */
  predicate NoLineTerminatorBefore(s: string, n: nat)
  {
    n <= |s| && forall i :: 0 <= i < n ==> !IsLineTerminator(s[i])
  }

  predicate AllWhitespace(s: string)
  {
    forall i :: 0 <= i < |s| ==> IsWhitespace(s[i])
  }

  predicate AllSpaces(s: string)
  {
    forall i :: 0 <= i < |s| ==> s[i] == ' '
  }

  /** `c` matches the upper-case letter `upper` under `(?i)`, which folds US-ASCII letters only */
  predicate SameLetter(c: char, upper: char)
  {
    c == upper || ('A' <= upper <= 'Z' && c as int == upper as int + 32)
  }

  /** `CBL`, in any case, starts at `i` */
  predicate IsCblAt(s: string, i: nat)
  {
    i + 3 <= |s| && SameLetter(s[i], 'C') && SameLetter(s[i + 1], 'B') && SameLetter(s[i + 2], 'L')
  }

  /** `PROCESS`, in any case, starts at `i` */
  predicate IsProcessAt(s: string, i: nat)
  {
    && i + 7 <= |s|
    && SameLetter(s[i], 'P') && SameLetter(s[i + 1], 'R') && SameLetter(s[i + 2], 'O')
    && SameLetter(s[i + 3], 'C') && SameLetter(s[i + 4], 'E') && SameLetter(s[i + 5], 'S')
    && SameLetter(s[i + 6], 'S')
  }

  /** Length of the directive keyword starting at `i`, or 0 if none does */
  function KeywordLength(s: string, i: nat): nat
  {
    if IsCblAt(s, i) then 3
    else if IsProcessAt(s, i) then 7
    else 0
  }

  // ---------------------------------------------------------------------------------------------
  // COMPILER_DIRECTIVE_LINE = (?i)(\d.{0,6} +|\s*)(CBL|PROCESS) .+   used with Matcher.matches()
  // ---------------------------------------------------------------------------------------------

  /** The group `(\d.{0,6} +|\s*)`: a sequence number (a digit, up to six more characters, then
      one or more spaces), or only whitespace */
  predicate IsDirectivePrefix(p: string)
  {
    || AllWhitespace(p)
    || (&& |p| >= 2
        && IsDigit(p[0])
        && exists m | 1 <= m <= 7 && m < |p| :: NoLineTerminator(p[1..m]) && AllSpaces(p[m..]))
  }

  /** Matcher.matches() with the keyword starting at `j`: `s[..j]` is the prefix group, then the
      keyword, one space, and at least one more character that is not a line terminator */
  predicate SplitsAsDirective(s: string, j: nat)
  {
    && j <= |s|
    && IsDirectivePrefix(s[..j])
    && KeywordLength(s, j) > 0
    && j + KeywordLength(s, j) + 2 <= |s|
    && s[j + KeywordLength(s, j)] == ' '
    && NoLineTerminator(s[j + KeywordLength(s, j) + 1..])
  }

  /** Some keyword position in `0..j` splits `s` as a directive line */
  predicate SplitsAsDirectiveUpTo(s: string, j: nat)
    decreases j
  {
    SplitsAsDirective(s, j) || (j > 0 && SplitsAsDirectiveUpTo(s, j - 1))
  }

  /** COMPILER_DIRECTIVE_LINE.matcher(s).matches(), trying each keyword position in turn */
  predicate IsDirectiveLine(s: string)
  {
    SplitsAsDirectiveUpTo(s, |s|)
  }

  lemma {:induction false} SplitsUpTo(s: string, j: nat)
    ensures SplitsAsDirectiveUpTo(s, j) <==> exists k :: 0 <= k <= j && SplitsAsDirective(s, k)
    decreases j
  {
    if j > 0 {
      SplitsUpTo(s, j - 1);
    }
  }

  /** A line is recognised exactly when some split of it reads as the pattern's three groups */
  lemma IsDirectiveLineIff(s: string)
    ensures IsDirectiveLine(s) <==> exists j :: 0 <= j <= |s| && SplitsAsDirective(s, j)
  {
    SplitsUpTo(s, |s|);
  }

  // ---------------------------------------------------------------------------------------------
  // replaceAll("(?i)^.*(CBL|PROCESS)", "       CBL")
  // ---------------------------------------------------------------------------------------------

  /** A keyword starts at `i` and `^.*` can reach it: no line terminator lies before it */
  predicate KeywordReachable(w: string, i: nat)
  {
    NoLineTerminatorBefore(w, i) && KeywordLength(w, i) > 0
  }

  /** Index of the first line terminator in `w`, or |w|: how far the greedy `.*` first extends */
  function FirstLineTerminator(w: string): (t: nat)
    ensures NoLineTerminatorBefore(w, t)
    ensures t < |w| ==> IsLineTerminator(w[t])
  {
    if w == [] || IsLineTerminator(w[0]) then 0
    else 1 + FirstLineTerminator(w[1..])
  }

  /** Backtracking of `.*` from position `j` down to 0: the first position at which a keyword
      starts. */
  function ScanBack(w: string, j: nat): (r: Option<nat>)
    requires j <= |w|
    ensures r.Some? ==> r.value <= j && KeywordLength(w, r.value) > 0
    ensures r.Some? ==> forall k :: r.value < k <= j ==> KeywordLength(w, k) == 0
    ensures r.None? ==> forall k :: 0 <= k <= j ==> KeywordLength(w, k) == 0
    decreases j
  {
    if KeywordLength(w, j) > 0 then Some(j)
    else if j == 0 then None
    else ScanBack(w, j - 1)
  }

  /** Where `^.*(CBL|PROCESS)` matches its keyword: the last reachable keyword start, if any */
  function LastKeyword(w: string): (r: Option<nat>)
    ensures r.Some? ==> KeywordReachable(w, r.value)
    ensures r.Some? ==> forall k :: r.value < k <= |w| ==> !KeywordReachable(w, k)
    ensures r.None? ==> forall k :: 0 <= k <= |w| ==> !KeywordReachable(w, k)
  {
    var t := FirstLineTerminator(w);
    assert forall k :: t < k <= |w| ==> !NoLineTerminatorBefore(w, k);
    ScanBack(w, t)
  }

  /** The canonical directive opening: the keyword CBL starting in column 8 */
  const CanonicalDirective: string := "       CBL"

  /** The rewritten text of a directive line: everything up to and including the last reachable
      keyword becomes `       CBL`; a text with no reachable keyword is left as it is. */
  function RewriteContent(w: string): string
  {
    match LastKeyword(w)
    case None => w
    case Some(i) => CanonicalDirective + w[i + KeywordLength(w, i)..]
  }

  /** The new line built for a matching line: its text without the comment area, rewritten, becomes
      its content area */
  function RewriteLine(line: CobolLine): CobolLine
  {
    CopyWithContentArea(RewriteContent(SerializeWithoutCommentArea(line)), line)
  }

  // ---------------------------------------------------------------------------------------------
  // Properties of the rewrite
  // ---------------------------------------------------------------------------------------------

  lemma KeywordLettersAreNotTerminators(w: string, i: nat)
    requires KeywordLength(w, i) > 0
    ensures i + KeywordLength(w, i) <= |w|
    ensures forall q :: i <= q < i + KeywordLength(w, i) ==> !IsLineTerminator(w[q])
  {
  }

  /** A keyword found in `b` is found at the same place in `a + b` */
  lemma KeywordLengthShift(a: string, b: string, p: nat)
    ensures KeywordLength(a + b, |a| + p) == KeywordLength(b, p)
  {
  }

  /** A keyword reachable after the canonical opening put in front of `w[e..]` is reachable in `w`
      itself, when no line terminator comes before `e` */
  lemma ReachableAfterCanonical(w: string, e: nat, p: nat)
    requires NoLineTerminatorBefore(w, e)
    requires KeywordReachable(CanonicalDirective + w[e..], |CanonicalDirective| + p)
    ensures KeywordReachable(w, e + p)
  {
    var tail := w[e..];
    var r := CanonicalDirective + tail;
    KeywordLengthShift(CanonicalDirective, tail, p);
    assert w == w[..e] + tail;
    KeywordLengthShift(w[..e], tail, p);
    forall q | e <= q < e + p
      ensures !IsLineTerminator(w[q])
    {
      assert w[q] == r[|CanonicalDirective| + (q - e)];
    }
  }

  /** The text that follows the last reachable keyword holds no reachable keyword of its own,
      even once `       CBL` stands in front of it */
  lemma TailHasNoReachableKeyword(w: string, p: nat)
    requires LastKeyword(w).Some?
    ensures var i := LastKeyword(w).value;
            !KeywordReachable(CanonicalDirective + w[i + KeywordLength(w, i)..], |CanonicalDirective| + p)
  {
    var i := LastKeyword(w).value;
    var e := i + KeywordLength(w, i);
    KeywordLettersAreNotTerminators(w, i);
    if KeywordReachable(CanonicalDirective + w[e..], |CanonicalDirective| + p) {
      ReachableAfterCanonical(w, e, p);
      assert false;
    }
  }

  /**
   * After one rewrite, the only keyword `^.*(CBL|PROCESS)` can reach is the canonical CBL in
   * column 8, and what follows it is the text that followed the last keyword of the original.
   */
  lemma RewriteContentCanonical(w: string)
    requires LastKeyword(w).Some?
    ensures var i := LastKeyword(w).value;
            RewriteContent(w) == CanonicalDirective + w[i + KeywordLength(w, i)..]
    ensures LastKeyword(RewriteContent(w)) == Some(7)
  {
    var i := LastKeyword(w).value;
    KeywordLettersAreNotTerminators(w, i);
    var r := CanonicalDirective + w[i + KeywordLength(w, i)..];
    assert r[7..|CanonicalDirective|] == "CBL";
    assert KeywordReachable(r, 7);
    forall k | 7 < k <= |r|
      ensures !KeywordReachable(r, k)
    {
      if k < |CanonicalDirective| {
        assert KeywordLength(r, k) == 0;
      } else {
        TailHasNoReachableKeyword(w, k - |CanonicalDirective|);
      }
    }
  }

  /** Rewriting an already rewritten text changes nothing */
  lemma RewriteContentIdempotent(w: string)
    ensures RewriteContent(RewriteContent(w)) == RewriteContent(w)
  {
    if LastKeyword(w).Some? {
      RewriteContentCanonical(w);
      var r := RewriteContent(w);
      assert r[7 + 3..] == r[|CanonicalDirective|..];
    }
  }

  /**
   * Rewriting a text that has areas without line terminators in front of an already rewritten
   * text gives the rewritten text back: the canonical CBL is still the last reachable keyword.
   */
  lemma RewriteContentAfterAreas(q: string, w: string)
    requires NoLineTerminator(q) && LastKeyword(w).Some?
    ensures RewriteContent(q + RewriteContent(w)) == RewriteContent(w)
  {
    RewriteContentCanonical(w);
    var r := RewriteContent(w);
    var s := q + r;
    assert KeywordReachable(r, 7);
    KeywordLengthShift(q, r, 7);
    forall i | 0 <= i < |q| + 7
      ensures !IsLineTerminator(s[i])
    {
      if i >= |q| {
        assert s[i] == r[i - |q|];
      }
    }
    assert KeywordReachable(s, |q| + 7);
    forall k | |q| + 7 < k <= |s|
      ensures !KeywordReachable(s, k)
    {
      var j := k - |q|;
      KeywordLengthShift(q, r, j);
      assert !KeywordReachable(r, j);
      if KeywordLength(r, j) > 0 {
        var i :| 0 <= i < j && IsLineTerminator(r[i]);
        assert s[|q| + i] == r[i];
      }
    }
    assert LastKeyword(s) == Some(|q| + 7);
    assert s[|q| + 7 + 3..] == r[|CanonicalDirective|..];
  }

  /**
   * A line whose last reachable keyword lies before its comment area, and whose sequence and
   * indicator areas hold no line terminator, is rewritten once and for all.
   */
  predicate KeywordBeforeCommentArea(line: CobolLine)
  {
    NoLineTerminator(line.sequenceArea + line.indicatorArea)
    && LastKeyword(SerializeWithoutCommentArea(line)).Some?
  }

  /** Rewriting an already rewritten line changes nothing, when its keyword is before the comment area */
  lemma RewriteLineIdempotent(line: CobolLine)
    requires KeywordBeforeCommentArea(line)
    ensures RewriteLine(RewriteLine(line)) == RewriteLine(line)
  {
    var w := SerializeWithoutCommentArea(line);
    assert SerializeWithoutCommentArea(RewriteLine(line))
           == line.sequenceArea + line.indicatorArea + RewriteContent(w);
    RewriteContentAfterAreas(line.sequenceArea + line.indicatorArea, w);
  }

  // ---------------------------------------------------------------------------------------------
  // The leading run of directive lines
  // ---------------------------------------------------------------------------------------------

  /** How many lines, from the top, match the directive pattern before the first one that does not */
  function RunLength(lines: seq<CobolLine>): (k: nat)
    ensures k <= |lines|
    ensures forall i :: 0 <= i < k ==> IsDirectiveLine(Serialize(lines[i]))
    ensures k < |lines| ==> !IsDirectiveLine(Serialize(lines[k]))
  {
    if lines == [] || !IsDirectiveLine(Serialize(lines[0])) then 0
    else 1 + RunLength(lines[1..])
  }

  /** What removeLinesWithCompilerDirectives makes of the lines; NormalizeSpec says what that is */
  function Normalize(lines: seq<CobolLine>): (r: seq<CobolLine>)
    ensures |r| == |lines|
  {
    if lines == [] || !IsDirectiveLine(Serialize(lines[0])) then lines
    else [RewriteLine(lines[0])] + Normalize(lines[1..])
  }

  /**
   * Every line of the leading directive run is rewritten, every later line is left as it is, even
   * one that would match, and only content areas change.
   */
  lemma {:induction false} NormalizeSpec(lines: seq<CobolLine>)
    ensures forall i :: 0 <= i < RunLength(lines) ==> Normalize(lines)[i] == RewriteLine(lines[i])
    ensures forall i :: RunLength(lines) <= i < |lines| ==> Normalize(lines)[i] == lines[i]
    ensures forall i :: 0 <= i < |lines| ==>
              Normalize(lines)[i].(contentArea := lines[i].contentArea) == lines[i]
  {
    if lines != [] && IsDirectiveLine(Serialize(lines[0])) {
      var r, rest := Normalize(lines), Normalize(lines[1..]);
      NormalizeSpec(lines[1..]);
      assert r == [RewriteLine(lines[0])] + rest;
      assert RunLength(lines) == 1 + RunLength(lines[1..]);
      forall i | 0 < i < |lines|
        ensures r[i] == rest[i - 1] && lines[i] == lines[1..][i - 1]
      {
      }
    }
  }

  /** Normalising the output again changes nothing when every line of the leading run has its
      keyword before the comment area: the second pass stops no later than the first, and every
      line it rewrites was already rewritten. */
  lemma {:induction false} NormalizeIdempotent(lines: seq<CobolLine>)
    requires forall i :: 0 <= i < RunLength(lines) ==> KeywordBeforeCommentArea(lines[i])
    ensures Normalize(Normalize(lines)) == Normalize(lines)
  {
    if lines != [] && IsDirectiveLine(Serialize(lines[0])) {
      var once := Normalize(lines);
      assert once == [RewriteLine(lines[0])] + Normalize(lines[1..]);
      assert once[1..] == Normalize(lines[1..]);
      assert RunLength(lines) == 1 + RunLength(lines[1..]);
      if IsDirectiveLine(Serialize(once[0])) {
        forall i | 0 <= i < RunLength(lines[1..])
          ensures KeywordBeforeCommentArea(lines[1..][i])
        {
          assert lines[1..][i] == lines[i + 1];
        }
        NormalizeIdempotent(lines[1..]);
        RewriteLineIdempotent(lines[0]);
      }
    }
  }

  /** The 1-based numbers of the first `k` lines, in increasing order */
  function LineNumbers(k: nat): (r: seq<int>)
    ensures |r| == k
    ensures forall i :: 0 <= i < k ==> r[i] == i + 1
  {
    if k == 0 then [] else LineNumbers(k - 1) + [k]
  }

  lemma LineNumbersStep(log: seq<int>, i: nat)
    ensures log + LineNumbers(i) + [i + 1] == log + LineNumbers(i + 1)
  {
    assert LineNumbers(i + 1) == LineNumbers(i) + [i + 1];
  }

  // ---------------------------------------------------------------------------------------------
  // The transformer
  // ---------------------------------------------------------------------------------------------

  /** The preprocessor listener, seen only through the line numbers whose errors were withdrawn */
  class PreprocessorListener {
    var unregisteredErrors: seq<int>

    constructor ()
      ensures unregisteredErrors == []
    {
      unregisteredErrors := [];
    }

    method UnregisterError(lineNumber: int)
      modifies this
      ensures unregisteredErrors == old(unregisteredErrors) + [lineNumber]
    {
      unregisteredErrors := unregisteredErrors + [lineNumber];
    }
  }

  class CobolCompilerDirectives {
    const listener: PreprocessorListener

    constructor (listener: PreprocessorListener)
      ensures this.listener == listener
    {
      this.listener := listener;
    }

    method TransformLines(lines: array<CobolLine>) returns (r: array<CobolLine>)
      modifies lines, listener
      ensures r == lines
      ensures lines[..] == Normalize(old(lines[..]))
      ensures listener.unregisteredErrors
              == old(listener.unregisteredErrors) + LineNumbers(RunLength(old(lines[..])))
    {
      r := RemoveLinesWithCompilerDirectives(lines);
    }

    /** Walks the lines from the top, rewriting each directive line in place and withdrawing its
        error, and stops at the first line that is not a directive. */
    method RemoveLinesWithCompilerDirectives(lines: array<CobolLine>) returns (r: array<CobolLine>)
      modifies lines, listener
      ensures r == lines
      ensures lines[..] == Normalize(old(lines[..]))
      ensures listener.unregisteredErrors
              == old(listener.unregisteredErrors) + LineNumbers(RunLength(old(lines[..])))
    {
      ghost var original := lines[..];
      ghost var log := listener.unregisteredErrors;
      var i := 0;
      while i < lines.Length
        invariant 0 <= i <= lines.Length
        invariant InRun(original, i)
        invariant lines[..] == RewriteFirst(original, i)
        invariant listener.unregisteredErrors == log + LineNumbers(i)
      {
        if IsDirectiveLine(Serialize(lines[i])) {
          RewriteFirstStep(original, i);
          RewriteAt(lines, i);
          listener.UnregisterError(i + 1);
          LineNumbersStep(log, i);
          i := i + 1;
        } else {
          break;
        }
      }
      RunEnds(original, i);
      NormalizeAgrees(original, RewriteFirst(original, i), i);
      r := lines;
    }
  }

  /** Replaces line `i` by a copy whose content area went through the directive rewrite */
  method RewriteAt(lines: array<CobolLine>, i: nat)
    requires i < lines.Length
    modifies lines
    ensures lines[..] == old(lines[..])[i := RewriteLine(old(lines[i]))]
  {
    var line := lines[i];
    var content := RewriteContent(SerializeWithoutCommentArea(line));
    lines[i] := CopyWithContentArea(content, line);
  }

  /** `lines` with its first `n` lines rewritten */
  ghost function RewriteFirst(lines: seq<CobolLine>, n: nat): (r: seq<CobolLine>)
    requires n <= |lines|
    ensures |r| == |lines|
    ensures forall k :: 0 <= k < n ==> r[k] == RewriteLine(lines[k])
    ensures forall k :: n <= k < |lines| ==> r[k] == lines[k]
  {
    seq(|lines|, k requires 0 <= k < |lines| => if k < n then RewriteLine(lines[k]) else lines[k])
  }

  lemma RewriteFirstStep(lines: seq<CobolLine>, n: nat)
    requires n < |lines|
    ensures RewriteFirst(lines, n)[n := RewriteLine(RewriteFirst(lines, n)[n])] == RewriteFirst(lines, n + 1)
  {
  }

  /** The first `i` lines are all directive lines */
  ghost predicate InRun(lines: seq<CobolLine>, i: nat)
  {
    i <= |lines| && forall k :: 0 <= k < i ==> IsDirectiveLine(Serialize(lines[k]))
  }

  /** Where the loop stops is where the leading run ends */
  lemma RunEnds(lines: seq<CobolLine>, i: nat)
    requires InRun(lines, i)
    requires i == |lines| || !IsDirectiveLine(Serialize(lines[i]))
    ensures i == RunLength(lines)
  {
  }

  lemma NormalizeAgrees(original: seq<CobolLine>, current: seq<CobolLine>, run: nat)
    requires run == RunLength(original) && |current| == |original|
    requires forall k :: 0 <= k < run ==> current[k] == RewriteLine(original[k])
    requires forall k :: run <= k < |original| ==> current[k] == original[k]
    ensures current == Normalize(original)
  {
    NormalizeSpec(original);
  }

  // ---------------------------------------------------------------------------------------------
  // Examples
  // ---------------------------------------------------------------------------------------------

  /** A directive after a sequence number in columns 1-6 */
  lemma SequencedDirectiveExample(s: string)
    requires s == "000100 CBL LIB"
    ensures IsDirectiveLine(s)
  {
    var p := s[..7];
    assert p == "000100 ";
    assert p[1..6] == "00100" && p[6..] == " ";
    assert NoLineTerminator(p[1..6]) && AllSpaces(p[6..]);
    assert IsDirectivePrefix(p);
    assert NoLineTerminator(s[11..]);
    assert SplitsAsDirective(s, 7);
    IsDirectiveLineIff(s);
  }

  /** The keyword is matched without regard to case */
  lemma LowerCaseDirectiveExample(s: string)
    requires s == "       process xref"
    ensures IsDirectiveLine(s)
  {
    assert IsDirectivePrefix(s[..7]) by {
      assert AllWhitespace(s[..7]);
    }
    assert NoLineTerminator(s[15..]);
    assert SplitsAsDirective(s, 7);
    IsDirectiveLineIff(s);
  }

  /** An ordinary statement is not a directive */
  lemma StatementExample(s: string)
    requires s == "       MOVE A TO B."
    ensures !IsDirectiveLine(s)
  {
    forall j | 0 <= j <= |s|
      ensures !SplitsAsDirective(s, j)
    {
      assert KeywordLength(s, j) == 0;
    }
    IsDirectiveLineIff(s);
  }

  /** The keyword must be followed by a space and at least one more character */
  lemma BareKeywordExample(s: string)
    requires s == "       CBL"
    ensures !IsDirectiveLine(s)
  {
    forall j | 0 <= j <= |s|
      ensures !SplitsAsDirective(s, j)
    {
    }
    IsDirectiveLineIff(s);
  }

  /** A text of spaces holds no keyword, so the rewrite leaves it as it is */
  lemma SpacesHaveNoKeyword(w: string)
    requires AllSpaces(w)
    ensures RewriteContent(w) == w
  {
    forall k | 0 <= k <= |w|
      ensures !KeywordReachable(w, k)
    {
      if k < |w| {
        assert w[k] == ' ';
      }
    }
  }

  /**
   * A line whose text without the comment area is blank, such as one whose keyword stands only in
   * its comment area, is rewritten without reaching a fixed point: the rewrite finds no keyword, so
   * the content area becomes the sequence, indicator and content areas, and a second rewrite
   * prepends those areas once more. `CommentAreaDirective` gives such a line that is a directive.
   */
  lemma BlankTextGrows(line: CobolLine)
    requires AllSpaces(SerializeWithoutCommentArea(line))
    requires |line.sequenceArea + line.indicatorArea| > 0
    ensures RewriteLine(line).contentArea == SerializeWithoutCommentArea(line)
    ensures |RewriteLine(RewriteLine(line)).contentArea|
            == |line.sequenceArea + line.indicatorArea| + |RewriteLine(line).contentArea|
    ensures RewriteLine(RewriteLine(line)) != RewriteLine(line)
  {
    var q := line.sequenceArea + line.indicatorArea;
    var w := SerializeWithoutCommentArea(line);
    BlankTextKept(line);
    var once := RewriteLine(line);
    assert SerializeWithoutCommentArea(once) == q + w;
    assert forall i :: 0 <= i < |q| ==> q[i] == w[i];
    BlankTextKept(once);
  }

  /** A line with blank sequence, indicator and content areas and `CBL X` in its comment area
      matches the directive pattern */
  lemma CommentAreaDirective(s: string)
    requires s == Serialize(CobolLine("      ", " ", "", "CBL X"))
    ensures IsDirectiveLine(s)
  {
    assert s == "       CBL X";
    assert IsDirectivePrefix(s[..7]) by {
      assert AllWhitespace(s[..7]);
    }
    assert NoLineTerminator(s[11..]);
    assert SplitsAsDirective(s, 7);
    IsDirectiveLineIff(s);
  }

  /** A line whose text without the comment area is blank gets that text as its content area */
  lemma BlankTextKept(line: CobolLine)
    requires AllSpaces(SerializeWithoutCommentArea(line))
    ensures RewriteLine(line).contentArea == SerializeWithoutCommentArea(line)
  {
    SpacesHaveNoKeyword(SerializeWithoutCommentArea(line));
  }

  /** The sequence number and everything up to the keyword become seven spaces */
  lemma SequencedRewriteExample(w: string)
    requires w == "000100 CBL LIB"
    ensures RewriteContent(w) == "       CBL LIB"
  {
    assert KeywordLength(w, 7) == 3;
    forall k | 7 < k <= |w|
      ensures KeywordLength(w, k) == 0
    {
      if k < |w| {
        assert !SameLetter(w[k], 'C') && !SameLetter(w[k], 'P');
      }
    }
    OnlyKeyword(w, 7);
    assert w[10..] == " LIB";
  }

  /** A PROCESS keyword, in any case, becomes CBL */
  lemma ProcessRewriteExample(w: string)
    requires w == "       process xref"
    ensures RewriteContent(w) == "       CBL xref"
  {
    assert KeywordLength(w, 7) == 7;
    forall k | 7 < k <= |w|
      ensures KeywordLength(w, k) == 0
    {
      if k < |w| && k != 10 {
        assert !SameLetter(w[k], 'C') && !SameLetter(w[k], 'P');
      }
    }
    OnlyKeyword(w, 7);
    assert w[14..] == " xref";
  }

  const ExampleLines: seq<CobolLine> :=
    [CobolLine("000100", " ", "CBL LIB", ""), CobolLine("      ", " ", "process xref", ""),
     CobolLine("      ", " ", "MOVE A TO B.", ""), CobolLine("000100", " ", "CBL LIB", "")]

  /** The leading run of `[directive, directive, MOVE A TO B, directive]` is two lines long */
  lemma ExampleRunLength(lines: seq<CobolLine>)
    requires lines == ExampleLines
    ensures RunLength(lines) == 2
  {
    var first, second, third := Serialize(lines[0]), Serialize(lines[1]), Serialize(lines[2]);
    assert first == "000100 CBL LIB";
    assert second == "       process xref";
    assert third == "       MOVE A TO B.";
    SequencedDirectiveExample(first);
    LowerCaseDirectiveExample(second);
    StatementExample(third);
    assert lines[1..][0] == lines[1] && lines[1..][1..][0] == lines[2];
  }

  /** Only the first two lines are rewritten; the fourth is not although it is a directive */
  lemma LeadingRunExample(lines: seq<CobolLine>)
    requires lines == ExampleLines
    ensures |Normalize(lines)| == 4
    ensures Normalize(lines)[0] == CobolLine("000100", " ", "       CBL LIB", "")
    ensures Normalize(lines)[1] == CobolLine("      ", " ", "       CBL xref", "")
    ensures Normalize(lines)[2] == lines[2] && Normalize(lines)[3] == lines[3]
  {
    ExampleTexts(lines);
    SequencedRewriteExample(SerializeWithoutCommentArea(lines[0]));
    ProcessRewriteExample(SerializeWithoutCommentArea(lines[1]));
    ExampleRunLength(lines);
    RunOfTwo(lines);
  }

  /** A run of two directive lines followed by a line that is not one */
  lemma RunOfTwo(lines: seq<CobolLine>)
    requires |lines| == 4 && RunLength(lines) == 2
    ensures Normalize(lines) == [RewriteLine(lines[0]), RewriteLine(lines[1]), lines[2], lines[3]]
  {
    var rest := lines[2..];
    assert !IsDirectiveLine(Serialize(rest[0]));
    assert Normalize(rest) == rest;
    assert lines[1..][1..] == rest;
  }

  /** The example's first two lines without their comment areas */
  lemma ExampleTexts(lines: seq<CobolLine>)
    requires lines == ExampleLines
    ensures SerializeWithoutCommentArea(lines[0]) == "000100 CBL LIB"
    ensures SerializeWithoutCommentArea(lines[1]) == "       process xref"
  {
  }

  /** Only lines 1 and 2 have their errors withdrawn */
  lemma WithdrawnErrorsExample(lines: seq<CobolLine>)
    requires lines == ExampleLines
    ensures LineNumbers(RunLength(lines)) == [1, 2]
  {
    ExampleRunLength(lines);
    assert LineNumbers(2) == LineNumbers(1) + [2];
  }

  /** Helper for the example: the rewrite of a text whose only keyword starts at `i` */
  lemma OnlyKeyword(w: string, i: nat)
    requires i <= |w| && KeywordLength(w, i) > 0 && NoLineTerminatorBefore(w, i)
    requires forall k :: i < k <= |w| ==> KeywordLength(w, k) == 0
    ensures RewriteContent(w) == CanonicalDirective + w[i + KeywordLength(w, i)..]
  {
    assert KeywordReachable(w, i);
  }
}
