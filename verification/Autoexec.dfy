/** The bootstrap line of autoexec.cfg. */
module Autoexec {
  import opened Wrappers

  function ExecLine(): (line: string)
    ensures line != "" && '/' !in line && '\n' !in line && '\r' !in line
    ensures line[0] == 'e' && line[|line| - 1] == 'g'
  {
    "exec optimization.cfg"
  }

  /** The Unicode White_Space property. */
  predicate IsWhitespace(c: char) {
    || '\t' <= c <= '\r' || c == ' ' || c as int == 0x85 || c as int == 0xA0 || c as int == 0x1680
    || 0x2000 <= c as int <= 0x200A || c as int == 0x2028 || c as int == 0x2029 || c as int == 0x202F
    || c as int == 0x205F || c as int == 0x3000
  }

  predicate IsNewline(c: char) { c == '\r' || c == '\n' }

  function DropWhile(s: string, p: char -> bool): string {
    if s != "" && p(s[0]) then DropWhile(s[1..], p) else s
  }

  function DropLastWhile(s: string, p: char -> bool): string {
    if s != "" && p(s[|s| - 1]) then DropLastWhile(s[..|s| - 1], p) else s
  }

  function Trim(s: string): string { DropLastWhile(DropWhile(s, IsWhitespace), IsWhitespace) }

  function BeforeComment(line: string): string {
    if |line| < 2 then line
    else if line[0] == '/' && line[1] == '/' then ""
    else [line[0]] + BeforeComment(line[1..])
  }

  function LowerChar(c: char): char { if 'A' <= c <= 'Z' then (c as int + 32) as char else c }

  predicate EqualIgnoringCase(a: string, b: string) {
    |a| == |b| && forall i | 0 <= i < |a| :: LowerChar(a[i]) == LowerChar(b[i])
  }

  predicate IsExec(line: string) { EqualIgnoringCase(Trim(BeforeComment(line)), ExecLine()) }

  function FirstNewline(s: string): (i: nat)
    ensures i <= |s|
    ensures i < |s| ==> s[i] == '\n'
    ensures forall k | 0 <= k < i :: s[k] != '\n'
  {
    if s == "" || s[0] == '\n' then 0 else 1 + FirstNewline(s[1..])
  }

  /** A line ends at a line feed, which takes one carriage return with it. */
  function FirstLine(s: string): string {
    var i := FirstNewline(s);
    if 0 < i < |s| && s[i - 1] == '\r' then s[..i - 1] else s[..i]
  }

  function OtherLines(s: string): (rest: string)
    requires s != ""
    ensures |rest| < |s|
  {
    var i := FirstNewline(s);
    if i == |s| then "" else s[i + 1..]
  }

  function Lines(s: string): seq<string>
    decreases |s|
  {
    if s == "" then [] else [FirstLine(s)] + Lines(OtherLines(s))
  }

  predicate HasExec(s: string) { exists line | line in Lines(s) :: IsExec(line) }

  predicate EndsWith(s: string, suffix: string) {
    |s| >= |suffix| && s[|s| - |suffix|..] == suffix
  }

  /** What follows the last line break of `s`. */
  function LastSegment(s: string): string {
    if s == "" || IsNewline(s[|s| - 1]) then "" else LastSegment(s[..|s| - 1]) + [s[|s| - 1]]
  }

  predicate HasBlankFinalLine(s: string) {
    || EndsWith(s, "\n\n")
    || EndsWith(s, "\r\n\r\n")
    || Trim(LastSegment(DropLastWhile(s, IsNewline))) == ""
  }

  /** The text before the bootstrap line: a multiple of whole lines. A new file starts with a comment. */
  function Head(s: string, comment: string): string {
    if s == "" then comment + "\n\n"
    else s + (if EndsWith(s, "\n") then "" else "\n") + (if HasBlankFinalLine(s) then "" else "\n")
  }

  function Ensured(s: string, comment: string): string {
    if HasExec(s) then s else Head(s, comment) + ExecLine() + "\n"
  }

  method EnsureLine(existing: string, comment: string) returns (output: string)
    ensures output == Ensured(existing, comment)
    ensures existing <= output
    ensures HasExec(output)
    ensures output == existing <==> HasExec(existing)
  {
    hide ExecLine, HasBlankFinalLine, IsExec, FirstLine, OtherLines;
    EnsuredHasExec(existing, comment);
    if exists line | line in Lines(existing) :: IsExec(line) {
      return existing;
    }
    if existing == "" {
      return Head("", comment) + ExecLine() + "\n";
    }
    output := existing;
    if !EndsWith(output, "\n") {
      output := output + "\n";
    }
    if !HasBlankFinalLine(existing) {
      output := output + "\n";
    }
    output := output + ExecLine();
    output := output + "\n";
    assert output == Head(existing, comment) + ExecLine() + "\n";
  }

  lemma {:induction false} FirstNewlineIs(s: string, i: nat)
    requires i <= |s| && (i < |s| ==> s[i] == '\n')
    requires forall k | 0 <= k < i :: s[k] != '\n'
    ensures FirstNewline(s) == i
  {
    var j := FirstNewline(s);
    assert i < |s| && j < |s| ==> s[i] == '\n' && s[j] == '\n';
  }

  lemma FirstLineAppend(a: string, b: string)
    requires EndsWith(a, "\n")
    ensures a + b != "" && FirstLine(a + b) == FirstLine(a)
    ensures OtherLines(a + b) == OtherLines(a) + b
    ensures OtherLines(a) == "" || EndsWith(OtherLines(a), "\n")
  {
    hide FirstNewline;
    var i := FirstNewline(a);
    assert a[|a| - 1] == '\n';
    FirstNewlineIs(a + b, i);
    assert (a + b)[i + 1..] == a[i + 1..] + b;
    assert (a + b)[..i] == a[..i];
    assert i > 0 ==> (a + b)[..i - 1] == a[..i - 1];
    var rest := OtherLines(a);
    assert rest != "" ==> rest[|rest| - 1..] == a[|a| - 1..];
  }

  /** Text that is appended to whole lines does not change them. */
  lemma {:induction false} LinesAppend(a: string, b: string)
    requires a == "" || EndsWith(a, "\n")
    ensures Lines(a + b) == Lines(a) + Lines(b)
    decreases |a|
  {
    hide FirstLine, OtherLines;
    if a == "" {
      assert a + b == b;
    } else {
      FirstLineAppend(a, b);
      LinesAppend(OtherLines(a), b);
    }
  }

  lemma {:induction false} NoComment(s: string)
    requires '/' !in s
    ensures BeforeComment(s) == s
  {
    if |s| >= 2 {
      NoComment(s[1..]);
    }
  }

  lemma OneLineParts(s: string)
    requires s != "" && '\n' !in s && s[|s| - 1] != '\r'
    ensures FirstLine(s + "\n") == s && OtherLines(s + "\n") == ""
  {
    hide FirstNewline;
    var t := s + "\n";
    FirstNewlineIs(t, |s|);
    assert t[..|s|] == s;
    assert t[|s| + 1..] == "";
  }

  lemma OneLine(s: string)
    requires s != "" && '\n' !in s && s[|s| - 1] != '\r'
    ensures Lines(s + "\n") == [s]
  {
    hide FirstLine, OtherLines;
    OneLineParts(s);
    assert Lines("") == [];
  }

  lemma {:induction false} ExecLineIsExec()
    ensures Lines(ExecLine() + "\n") == [ExecLine()]
    ensures IsExec(ExecLine())
  {
    hide ExecLine, Lines, BeforeComment;
    OneLine(ExecLine());
    NoComment(ExecLine());
  }

  lemma HeadIsWholeLines(s: string, comment: string)
    ensures EndsWith(Head(s, comment), "\n") && s <= Head(s, comment)
  {
    hide HasBlankFinalLine;
  }

  /** The result always executes optimization.cfg, and holds the old text as its prefix. */
  lemma {:induction false} EnsuredHasExec(s: string, comment: string)
    ensures HasExec(Ensured(s, comment)) && s <= Ensured(s, comment)
    ensures !HasExec(s) ==> Lines(Ensured(s, comment)) == Lines(Head(s, comment)) + [ExecLine()] && Ensured(s, comment) != s
  {
    hide ExecLine, HasBlankFinalLine, IsExec, FirstLine, OtherLines;
    if !HasExec(s) {
      HeadIsWholeLines(s, comment);
      ExecLineIsExec();
      LinesAppend(Head(s, comment), ExecLine() + "\n");
      assert Ensured(s, comment) == Head(s, comment) + (ExecLine() + "\n");
      assert ExecLine() in Lines(Ensured(s, comment));
    }
  }

  /** Bootstrapping twice is bootstrapping once. */
  lemma EnsuredIsIdempotent(s: string, comment: string)
    ensures Ensured(Ensured(s, comment), comment) == Ensured(s, comment)
  {
    EnsuredHasExec(s, comment);
  }

  lemma FinishedFirstLine(s: string)
    requires s != "" && s[|s| - 1] != '\n'
    ensures OtherLines(s) == "" <==> OtherLines(s + "\n") == ""
    ensures OtherLines(s) == "" ==>
              FirstLine(s) == s && FirstLine(s + "\n") == if s[|s| - 1] == '\r' then s[..|s| - 1] else s
    ensures OtherLines(s) != "" ==>
              && FirstLine(s + "\n") == FirstLine(s)
              && OtherLines(s + "\n") == OtherLines(s) + "\n"
              && OtherLines(s)[|OtherLines(s)| - 1] == s[|s| - 1]
  {
    hide FirstNewline;
    var t := s + "\n";
    var i := FirstNewline(s);
    FirstNewlineIs(t, i);
    assert t[..i] == s[..i];
    assert i > 0 ==> t[..i - 1] == s[..i - 1];
    if i == |s| {
      assert s[..i] == s;
    } else {
      assert t[i + 1..] == s[i + 1..] + "\n";
    }
  }

  /** Adding a line feed to an unfinished line keeps the lines, except that the
      line loses the bare carriage return it may end in. */
  lemma {:induction false} FinishedLines(s: string)
    requires s != "" && s[|s| - 1] != '\n'
    ensures |Lines(s + "\n")| == |Lines(s)| > 0
    ensures Lines(s + "\n") == Lines(s) <==> s[|s| - 1] != '\r'
    decreases |s|
  {
    hide FirstLine, OtherLines;
    FinishedFirstLine(s);
    var t := s + "\n";
    assert Lines(t)[0] == FirstLine(t) && Lines(s)[0] == FirstLine(s);
    if OtherLines(s) != "" {
      FinishedLines(OtherLines(s));
      assert Lines(t)[1..] == Lines(OtherLines(t)) && Lines(s)[1..] == Lines(OtherLines(s));
    }
  }

  /** The old lines are the first lines of the result, unless the old text ends
      in a bare carriage return and has to be extended. */
  lemma {:induction false} EnsuredKeepsLines(s: string, comment: string)
    ensures Lines(s) <= Lines(Ensured(s, comment)) <==> HasExec(s) || !EndsWith(s, "\r")
  {
    hide HasExec, Ensured, Head;
    if HasExec(s) || s == "" {
      assert Lines("") == [];
      EnsuredIsSame(s, comment);
    } else {
      ExtendedKeepsLines(s, comment);
    }
  }

  lemma EnsuredIsSame(s: string, comment: string)
    requires HasExec(s) || s == ""
    ensures HasExec(s) ==> Ensured(s, comment) == s
  {
  }

  lemma ExtendedKeepsLines(s: string, comment: string)
    requires !HasExec(s) && s != ""
    ensures Lines(s) <= Lines(Ensured(s, comment)) <==> !EndsWith(s, "\r")
  {
    hide ExecLine, HasBlankFinalLine, IsExec, FirstLine, OtherLines, Lines, Ensured, HasExec;
    EnsuredHasExec(s, comment);
    var ended := EndsWith(s, "\n");
    var whole := s + (if ended then "" else "\n");
    var gap := if HasBlankFinalLine(s) then "" else "\n";
    assert Head(s, comment) == whole + gap;
    LinesAppend(whole, gap);
    if ended {
      assert whole == s;
    } else {
      FinishedLines(s);
      assert EndsWith(s, "\r") <==> s[|s| - 1] == '\r';
      assert |Lines(s)| == |Lines(whole)|;
      assert Lines(Ensured(s, comment))[..|Lines(s)|] == Lines(whole);
    }
  }

  // Which lines count

  /** Unicode's white space by code point. */
  predicate IsBlank(c: char) {
    var n := c as int;
    || 9 <= n <= 13 || n == 32 || n == 0x85 || n == 0xA0 || n == 0x1680 || 0x2000 <= n <= 0x200A
    || n == 0x2028 || n == 0x2029 || n == 0x202F || n == 0x205F || n == 0x3000
  }

  predicate AllBlank(s: string) { forall i | 0 <= i < |s| :: IsBlank(s[i]) }

  /** The same letter up to ASCII case. */
  predicate SameLetter(x: char, y: char) {
    x == y || ('A' <= x <= 'Z' && y as int == x as int + 32) || ('A' <= y <= 'Z' && x as int == y as int + 32)
  }

  predicate IsCommand(s: string) {
    var command := "exec optimization.cfg";
    |s| == 21 && |command| == 21 && forall i | 0 <= i < 21 :: SameLetter(s[i], command[i])
  }

  /** The command stands at `i`, with only blanks before it and only blanks between it and the end of
      the line or a comment at `k`. */
  predicate CommandAt(line: string, i: nat, k: nat) {
    && i + 21 <= k <= |line|
    && AllBlank(line[..i]) && IsCommand(line[i..i + 21]) && AllBlank(line[i + 21..k])
    && (k == |line| || (k + 1 < |line| && line[k] == '/' && line[k + 1] == '/'))
  }

  lemma {:induction false} CommentStarts(line: string) returns (k: nat)
    ensures k <= |line| && BeforeComment(line) == line[..k]
    ensures k == |line| || (k + 1 < |line| && line[k] == '/' && line[k + 1] == '/')
  {
    if |line| < 2 {
      k := |line|;
    } else if line[0] == '/' && line[1] == '/' {
      k := 0;
    } else {
      var rest := CommentStarts(line[1..]);
      k := rest + 1;
      assert line[..k] == [line[0]] + line[1..][..rest];
    }
  }

  lemma {:induction false} CommentStartsAt(line: string, k: nat)
    requires k <= |line| && '/' !in line[..k]
    requires k == |line| || (k + 1 < |line| && line[k] == '/' && line[k + 1] == '/')
    ensures BeforeComment(line) == line[..k]
  {
    if k > 0 && |line| >= 2 {
      assert line[..k] == [line[0]] + line[1..][..k - 1];
      CommentStartsAt(line[1..], k - 1);
    }
  }

  lemma {:induction false} DropsFront(s: string) returns (i: nat)
    ensures i <= |s| && DropWhile(s, IsWhitespace) == s[i..] && AllBlank(s[..i])
  {
    if s != "" && IsWhitespace(s[0]) {
      var rest := DropsFront(s[1..]);
      i := rest + 1;
      assert s[..i] == [s[0]] + s[1..][..rest];
    } else {
      i := 0;
    }
  }

  lemma {:induction false} DropsBack(s: string) returns (j: nat)
    ensures j <= |s| && DropLastWhile(s, IsWhitespace) == s[..j] && AllBlank(s[j..])
  {
    if s != "" && IsWhitespace(s[|s| - 1]) {
      j := DropsBack(s[..|s| - 1]);
      assert s[j..] == s[..|s| - 1][j..] + [s[|s| - 1]];
    } else {
      j := |s|;
    }
  }

  lemma {:induction false} DropsFrontOf(a: string, s: string)
    requires AllBlank(a) && s != "" && !IsBlank(s[0])
    ensures DropWhile(a + s, IsWhitespace) == s
  {
    if a == "" {
      assert a + s == s;
    } else {
      assert (a + s)[1..] == a[1..] + s;
      DropsFrontOf(a[1..], s);
    }
  }

  lemma {:induction false} DropsBackOf(s: string, b: string)
    requires AllBlank(b) && s != "" && !IsBlank(s[|s| - 1])
    ensures DropLastWhile(s + b, IsWhitespace) == s
  {
    if b == "" {
      assert s + b == s;
    } else {
      assert (s + b)[..|s + b| - 1] == s + b[..|b| - 1];
      DropsBackOf(s, b[..|b| - 1]);
    }
  }

  lemma CommandIff(s: string)
    ensures EqualIgnoringCase(s, ExecLine()) <==> IsCommand(s)
  {
    var command := ExecLine();
    assert |command| == 21;
    if EqualIgnoringCase(s, command) {
      assert forall i | 0 <= i < 21 :: LowerChar(s[i]) == LowerChar(command[i]) && SameLetter(s[i], command[i]);
    } else if |s| == 21 {
      var i :| 0 <= i < 21 && LowerChar(s[i]) != LowerChar(command[i]);
      assert !SameLetter(s[i], command[i]);
    }
  }

  lemma CommandHasNoSlash(s: string)
    requires IsCommand(s)
    ensures '/' !in s && !IsBlank(s[0]) && !IsBlank(s[20])
  {
    var command := ExecLine();
    assert |command| == 21;
    forall i | 0 <= i < 21 ensures s[i] != '/' {
      assert SameLetter(s[i], command[i]) && command[i] != '/';
    }
    assert SameLetter(s[0], command[0]) && SameLetter(s[20], command[20]);
  }

  lemma ExecAt(line: string) returns (i: nat, k: nat)
    requires IsExec(line)
    ensures CommandAt(line, i, k)
  {
    hide ExecLine, BeforeComment, DropWhile, DropLastWhile, IsCommand, EqualIgnoringCase;
    k := CommentStarts(line);
    var text := line[..k];
    i := DropsFront(text);
    var j := DropsBack(text[i..]);
    CommandIff(text[i..][..j]);
    assert |text[i..][..j]| == 21 by { CommandIsLong(text[i..][..j]); }
    assert text[i..][..j] == line[i..i + 21] && text[i..][j..] == line[i + 21..k] && text[..i] == line[..i];
  }

  lemma CommandIsLong(s: string)
    requires IsCommand(s)
    ensures |s| == 21
  {
  }

  lemma CommandIsExec(line: string, i: nat, k: nat)
    requires CommandAt(line, i, k)
    ensures IsExec(line)
  {
    hide ExecLine, BeforeComment, DropWhile, DropLastWhile, IsCommand, EqualIgnoringCase;
    var a, m, b := line[..i], line[i..i + 21], line[i + 21..k];
    CommandHasNoSlash(m);
    CommandIff(m);
    assert line[..k] == a + m + b;
    assert '/' !in a && '/' !in b;
    CommentStartsAt(line, k);
    assert a + m + b == a + (m + b);
    DropsFrontOf(a, m + b);
    DropsBackOf(m, b);
  }

  /** A line is the bootstrap line exactly if, up to blanks around it, a comment after it and ASCII case,
      it is the command. */
  lemma IsExecIff(line: string)
    ensures IsExec(line) <==> exists i: nat, k: nat :: CommandAt(line, i, k)
  {
    hide IsExec, CommandAt;
    if IsExec(line) {
      var i, k := ExecAt(line);
    }
    if i: nat, k: nat :| CommandAt(line, i, k) {
      CommandIsExec(line, i, k);
    }
  }

  // When a blank line is put in between

  predicate IsBreak(c: char) { c as int == 13 || c as int == 10 }

  /** From `i` to `j` there is a blank last line: blanks after a line break or the start of the text,
      and nothing but line breaks after them. */
  predicate BlankLineAt(s: string, i: nat, j: nat) {
    && i <= j <= |s|
    && (i == 0 || IsBreak(s[i - 1])) && (j == 0 || !IsBreak(s[j - 1]))
    && (forall x | i <= x < j :: IsBlank(s[x]) && !IsBreak(s[x]))
    && (forall x | j <= x < |s| :: IsBreak(s[x]))
  }

  lemma {:induction false} BreaksDropped(s: string, j: nat)
    requires j <= |s| && (j == 0 || !IsBreak(s[j - 1])) && forall x | j <= x < |s| :: IsBreak(s[x])
    ensures DropLastWhile(s, IsNewline) == s[..j]
  {
    if j == |s| {
      assert s[..j] == s;
    } else {
      var t := s[..|s| - 1];
      assert t[..j] == s[..j];
      BreaksDropped(t, j);
    }
  }

  lemma {:induction false} LastBreak(s: string) returns (j: nat)
    ensures j <= |s| && (j == 0 || !IsBreak(s[j - 1])) && forall x | j <= x < |s| :: IsBreak(s[x])
  {
    if s == "" || !IsBreak(s[|s| - 1]) {
      j := |s|;
    } else {
      j := LastBreak(s[..|s| - 1]);
    }
  }

  lemma {:induction false} LastSegmentFrom(t: string, i: nat)
    requires i <= |t| && (i == 0 || IsBreak(t[i - 1])) && forall x | i <= x < |t| :: !IsBreak(t[x])
    ensures LastSegment(t) == t[i..]
  {
    if i < |t| {
      var u := t[..|t| - 1];
      LastSegmentFrom(u, i);
      assert t[i..] == u[i..] + [t[|t| - 1]];
    }
  }

  lemma {:induction false} SegmentStart(t: string) returns (i: nat)
    ensures i <= |t| && (i == 0 || IsBreak(t[i - 1])) && forall x | i <= x < |t| :: !IsBreak(t[x])
  {
    if t == "" || IsBreak(t[|t| - 1]) {
      i := |t|;
    } else {
      i := SegmentStart(t[..|t| - 1]);
    }
  }

  lemma TrimsToNothingIff(s: string)
    ensures Trim(s) == "" <==> AllBlank(s)
  {
    hide DropWhile, DropLastWhile;
    var i := DropsFront(s);
    var j := DropsBack(s[i..]);
    if Trim(s) == "" {
      assert forall x | 0 <= x < |s| :: if x < i then s[x] == s[..i][x] else s[x] == s[i..][0..][x - i];
    } else {
      TrimLeaves(s);
    }
  }

  lemma {:induction false} TrimLeaves(s: string)
    requires Trim(s) != ""
    ensures !AllBlank(s)
  {
    if AllBlank(s) && s != "" {
      BlanksDropped(s);
    }
  }

  lemma {:induction false} BlanksDropped(s: string)
    requires AllBlank(s)
    ensures DropWhile(s, IsWhitespace) == ""
  {
    if s != "" {
      BlanksDropped(s[1..]);
    }
  }

  lemma BlankLastIff(s: string)
    ensures Trim(LastSegment(DropLastWhile(s, IsNewline))) == "" <==> exists i: nat, j: nat :: BlankLineAt(s, i, j)
  {
    hide DropLastWhile, LastSegment, Trim, IsBlank, IsBreak;
    var j := LastBreak(s);
    BreaksDropped(s, j);
    var t := s[..j];
    var i := SegmentStart(t);
    LastSegmentFrom(t, i);
    TrimsToNothingIff(t[i..]);
    if AllBlank(t[i..]) {
      forall x | i <= x < j ensures IsBlank(s[x]) && !IsBreak(s[x]) {
        assert t[i..][x - i] == s[x] && t[x] == s[x];
      }
      assert BlankLineAt(s, i, j);
    }
    if i': nat, j': nat :| BlankLineAt(s, i', j') {
      BreaksDropped(s, j');
      assert j' == j by { SameLength(s[..j'], s[..j]); }
      LastSegmentFrom(t, i');
      assert forall x | 0 <= x < |t[i'..]| :: t[i'..][x] == s[i' + x];
      TrimsToNothingIff(t[i'..]);
    }
  }

  lemma SameLength(a: string, b: string)
    requires a == b
    ensures |a| == |b|
  {
  }

  lemma EndsInBreak(s: string)
    ensures EndsWith(s, "\n") <==> |s| >= 1 && s[|s| - 1] as int == 10
  {
    if |s| >= 1 { assert s[|s| - 1..] == [s[|s| - 1]]; }
  }

  lemma EndsInTwo(s: string)
    ensures EndsWith(s, "\n\n") <==> |s| >= 2 && s[|s| - 1] as int == 10 && s[|s| - 2] as int == 10
  {
    if |s| >= 2 { assert s[|s| - 2..] == [s[|s| - 2], s[|s| - 1]]; }
  }

  lemma EndsInPair(s: string)
    ensures EndsWith(s, "\r\n\r\n") <==>
              && |s| >= 4 && s[|s| - 1] as int == 10 && s[|s| - 2] as int == 13
              && s[|s| - 3] as int == 10 && s[|s| - 4] as int == 13
  {
    var n := |s|;
    if n >= 4 { assert s[n - 4..] == [s[n - 4], s[n - 3], s[n - 2], s[n - 1]]; }
  }

  /** What is written before the bootstrap line: a line feed unless the old text ends in one, and
      another one unless the old text ends in two line breaks of one kind or in a blank line. */
  lemma HeadIs(s: string, comment: string)
    requires s != ""
    ensures var n := |s|;
            var ended := s[n - 1] as int == 10;
            var doubled := || (n >= 2 && s[n - 1] as int == 10 && s[n - 2] as int == 10)
                           || (n >= 4 && s[n - 1] as int == 10 && s[n - 2] as int == 13
                               && s[n - 3] as int == 10 && s[n - 4] as int == 13);
            var blank := exists i: nat, j: nat :: BlankLineAt(s, i, j);
            Head(s, comment) == s + (if ended then "" else "\n") + (if doubled || blank then "" else "\n")
  {
    hide Trim, LastSegment, DropLastWhile, BlankLineAt, EndsWith;
    BlankLastIff(s);
    EndsInBreak(s);
    EndsInTwo(s);
    EndsInPair(s);
  }
}
