/** Python's notions of white space and of lines, as far as the renderer and the reply parser use them. */
module TextLines {

  /** The characters at which `str.splitlines` ends a line. */
  predicate IsBreak(c: char) {
    var n := c as int;
    10 <= n <= 13 || 28 <= n <= 30 || n == 0x85 || n == 0x2028 || n == 0x2029
  }

  /** The characters `str.strip` removes. */
  predicate IsSpace(c: char) {
    var n := c as int;
    || IsBreak(c) || n == 9 || n == 31 || n == 32 || n == 0xA0 || n == 0x1680
    || 0x2000 <= n <= 0x200A || n == 0x202F || n == 0x205F || n == 0x3000
  }

  predicate NoBreaks(s: string) {
    forall i :: 0 <= i < |s| ==> !IsBreak(s[i])
  }

  predicate IsBlank(s: string) {
    forall i :: 0 <= i < |s| ==> IsSpace(s[i])
  }

  /** Length of the first line, its line break included; "\r\n" is one break. */
  function FirstLine(s: string): (n: nat)
    requires s != ""
    ensures 0 < n <= |s|
  {
    if IsBreak(s[0]) then if s[0] == '\r' && |s| > 1 && s[1] == '\n' then 2 else 1
    else if |s| == 1 then 1
    else 1 + FirstLine(s[1..])
  }

  /** The first line ends at the first break, or with the text. */
  lemma {:induction false} FirstLineShape(s: string)
    requires s != ""
    ensures var n := FirstLine(s);
      && (forall i :: 0 <= i < n - 2 ==> !IsBreak(s[i]))
      && (n < |s| ==> IsBreak(s[n - 1]) && !(s[n - 1] == '\r' && s[n] == '\n'))
      && (n >= 2 && IsBreak(s[n - 2]) ==> s[n - 2] == '\r' && s[n - 1] == '\n')
  {
    if !IsBreak(s[0]) && |s| > 1 {
      FirstLineShape(s[1..]);
    }
  }

  lemma PrefixOfPrefix(s: string, n: nat, k: nat)
    requires k <= n <= |s|
    ensures s[..n][..k] == s[..k]
  {
  }

  lemma SuffixOfSuffix(s: string, n: nat, k: nat)
    requires n + k <= |s|
    ensures s[n..][k..] == s[n + k..]
  {
  }

  lemma Halves(s: string, n: nat)
    requires n <= |s|
    ensures s == s[..n] + s[n..]
  {
  }

  /** `s.splitlines(keepends=True)`. */
  function Lines(s: string): seq<string> {
    if s == "" then [] else [s[..FirstLine(s)]] + Lines(s[FirstLine(s)..])
  }

  function Joined(lines: seq<string>): string {
    if lines == [] then "" else lines[0] + Joined(lines[1..])
  }

  /** A line that is over: it ends in its only break, "\r\n" counting as one. */
  predicate IsEnded(line: string) {
    && line != "" && IsBreak(line[|line| - 1])
    && NoBreaks(line[..if |line| > 1 && line[|line| - 2] == '\r' && line[|line| - 1] == '\n' then |line| - 2 else |line| - 1])
  }

  lemma EndedExtends(c: char, line: string)
    requires IsEnded(line) && !IsBreak(c)
    ensures IsEnded([c] + line)
  {
    var longer := [c] + line;
    assert longer[|longer| - 1] == line[|line| - 1] && (|line| > 1 ==> longer[|longer| - 2] == line[|line| - 2]);
    forall i | 0 <= i < |longer| && IsBreak(longer[i]) ensures i > 0 && IsBreak(line[i - 1]) {
    }
  }

  lemma {:induction false} FirstLineIsEnded(s: string)
    requires s != ""
    ensures var line := s[..FirstLine(s)]; IsEnded(line) || (NoBreaks(line) && line == s)
    ensures var n := FirstLine(s); n < |s| && s[n - 1] == '\r' ==> s[n] != '\n'
  {
    if !IsBreak(s[0]) && |s| > 1 {
      var n := FirstLine(s[1..]);
      FirstLineIsEnded(s[1..]);
      assert s[..n + 1] == [s[0]] + s[1..][..n];
      if IsEnded(s[1..][..n]) {
        EndedExtends(s[0], s[1..][..n]);
      }
    }
  }

  /** Lines put together give the text back; every line but the last is over, and no "\r\n" is torn apart. */
  lemma {:induction false} LinesAreTheText(s: string, k: nat)
    requires k < |Lines(s)|
    ensures Joined(Lines(s)) == s
    ensures IsEnded(Lines(s)[k]) || (k == |Lines(s)| - 1 && Lines(s)[k] != "" && NoBreaks(Lines(s)[k]))
    ensures k + 1 < |Lines(s)| && Lines(s)[k + 1] != "" && Lines(s)[k + 1][0] == '\n' ==>
      Lines(s)[k][|Lines(s)[k]| - 1] != '\r'
    decreases |s|
  {
    var n := FirstLine(s);
    var rest := s[n..];
    FirstLineIsEnded(s);
    assert Lines(s)[1..] == Lines(rest);
    if rest == "" {
      assert Lines(s) == [s[..n]] && s[..n] == s;
    } else {
      Halves(s, n);
      FirstOfRest(rest);
      LinesAreTheText(rest, if k == 0 then 0 else k - 1);
    }
  }

  lemma FirstOfRest(s: string)
    requires s != ""
    ensures Lines(s) != [] && Lines(s)[0] != "" && Lines(s)[0][0] == s[0]
  {
  }

  /** Cutting a text inside its first line leaves one line; cutting later leaves the first line
      as it was. */
  lemma {:induction false} FirstLineOfPrefix(s: string, q: nat)
    requires 0 < q <= |s|
    ensures FirstLine(s[..q]) == if q <= FirstLine(s) then q else FirstLine(s)
  {
    if !IsBreak(s[0]) && q > 1 {
      assert s[..q][1..] == s[1..][..q - 1];
      FirstLineOfPrefix(s[1..], q - 1);
    }
  }

  lemma {:induction false} FirstLineOfUnbroken(s: string)
    requires s != "" && NoBreaks(s[..|s| - 1])
    ensures FirstLine(s) == |s|
  {
    if |s| > 1 {
      assert s[0] == s[..|s| - 1][0];
      assert s[1..][..|s| - 2] == s[..|s| - 1][1..];
      FirstLineOfUnbroken(s[1..]);
    }
  }

  /** A text that starts with a complete line keeps that line whatever follows. */
  lemma {:induction false} FirstLineOfConcat(line: string, rest: string)
    requires line != "" && FirstLine(line) == |line|
    requires IsBreak(line[|line| - 1])
    requires !(line[|line| - 1] == '\r' && rest != "" && rest[0] == '\n')
    ensures FirstLine(line + rest) == |line|
  {
    if |line| > 1 && !IsBreak(line[0]) {
      assert (line + rest)[1..] == line[1..] + rest;
      FirstLineOfConcat(line[1..], rest);
    }
  }

  /** Text appended to an unbroken line extends that line. */
  lemma {:induction false} FirstLineExtends(line: string, rest: string)
    requires NoBreaks(line) && rest != ""
    ensures FirstLine(line + rest) == |line| + FirstLine(rest)
  {
    if line == "" {
      assert line + rest == rest;
    } else {
      assert (line + rest)[1..] == line[1..] + rest;
      assert (line + rest)[0] == line[0];
      FirstLineExtends(line[1..], rest);
    }
  }

  lemma UnbrokenUnlessEnded(text: string)
    requires text != "" && FirstLine(text) == |text| && !IsBreak(text[|text| - 1])
    ensures NoBreaks(text)
  {
    FirstLineShape(text);
  }

  /** Where the last line starts. */
  function LastLineStart(text: string): (k: nat)
    requires text != ""
    ensures k < |text|
    decreases |text|
  {
    var n := FirstLine(text);
    if n == |text| then 0 else n + LastLineStart(text[n..])
  }

  function LastLine(text: string): string
    requires text != ""
  {
    text[LastLineStart(text)..]
  }

  lemma LastLineIsLater(text: string)
    requires text != ""
    ensures var n := FirstLine(text); LastLine(text) == if n == |text| then text else LastLine(text[n..])
  {
    var n, k := FirstLine(text), LastLineStart(text);
    if n == |text| {
      assert text[0..] == text;
    } else {
      assert text[n..][k - n..] == text[k..];
    }
  }

  lemma {:induction false} LastLineIsLast(text: string)
    requires text != ""
    ensures Lines(text) != [] && Lines(text)[|Lines(text)| - 1] == LastLine(text)
    decreases |text|
  {
    var n := FirstLine(text);
    LastLineIsLater(text);
    if n == |text| {
      assert text[..n] == text && text[n..] == "";
    } else {
      LastLineIsLast(text[n..]);
    }
  }
}
