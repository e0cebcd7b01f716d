/** Neutralising `<at>` tags in card bodies without touching code.

    What the renderer writes is described by marks, one per character of the input: a marked `<` or
    `>` is written as its entity, every other character as itself. */
module LarkMentions {
  import opened CodexModel
  import opened TextLines
  import opened MarkdownFences

  /* ---- writing with marks ---- */

  function Entity(c: char): (r: string)
    ensures r != "" && (c == '<' || c == '>' ==> r[0] == '&')
    ensures c == '<' || c == '>' ==> NoBreaks(r)
  {
    if c == '<' then "&#60;" else if c == '>' then "&#62;" else [c]
  }

  function Expand(s: string, marks: seq<bool>): string
    requires |marks| == |s|
  {
    if s == "" then "" else (if marks[0] then Entity(s[0]) else [s[0]]) + Expand(s[1..], marks[1..])
  }

  function Unmarked(n: nat): (m: seq<bool>)
    ensures |m| == n && forall i :: 0 <= i < n ==> !m[i]
  {
    seq(n, _ => false)
  }

  /** Only angle brackets are ever marked. */
  predicate MarksAngles(s: string, marks: seq<bool>) {
    |marks| == |s| && forall i :: 0 <= i < |s| && marks[i] ==> s[i] == '<' || s[i] == '>'
  }

  lemma {:induction false} ExpandConcat(a: string, ma: seq<bool>, b: string, mb: seq<bool>)
    requires |a| == |ma| && |b| == |mb|
    ensures Expand(a + b, ma + mb) == Expand(a, ma) + Expand(b, mb)
  {
    if a == "" {
      assert a + b == b && ma + mb == mb;
    } else {
      assert (a + b)[1..] == a[1..] + b && (ma + mb)[1..] == ma[1..] + mb;
      ExpandConcat(a[1..], ma[1..], b, mb);
    }
  }

  lemma ExpandThree(a: string, ma: seq<bool>, b: string, mb: seq<bool>, c: string, mc: seq<bool>)
    requires |a| == |ma| && |b| == |mb| && |c| == |mc|
    ensures Expand(a + b + c, ma + mb + mc) == Expand(a, ma) + Expand(b, mb) + Expand(c, mc)
  {
    ExpandConcat(a, ma, b, mb);
    ExpandConcat(a + b, ma + mb, c, mc);
  }

  lemma {:induction false} ExpandUnmarked(s: string, marks: seq<bool>)
    requires |marks| == |s| && forall i :: 0 <= i < |s| ==> !marks[i]
    ensures Expand(s, marks) == s
  {
    if s != "" {
      ExpandUnmarked(s[1..], marks[1..]);
    }
  }

  /* ---- at-tags ---- */

  /** Leading characters that are not angle brackets. */
  function PlainRun(s: string): (n: nat)
    ensures n <= |s| && forall i :: 0 <= i < n ==> s[i] != '<' && s[i] != '>'
    ensures n < |s| ==> s[n] == '<' || s[n] == '>'
  {
    if s != "" && s[0] != '<' && s[0] != '>' then 1 + PlainRun(s[1..]) else 0
  }

  /** Length of the at-tag at the start of a text, 0 if there is none: `<`, perhaps `/`, "at" in any
      case, then nothing or white space and anything but angle brackets, then `>`. */
  function TagLength(s: string): (n: nat)
    ensures n <= |s|
  {
    var j := if |s| > 1 && s[1] == '/' then 2 else 1;
    if |s| < j + 2 || s[0] != '<' || s[j] !in ['a', 'A'] || s[j + 1] !in ['t', 'T'] then 0
    else
      var rest := s[j + 2..];
      var e := PlainRun(rest);
      if e == |rest| || rest[e] != '>' || (e > 0 && !IsSpace(rest[0])) then 0 else j + 2 + e + 1
  }

  /** Every bracket of a matched tag is replaced. */
  function EscapeAngles(s: string): string {
    if s == "" then "" else Entity(s[0]) + EscapeAngles(s[1..])
  }

  function EscapeLarkAtTags(s: string): string
    decreases |s|
  {
    if s == "" then ""
    else if TagLength(s) > 0 then EscapeAngles(s[..TagLength(s)]) + EscapeLarkAtTags(s[TagLength(s)..])
    else [s[0]] + EscapeLarkAtTags(s[1..])
  }

  function AngleMarks(s: string): (m: seq<bool>)
    ensures MarksAngles(s, m)
  {
    seq(|s|, i requires 0 <= i < |s| => s[i] == '<' || s[i] == '>')
  }

  function TagMarks(s: string): (m: seq<bool>)
    ensures MarksAngles(s, m)
    decreases |s|
  {
    if s == "" then []
    else if TagLength(s) > 0 then AngleMarks(s[..TagLength(s)]) + TagMarks(s[TagLength(s)..])
    else [false] + TagMarks(s[1..])
  }

  lemma {:induction false} EscapeAnglesByMarks(s: string)
    ensures EscapeAngles(s) == Expand(s, AngleMarks(s))
  {
    if s != "" {
      assert AngleMarks(s)[1..] == AngleMarks(s[1..]);
      EscapeAnglesByMarks(s[1..]);
    }
  }

  lemma {:induction false} EscapeTagsByMarks(s: string)
    ensures EscapeLarkAtTags(s) == Expand(s, TagMarks(s))
    decreases |s|
  {
    var n := TagLength(s);
    if s != "" && n > 0 {
      EscapeAnglesByMarks(s[..n]);
      EscapeTagsByMarks(s[n..]);
      ExpandConcat(s[..n], AngleMarks(s[..n]), s[n..], TagMarks(s[n..]));
      Halves(s, n);
    } else if s != "" {
      EscapeTagsByMarks(s[1..]);
      assert TagMarks(s)[1..] == TagMarks(s[1..]);
    }
  }

  /* ---- exactly what is escaped ---- */

  /** An at-tag: `<`, perhaps `/`, "at" in any case, then nothing or white space and anything but angle brackets, `>`. */
  predicate IsTag(t: string) {
    var j := if |t| > 1 && t[1] == '/' then 2 else 1;
    && |t| >= j + 3 && t[0] == '<' && (t[j] == 'a' || t[j] == 'A') && (t[j + 1] == 't' || t[j + 1] == 'T')
    && t[|t| - 1] == '>' && (forall i :: j + 2 <= i < |t| - 1 ==> t[i] != '<' && t[i] != '>')
    && (|t| > j + 3 ==> IsSpace(t[j + 2]))
  }

  lemma PlainRunIs(s: string, n: nat)
    requires n <= |s| && (forall i :: 0 <= i < n ==> s[i] != '<' && s[i] != '>') && (n < |s| ==> s[n] == '<' || s[n] == '>')
    ensures PlainRun(s) == n
  {
  }

  lemma TagIsFound(s: string, n: nat)
    requires 0 < n <= |s| && IsTag(s[..n])
    ensures TagLength(s) == n
  {
    var t := s[..n];
    var j := if |t| > 1 && t[1] == '/' then 2 else 1;
    assert t[0] == s[0] && t[1] == s[1] && t[j] == s[j] && t[j + 1] == s[j + 1];
    var rest := s[j + 2..];
    forall k | 0 <= k < n - j - 2 ensures rest[k] == t[j + 2 + k] {
    }
    PlainRunIs(rest, n - j - 3);
  }

  lemma FoundIsTag(s: string)
    requires TagLength(s) > 0
    ensures IsTag(s[..TagLength(s)])
  {
    var t := s[..TagLength(s)];
    var j := if |s| > 1 && s[1] == '/' then 2 else 1;
    var rest := s[j + 2..];
    assert forall i :: j + 2 <= i < |t| ==> t[i] == rest[i - j - 2];
  }

  /** The tag found at the start of a text is the only one there. */
  lemma TagLengthIsExact(s: string, n: nat)
    requires 0 < n <= |s|
    ensures TagLength(s) == n <==> IsTag(s[..n])
  {
    if TagLength(s) == n {
      FoundIsTag(s);
    } else if IsTag(s[..n]) {
      TagIsFound(s, n);
    }
  }

  /** Position `i` is the opening or closing bracket of an at-tag of the text. */
  ghost predicate BracketsTag(s: string, i: nat) {
    exists p: nat, q: nat :: IsTagAt(s, p, q) && (i == p || i == q - 1)
  }

  predicate IsTagAt(s: string, p: nat, q: nat) {
    p < q <= |s| && IsTag(s[p..q])
  }

  lemma TagShape(t: string, i: nat)
    requires IsTag(t) && i < |t|
    ensures (t[i] == '<' <==> i == 0) && (t[i] == '>' <==> i == |t| - 1)
  {
  }

  lemma TagMovesLeft(s: string, n: nat, p: nat, q: nat)
    requires n <= p <= q <= |s|
    ensures IsTagAt(s[n..], p - n, q - n) <==> IsTagAt(s, p, q)
  {
    if p < q {
      assert s[n..][p - n..q - n] == s[p..q];
    }
  }

  /** Brackets beyond the first `n` characters are those of the rest, when no tag reaches across. */
  lemma BracketsOfRest(s: string, n: nat, i: nat)
    requires n <= i < |s| && forall p: nat, q: nat :: IsTagAt(s, p, q) ==> q <= n || n <= p
    ensures BracketsTag(s, i) <==> BracketsTag(s[n..], i - n)
  {
    if BracketsTag(s, i) {
      BracketsIntoRest(s, n, i);
    }
    if BracketsTag(s[n..], i - n) {
      BracketsFromRest(s, n, i);
    }
  }

  lemma BracketsIntoRest(s: string, n: nat, i: nat)
    requires n <= i < |s| && forall p: nat, q: nat :: IsTagAt(s, p, q) ==> q <= n || n <= p
    requires BracketsTag(s, i)
    ensures BracketsTag(s[n..], i - n)
  {
    var p: nat, q: nat :| IsTagAt(s, p, q) && (i == p || i == q - 1);
    TagMovesLeft(s, n, p, q);
    assert IsTagAt(s[n..], p - n, q - n);
  }

  lemma BracketsFromRest(s: string, n: nat, i: nat)
    requires n <= i < |s| && BracketsTag(s[n..], i - n)
    ensures BracketsTag(s, i)
  {
    var p: nat, q: nat :| IsTagAt(s[n..], p, q) && (i - n == p || i - n == q - 1);
    TagMovesLeft(s, n, p + n, q + n);
    assert IsTagAt(s, p + n, q + n);
  }

  /** Two tags do not overlap: the first ends before the second begins. */
  lemma TagsAreApart(s: string, p: nat, q: nat, p': nat, q': nat)
    requires IsTagAt(s, p, q) && IsTagAt(s, p', q') && p < p'
    ensures q <= p'
  {
    var t, t' := s[p..q], s[p'..q'];
    TagShape(t', 0);
    if p' < q {
      assert t[p' - p] == s[p'];
      TagShape(t, p' - p);
    }
  }

  lemma FirstTagIsApart(s: string, n: nat)
    requires n == TagLength(s) && n > 0
    ensures IsTagAt(s, 0, n) && forall p: nat, q: nat :: IsTagAt(s, p, q) ==> (p == 0 && q == n) || n <= p
  {
    FoundIsTag(s);
    assert s[0..n] == s[..n];
    forall p: nat, q: nat | IsTagAt(s, p, q) ensures (p == 0 && q == n) || n <= p {
      if p == 0 {
        assert s[0..q] == s[..q];
        TagIsFound(s, q);
      } else {
        TagsAreApart(s, 0, n, p, q);
      }
    }
  }

  lemma NoTagAtStart(s: string, p: nat, q: nat)
    requires s != "" && TagLength(s) == 0 && IsTagAt(s, p, q)
    ensures p >= 1
  {
    if p == 0 {
      assert s[0..q] == s[..q];
      TagIsFound(s, q);
    }
  }

  /** Exactly the brackets of at-tags are escaped. */
  lemma {:induction false} TagMarksAreExact(s: string, i: nat)
    requires i < |s|
    ensures TagMarks(s)[i] <==> BracketsTag(s, i)
    decreases |s|
  {
    var n := TagLength(s);
    if n > 0 {
      FirstTagIsApart(s, n);
      if i < n {
        TagShape(s[..n], i);
        assert TagMarks(s)[i] == AngleMarks(s[..n])[i];
      } else {
        TagMarksAreExact(s[n..], i - n);
        BracketsOfRest(s, n, i);
      }
    } else {
      forall p: nat, q: nat | IsTagAt(s, p, q) ensures 1 <= p < q {
        NoTagAtStart(s, p, q);
      }
      if i > 0 {
        TagMarksAreExact(s[1..], i - 1);
        BracketsOfRest(s, 1, i);
      }
    }
  }

  /** The entity of a bracket is the character reference that stands for it. */
  lemma EntitiesStandForBrackets(c: char)
    requires c == '<' || c == '>'
    ensures var e := Entity(c);
      && |e| == 5 && e[..2] == "&#" && e[4] == ';' && '0' <= e[2] <= '9' && '0' <= e[3] <= '9'
      && (e[2] as int - '0' as int) * 10 + (e[3] as int - '0' as int) == c as int
  {
  }

  /* ---- inline code ---- */

  function Backslashes(text: string, index: nat): nat
    requires index <= |text|
  {
    if index > 0 && text[index - 1] == '\\' then 1 + Backslashes(text, index - 1) else 0
  }

  predicate Escaped(text: string, index: nat)
    requires index <= |text|
  {
    Backslashes(text, index) % 2 == 1
  }

  method IsEscaped(text: string, index: nat) returns (r: bool)
    requires index <= |text|
    ensures r == Escaped(text, index)
  {
    var count, cursor := 0, index as int - 1;
    while cursor >= 0 && text[cursor] == '\\'
      invariant -1 <= cursor < index
      invariant count + Backslashes(text, cursor + 1) == Backslashes(text, index)
    {
      count := count + 1;
      cursor := cursor - 1;
    }
    r := count % 2 == 1;
  }

  datatype Span = Span(start: nat, end: nat) {
    function Length(): int { end - start }
  }

  /** The maximal runs of backticks from `i` on, without those whose first backtick is escaped. */
  function BacktickRuns(text: string, i: nat): (r: seq<Span>)
    requires i <= |text|
    ensures InOrder(r, i, |text|)
    decreases |text| - i
  {
    if i == |text| then []
    else if text[i] != '`' then
      var r := BacktickRuns(text, i + 1);
      InOrderFromEarlier(r, i, i + 1, |text|);
      r
    else
      var n := Run(text[i..], '`');
      var r := BacktickRuns(text, i + n);
      if Escaped(text, i) then
        InOrderFromEarlier(r, i, i + n, |text|);
        r
      else
        assert ([Span(i, i + n)] + r)[1..] == r;
        [Span(i, i + n)] + r
  }

  /** Disjoint spans between `low` and `high`, from left to right. */
  predicate InOrder(spans: seq<Span>, low: nat, high: nat) {
    spans == [] || (low <= spans[0].start < spans[0].end <= high && InOrder(spans[1..], spans[0].end, high))
  }

  lemma InOrderFromEarlier(spans: seq<Span>, low: nat, from: nat, high: nat)
    requires low <= from && InOrder(spans, from, high)
    ensures InOrder(spans, low, high)
  {
  }

  /** The position among later runs of the first one of the given length. */
  function FirstOfLength(runs: seq<Span>, length: int): (r: Option<nat>)
    ensures r.Some? ==> r.value < |runs| && runs[r.value].Length() == length
    ensures forall k :: 0 <= k < (if r.Some? then r.value else |runs|) ==> runs[k].Length() != length
  {
    if runs == [] then None
    else if runs[0].Length() == length then Some(0)
    else
      match FirstOfLength(runs[1..], length)
      case None => None
      case Some(k) => Some(k + 1)
  }

  lemma {:induction false} LaterRunsInOrder(runs: seq<Span>, low: nat, high: nat, k: nat)
    requires InOrder(runs, low, high) && k < |runs|
    ensures low <= runs[k].start < runs[k].end <= high && InOrder(runs[k + 1..], runs[k].end, high)
  {
    if k > 0 {
      LaterRunsInOrder(runs[1..], runs[0].end, high, k - 1);
      assert runs[1..][k - 1] == runs[k] && runs[1..][k..] == runs[k + 1..];
    }
  }

  /** The code spans of a line, each from an opening run to the end of the first later run of the
      same length. An opening run that nothing closes ends the search. */
  function CodeSpans(runs: seq<Span>): seq<Span>
    decreases |runs|
  {
    if runs == [] then []
    else
      match FirstOfLength(runs[1..], runs[0].Length())
      case None => []
      case Some(k) => [Span(runs[0].start, runs[k + 1].end)] + CodeSpans(runs[k + 2..])
  }

  lemma {:induction false} CodeSpansInOrder(runs: seq<Span>, low: nat, high: nat)
    requires InOrder(runs, low, high)
    ensures InOrder(CodeSpans(runs), low, high)
    decreases |runs|
  {
    if runs != [] {
      var closing := FirstOfLength(runs[1..], runs[0].Length());
      if closing.Some? {
        var k := closing.value;
        LaterRunsInOrder(runs[1..], runs[0].end, high, k);
        assert runs[1..][k] == runs[k + 1] && runs[1..][k + 1..] == runs[k + 2..];
        CodeSpansInOrder(runs[k + 2..], runs[k + 1].end, high);
        assert CodeSpans(runs)[1..] == CodeSpans(runs[k + 2..]);
      }
    }
  }

  /* ---- exactly which spans are code ---- */

  /** A maximal run of backticks whose first one is not escaped. */
  predicate IsRun(text: string, r: Span) {
    && r.start < r.end <= |text| && (forall i :: r.start <= i < r.end ==> text[i] == '`')
    && (r.start == 0 || text[r.start - 1] != '`') && (r.end == |text| || text[r.end] != '`')
    && !Escaped(text, r.start)
  }

  /** The runs found are exactly these. */
  lemma {:induction false} RunsAreExact(text: string, i: nat, r: Span)
    requires i <= |text| && (i == 0 || text[i - 1] != '`' || i == |text| || text[i] != '`')
    ensures r in BacktickRuns(text, i) <==> IsRun(text, r) && r.start >= i
    decreases |text| - i
  {
    if i < |text| && text[i] != '`' {
      RunsAreExact(text, i + 1, r);
    } else if i < |text| {
      var n := Run(text[i..], '`');
      RunFrom(text, i, n);
      RunsAreExact(text, i + n, r);
      OneRunPerPlace(text, i, n, r);
      RunsWithFirst(text, i, n, r);
    }
  }

  lemma RunsWithFirst(text: string, i: nat, n: nat, r: Span)
    requires i < |text| && text[i] == '`' && n == Run(text[i..], '`') && 0 < n
    ensures r in BacktickRuns(text, i) <==>
      (r == Span(i, i + n) && !Escaped(text, i)) || r in BacktickRuns(text, i + n)
  {
    var rest := BacktickRuns(text, i + n);
    assert BacktickRuns(text, i) == if Escaped(text, i) then rest else [Span(i, i + n)] + rest;
  }

  lemma RunFrom(text: string, i: nat, n: nat)
    requires i < |text| && text[i] == '`' && n == Run(text[i..], '`')
    ensures 0 < n && i + n <= |text| && (forall k :: i <= k < i + n ==> text[k] == '`')
    ensures i + n == |text| || text[i + n] != '`'
  {
    var rest := text[i..];
    assert rest[0] == text[i];
    assert forall k :: i <= k < i + n ==> text[k] == rest[k - i];
    assert i + n < |text| ==> text[i + n] == rest[n];
  }

  lemma OneRunPerPlace(text: string, i: nat, n: nat, r: Span)
    requires 0 < n && i + n <= |text| && (forall k :: i <= k < i + n ==> text[k] == '`')
    requires i + n == |text| || text[i + n] != '`'
    requires i == 0 || text[i - 1] != '`'
    ensures IsRun(text, r) && r.start >= i <==>
      (r == Span(i, i + n) && !Escaped(text, i)) || (IsRun(text, r) && r.start >= i + n)
  {
  }

  /** The first run at or after `from`. */
  ghost predicate Opens(runs: seq<Span>, from: nat, a: Span) {
    a in runs && a.start >= from && forall r :: r in runs && r.start >= from ==> r.start >= a.start
  }

  /** The first later run of the same length. */
  ghost predicate Closes(runs: seq<Span>, a: Span, b: Span) {
    && b in runs && b.start >= a.end && b.Length() == a.Length()
    && forall r :: r in runs && a.end <= r.start < b.start ==> r.Length() != a.Length()
  }

  ghost predicate IsCode(runs: seq<Span>, from: nat, span: Span) {
    exists a, b :: Opens(runs, from, a) && Closes(runs, a, b) && span == Span(a.start, b.end)
  }

  ghost predicate NothingCloses(runs: seq<Span>, from: nat) {
    forall a, b :: Opens(runs, from, a) ==> !Closes(runs, a, b)
  }

  /** Where the text after the first `k` spans begins. */
  function After(spans: seq<Span>, low: nat, k: nat): nat
    requires k <= |spans|
  {
    if k == 0 then low else spans[k - 1].end
  }

  lemma {:induction false} RunsFromOn(runs: seq<Span>, low: nat, high: nat, m: nat, r: Span)
    requires InOrder(runs, low, high) && m < |runs|
    ensures r in runs[m + 1..] <==> r in runs && r.start >= runs[m].end
    decreases |runs|
  {
    assert runs == [runs[0]] + runs[1..];
    if m == 0 {
      if r in runs[1..] {
        RunsStartLate(runs[1..], runs[0].end, high, r);
      }
    } else {
      RunsFromOn(runs[1..], runs[0].end, high, m - 1, r);
      assert runs[1..][m..] == runs[m + 1..] && runs[1..][m - 1] == runs[m];
      LaterRunsInOrder(runs[1..], runs[0].end, high, m - 1);
    }
  }

  lemma {:induction false} RunsStartLate(runs: seq<Span>, low: nat, high: nat, r: Span)
    requires InOrder(runs, low, high) && r in runs
    ensures low <= r.start < r.end <= high
    decreases |runs|
  {
    assert runs == [runs[0]] + runs[1..];
    if r != runs[0] {
      RunsStartLate(runs[1..], runs[0].end, high, r);
    }
  }

  /** The first run opens, and the first later run of its length closes it. */
  lemma FirstSpan(runs: seq<Span>, low: nat, high: nat)
    requires InOrder(runs, low, high) && runs != []
    ensures Opens(runs, low, runs[0])
    ensures var closing := FirstOfLength(runs[1..], runs[0].Length());
      && (closing.Some? ==> Closes(runs, runs[0], runs[closing.value + 1]))
      && (closing.None? ==> NothingCloses(runs, low))
  {
    forall r | r in runs ensures r.start >= runs[0].start {
      RunsStartLate(runs, runs[0].start, high, r);
    }
    forall r | r in runs && r.start >= runs[0].end ensures r in runs[1..] {
      RunsFromOn(runs, low, high, 0, r);
    }
    var closing := FirstOfLength(runs[1..], runs[0].Length());
    if closing.Some? {
      var m := closing.value + 1;
      assert runs[1..][closing.value] == runs[m];
      LaterRunsInOrder(runs[1..], runs[0].end, high, closing.value);
      forall r | r in runs && runs[0].end <= r.start < runs[m].start ensures r.Length() != runs[0].Length() {
        BetweenRuns(runs, low, high, m, r);
      }
    } else {
      forall a, b | Opens(runs, low, a) ensures !Closes(runs, a, b) {
        OnlyOneStartsThere(runs, low, high, a);
      }
    }
  }

  lemma OnlyOneStartsThere(runs: seq<Span>, low: nat, high: nat, a: Span)
    requires InOrder(runs, low, high) && runs != [] && a in runs && a.start <= runs[0].start
    ensures a == runs[0]
  {
    assert runs == [runs[0]] + runs[1..];
    if a in runs[1..] {
      RunsStartLate(runs[1..], runs[0].end, high, a);
    }
  }

  /** A later run that starts before run `m` is one of those between. */
  lemma {:induction false} BetweenRuns(runs: seq<Span>, low: nat, high: nat, m: nat, r: Span)
    requires InOrder(runs, low, high) && 0 < m < |runs| && r in runs && runs[0].end <= r.start < runs[m].start
    ensures exists k :: 1 <= k < m && runs[k] == r
  {
    var k :| 0 <= k < |runs| && runs[k] == r;
    if k > m {
      RunsFromOn(runs, low, high, m, r);
      assert r == runs[m + 1..][k - m - 1];
      LaterRunsInOrder(runs, low, high, m);
    }
    LaterRunsInOrder(runs, low, high, 0);
  }

  /** What holds of the runs after a closing run holds of all runs from there on. */
  lemma CodeOfRest(runs: seq<Span>, low: nat, high: nat, m: nat, from: nat, span: Span)
    requires InOrder(runs, low, high) && m < |runs| && from >= runs[m].end
    ensures IsCode(runs[m + 1..], from, span) ==> IsCode(runs, from, span)
    ensures NothingCloses(runs[m + 1..], from) ==> NothingCloses(runs, from)
  {
    var rest := runs[m + 1..];
    forall r ensures r in rest <==> r in runs && r.start >= runs[m].end {
      RunsFromOn(runs, low, high, m, r);
    }
    LaterRunsInOrder(runs, low, high, m);
    forall a ensures Opens(rest, from, a) <==> Opens(runs, from, a) {
    }
    forall a, b | Opens(runs, from, a) ensures Closes(rest, a, b) <==> Closes(runs, a, b) {
      RunsStartLate(runs, low, high, a);
    }
    if IsCode(rest, from, span) {
      var a, b :| Opens(rest, from, a) && Closes(rest, a, b) && span == Span(a.start, b.end);
      assert Opens(runs, from, a) && Closes(runs, a, b);
    }
  }

  /** Span `k` begins at the first run after the span before it and ends with the first later run of its length; after
      the last span nothing is closed any more. */
  ghost predicate SpansUpTo(runs: seq<Span>, spans: seq<Span>, low: nat, k: nat)
    requires k <= |spans|
  {
    if k < |spans| then IsCode(runs, After(spans, low, k), spans[k]) else NothingCloses(runs, After(spans, low, k))
  }

  /** The spans found are exactly the code spans. */
  lemma {:induction false} CodeSpansAreExact(runs: seq<Span>, low: nat, high: nat, k: nat)
    requires InOrder(runs, low, high) && k <= |CodeSpans(runs)|
    ensures SpansUpTo(runs, CodeSpans(runs), low, k)
    decreases |runs|
  {
    if runs == [] {
    } else if FirstOfLength(runs[1..], runs[0].Length()).None? {
      FirstSpan(runs, low, high);
    } else {
      var m := FirstOfLength(runs[1..], runs[0].Length()).value + 1;
      var rest := runs[m + 1..];
      var first, later := Span(runs[0].start, runs[m].end), CodeSpans(rest);
      FirstThenLater(runs, m);
      if k == 0 {
        FirstIsCode(runs, low, high, m);
      } else {
        LaterRunsInOrder(runs, low, high, m);
        CodeSpansAreExact(rest, runs[m].end, high, k - 1);
        CodeSpansInOrder(rest, runs[m].end, high);
        SpansOfRest(runs, low, high, m, first, later, k);
      }
    }
  }

  lemma FirstThenLater(runs: seq<Span>, m: nat)
    requires runs != [] && FirstOfLength(runs[1..], runs[0].Length()) == Some(m - 1)
    ensures CodeSpans(runs) == [Span(runs[0].start, runs[m].end)] + CodeSpans(runs[m + 1..])
  {
  }

  lemma FirstIsCode(runs: seq<Span>, low: nat, high: nat, m: nat)
    requires InOrder(runs, low, high) && runs != [] && FirstOfLength(runs[1..], runs[0].Length()) == Some(m - 1)
    ensures IsCode(runs, low, Span(runs[0].start, runs[m].end))
  {
    FirstSpan(runs, low, high);
    assert Opens(runs, low, runs[0]) && Closes(runs, runs[0], runs[m]);
  }

  lemma SpansOfRest(runs: seq<Span>, low: nat, high: nat, m: nat, first: Span, later: seq<Span>, k: nat)
    requires InOrder(runs, low, high) && m < |runs| && first.end == runs[m].end && 0 < k <= |later| + 1
    requires InOrder(later, runs[m].end, high) && SpansUpTo(runs[m + 1..], later, runs[m].end, k - 1)
    ensures SpansUpTo(runs, [first] + later, low, k)
  {
    var from := After(later, runs[m].end, k - 1);
    AfterIsLate(later, runs[m].end, high, k - 1);
    assert After([first] + later, low, k) == from;
    CodeOfRest(runs, low, high, m, from, if k - 1 < |later| then later[k - 1] else first);
  }

  lemma AfterIsLate(spans: seq<Span>, low: nat, high: nat, k: nat)
    requires InOrder(spans, low, high) && k <= |spans|
    ensures After(spans, low, k) >= low
  {
    if k > 0 {
      LaterRunsInOrder(spans, low, high, k - 1);
    }
  }

  /** Marks for `text[cursor..]`: tags between the code spans, nothing inside them. */
  function MarksAround(text: string, spans: seq<Span>, cursor: nat): (m: seq<bool>)
    requires cursor <= |text| && InOrder(spans, cursor, |text|)
    ensures |m| == |text| - cursor
    decreases |spans|
  {
    if spans == [] then TagMarks(text[cursor..])
    else
      var Span(start, end) := spans[0];
      TagMarks(text[cursor..start]) + Unmarked(end - start) + MarksAround(text, spans[1..], end)
  }

  function LineMarks(line: string): (m: seq<bool>)
    ensures |m| == |line|
  {
    var runs := BacktickRuns(line, 0);
    CodeSpansInOrder(runs, 0, |line|);
    MarksAround(line, CodeSpans(runs), 0)
  }

  lemma {:induction false} MarksAroundAngles(text: string, spans: seq<Span>, cursor: nat, i: nat)
    requires cursor <= i < |text| && InOrder(spans, cursor, |text|)
    requires MarksAround(text, spans, cursor)[i - cursor]
    ensures text[i] == '<' || text[i] == '>'
    decreases |spans|
  {
    if spans == [] {
      assert text[cursor..][i - cursor] == text[i];
    } else {
      var Span(start, end) := spans[0];
      var outside := text[cursor..start];
      if i < start {
        assert outside[i - cursor] == text[i];
        assert MarksAround(text, spans, cursor)[i - cursor] == TagMarks(outside)[i - cursor];
      } else if i >= end {
        MarksAroundAngles(text, spans[1..], end, i);
      }
    }
  }

  /** The end of the gap before span `k`, or of the text. */
  function GapEnd(text: string, spans: seq<Span>, k: nat): nat
    requires k <= |spans|
  {
    if k < |spans| then spans[k].start else |text|
  }

  lemma {:induction false} GapIsThere(text: string, spans: seq<Span>, cursor: nat, k: nat)
    requires cursor <= |text| && InOrder(spans, cursor, |text|) && k <= |spans|
    ensures cursor <= After(spans, cursor, k) <= GapEnd(text, spans, k) <= |text|
    decreases |spans|
  {
    if k > 0 {
      assert spans[1..][..k - 1] == spans[1..k];
      GapIsThere(text, spans[1..], spans[0].end, k - 1);
    }
  }

  /** Marks outside the spans as `f` makes them, none inside. */
  function MarksWith(f: string -> seq<bool>, text: string, spans: seq<Span>, cursor: nat): seq<bool>
    requires cursor <= |text| && InOrder(spans, cursor, |text|)
    decreases |spans|
  {
    if spans == [] then f(text[cursor..])
    else
      var Span(start, end) := spans[0];
      f(text[cursor..start]) + Unmarked(end - start) + MarksWith(f, text, spans[1..], end)
  }

  /** The marks of a line are made by its at-tags. */
  lemma {:induction false} MarksAroundAreTagMarks(f: string -> seq<bool>, text: string, spans: seq<Span>, cursor: nat)
    requires cursor <= |text| && InOrder(spans, cursor, |text|) && forall t :: f(t) == TagMarks(t)
    ensures MarksAround(text, spans, cursor) == MarksWith(f, text, spans, cursor)
    decreases |spans|
  {
    if spans != [] {
      MarksAroundAreTagMarks(f, text, spans[1..], spans[0].end);
    }
  }

  /** Between two code spans the marks are those made of the text there, by at-tags or whatever makes them. */
  lemma {:induction false} MarksOfGap(f: string -> seq<bool>, text: string, spans: seq<Span>, cursor: nat, k: nat, i: nat)
    requires cursor <= |text| && InOrder(spans, cursor, |text|) && k <= |spans| && forall t :: |f(t)| == |t|
    requires cursor <= After(spans, cursor, k) <= i < GapEnd(text, spans, k) <= |text|
    ensures |MarksWith(f, text, spans, cursor)| == |text| - cursor
    ensures MarksWith(f, text, spans, cursor)[i - cursor]
         == f(text[After(spans, cursor, k)..GapEnd(text, spans, k)])[i - After(spans, cursor, k)]
    decreases |spans|
  {
    MarksCoverText(f, text, spans, cursor);
    if spans == [] {
      ToTheEnd(text, cursor);
    } else {
      var Span(start, end) := spans[0];
      var before, inside := f(text[cursor..start]), Unmarked(end - start);
      var after := MarksWith(f, text, spans[1..], end);
      if k == 0 {
        FirstPart(before, inside, after, i - cursor);
      } else {
        GapShifts(text, spans, cursor, k);
        AfterIsLate(spans[1..], end, |text|, k - 1);
        MarksOfGap(f, text, spans[1..], end, k - 1, i);
        MiddleAndEnd(before, inside, after, i - cursor);
      }
    }
  }

  lemma {:induction false} MarksCoverText(f: string -> seq<bool>, text: string, spans: seq<Span>, cursor: nat)
    requires cursor <= |text| && InOrder(spans, cursor, |text|) && forall t :: |f(t)| == |t|
    ensures |MarksWith(f, text, spans, cursor)| == |text| - cursor
    decreases |spans|
  {
    if spans != [] {
      MarksCoverText(f, text, spans[1..], spans[0].end);
    }
  }

  lemma FirstPart(a: seq<bool>, b: seq<bool>, c: seq<bool>, j: nat)
    requires j < |a|
    ensures (a + b + c)[j] == a[j]
  {
  }

  lemma ToTheEnd(text: string, n: nat)
    requires n <= |text|
    ensures text[n..|text|] == text[n..]
  {
  }

  lemma GapShifts(text: string, spans: seq<Span>, cursor: nat, k: nat)
    requires 0 < k <= |spans|
    ensures After(spans, cursor, k) == After(spans[1..], spans[0].end, k - 1)
    ensures GapEnd(text, spans, k) == GapEnd(text, spans[1..], k - 1)
  {
  }

  lemma LineMarksAngles(line: string)
    ensures MarksAngles(line, LineMarks(line))
  {
    var spans := CodeSpans(BacktickRuns(line, 0));
    CodeSpansInOrder(BacktickRuns(line, 0), 0, |line|);
    forall i | 0 <= i < |line| && LineMarks(line)[i]
      ensures line[i] == '<' || line[i] == '>'
    {
      MarksAroundAngles(line, spans, 0, i);
    }
  }

  /** No character of a code span is marked. */
  lemma {:induction false} CodeSpansAreUnmarked(text: string, spans: seq<Span>, cursor: nat, k: nat, i: nat)
    requires cursor <= |text| && InOrder(spans, cursor, |text|)
    requires k < |spans| && spans[k].start <= i < spans[k].end
    ensures cursor <= i < |text| && !MarksAround(text, spans, cursor)[i - cursor]
    decreases |spans|
  {
    var Span(start, end) := spans[0];
    var before, inside := TagMarks(text[cursor..start]), Unmarked(end - start);
    var after := MarksAround(text, spans[1..], end);
    if k > 0 {
      assert spans[1..][k - 1] == spans[k];
      CodeSpansAreUnmarked(text, spans[1..], end, k - 1, i);
    }
    MiddleAndEnd(before, inside, after, i - cursor);
  }

  lemma MiddleAndEnd(a: seq<bool>, b: seq<bool>, c: seq<bool>, j: nat)
    requires |a| <= j < |a| + |b| + |c|
    ensures (a + b + c)[j] == if j < |a| + |b| then b[j - |a|] else c[j - |a| - |b|]
  {
  }

  /** What is written for `text[cursor..]`. */
  ghost function Written(text: string, spans: seq<Span>, cursor: nat): string
    requires cursor <= |text| && InOrder(spans, cursor, |text|)
  {
    Expand(text[cursor..], MarksAround(text, spans, cursor))
  }

  lemma WrittenParts(outside: string, span: string, tail: string, marks: seq<bool>)
    requires |marks| == |tail|
    ensures Expand(outside + span + tail, TagMarks(outside) + Unmarked(|span|) + marks) ==
      EscapeLarkAtTags(outside) + span + Expand(tail, marks)
  {
    EscapeTagsByMarks(outside);
    ExpandUnmarked(span, Unmarked(|span|));
    ExpandThree(outside, TagMarks(outside), span, Unmarked(|span|), tail, marks);
  }

  /** Up to the end of the first code span, and after it. */
  lemma WrittenAtSpan(text: string, spans: seq<Span>, cursor: nat)
    requires spans != [] && cursor <= |text| && InOrder(spans, cursor, |text|)
    ensures var Span(start, end) := spans[0];
      Written(text, spans, cursor) ==
        EscapeLarkAtTags(text[cursor..start]) + text[start..end] + Written(text, spans[1..], end)
  {
    var Span(start, end) := spans[0];
    var outside, span, tail := text[cursor..start], text[start..end], text[end..];
    var marks := MarksAround(text, spans[1..], end);
    ThreeParts(text, cursor, start, end);
    assert MarksAround(text, spans, cursor) == TagMarks(outside) + Unmarked(|span|) + marks;
    WrittenParts(outside, span, tail, marks);
  }

  lemma ThreeParts(text: string, a: nat, b: nat, c: nat)
    requires a <= b <= c <= |text|
    ensures text[a..] == text[a..b] + text[b..c] + text[c..]
  {
  }

  method NeutralizeInlineMentions(text: string) returns (r: string)
    ensures r == Expand(text, LineMarks(text))
  {
    var matches := BacktickRuns(text, 0);
    var cursor: nat := 0;
    r := "";
    CodeSpansInOrder(matches, 0, |text|);
    ghost var all := Written(text, CodeSpans(matches), 0);
    assert text[0..] == text;
    assert r + all == all;
    while matches != []
      invariant cursor <= |text| && InOrder(matches, cursor, |text|) && InOrder(CodeSpans(matches), cursor, |text|)
      invariant r + Written(text, CodeSpans(matches), cursor) == all
      decreases |matches|
    {
      var closing := FirstOfLength(matches[1..], matches[0].Length());
      if closing.None? {
        break;
      }
      var k := closing.value;
      var end := matches[k + 1].end;
      NextSpan(text, matches, cursor, k);
      var part := EscapeLarkAtTags(text[cursor..matches[0].start]) + text[matches[0].start..end];
      ghost var later := Written(text, CodeSpans(matches[k + 2..]), end);
      assert r + (part + later) == (r + part) + later;
      r, cursor, matches := r + part, end, matches[k + 2..];
    }
    EscapeTagsByMarks(text[cursor..]);
    r := r + EscapeLarkAtTags(text[cursor..]);
  }

  lemma NextSpan(text: string, runs: seq<Span>, cursor: nat, k: nat)
    requires runs != [] && cursor <= |text| && InOrder(runs, cursor, |text|) && InOrder(CodeSpans(runs), cursor, |text|)
    requires FirstOfLength(runs[1..], runs[0].Length()) == Some(k)
    ensures cursor <= runs[0].start <= runs[k + 1].end <= |text|
    ensures InOrder(runs[k + 2..], runs[k + 1].end, |text|)
    ensures InOrder(CodeSpans(runs[k + 2..]), runs[k + 1].end, |text|)
    ensures Written(text, CodeSpans(runs), cursor) ==
      EscapeLarkAtTags(text[cursor..runs[0].start]) + text[runs[0].start..runs[k + 1].end]
        + Written(text, CodeSpans(runs[k + 2..]), runs[k + 1].end)
  {
    LaterRunsInOrder(runs, cursor, |text|, k + 1);
    var spans := CodeSpans(runs);
    assert spans[0] == Span(runs[0].start, runs[k + 1].end) && spans[1..] == CodeSpans(runs[k + 2..]);
    WrittenAtSpan(text, spans, cursor);
  }

  /* ---- whole texts ---- */

  /** Lines that open a fence, lie in one or close one are written as they are. */
  function MarksOfLine(open: Option<Fence>, line: string): (m: seq<bool>)
    ensures |m| == |line|
  {
    if open.Some? || FenceMarker(line).Some? then Unmarked(|line|) else LineMarks(line)
  }

  function Marks(open: Option<Fence>, text: string): (m: seq<bool>)
    ensures |m| == |text|
    decreases |text|
  {
    if text == "" then []
    else
      var line := text[..FirstLine(text)];
      MarksOfLine(open, line) + Marks(Step(open, line), text[FirstLine(text)..])
  }

  /** What is written for a text that is read with `open` already open. */
  ghost function Neutralized(open: Option<Fence>, text: string): string {
    Expand(text, Marks(open, text))
  }

  method NeutralizeLarkMentions(markdown: string) returns (r: string)
    ensures r == Neutralized(None, markdown)
  {
    r := "";
    var open: Option<Fence>, rest := None, markdown;
    ghost var all := Neutralized(open, rest);
    assert r + all == all;
    while rest != ""
      invariant r + Neutralized(open, rest) == all
      decreases |rest|
    {
      var n := FirstLine(rest);
      var written, next := NeutralizeLine(open, rest[..n]);
      WriteFirstLine(open, rest, r, written);
      r, open, rest := r + written, next, rest[n..];
    }
  }

  lemma WriteFirstLine(open: Option<Fence>, text: string, before: string, written: string)
    requires text != "" && written == Expand(text[..FirstLine(text)], MarksOfLine(open, text[..FirstLine(text)]))
    ensures before + Neutralized(open, text) ==
      before + written + Neutralized(Step(open, text[..FirstLine(text)]), text[FirstLine(text)..])
  {
    ExpandFirstLine(open, text);
  }

  method NeutralizeLine(open: Option<Fence>, line: string) returns (written: string, next: Option<Fence>)
    ensures written == Expand(line, MarksOfLine(open, line)) && next == Step(open, line)
  {
    var fence := FenceMarker(line);
    next := open;
    if open.Some? {
      ExpandUnmarked(line, Unmarked(|line|));
      written := line;
      if fence.Some? && ClosesFence(line, open.value) {
        next := None;
      }
    } else if fence.Some? {
      ExpandUnmarked(line, Unmarked(|line|));
      next := fence;
      written := line;
    } else {
      written := NeutralizeInlineMentions(line);
    }
  }

  lemma ExpandFirstLine(open: Option<Fence>, text: string)
    requires text != ""
    ensures var line, rest := text[..FirstLine(text)], text[FirstLine(text)..];
      Expand(text, Marks(open, text)) ==
        Expand(line, MarksOfLine(open, line)) + Expand(rest, Marks(Step(open, line), rest))
  {
    var line, rest := text[..FirstLine(text)], text[FirstLine(text)..];
    ExpandConcat(line, MarksOfLine(open, line), rest, Marks(Step(open, line), rest));
    Halves(text, FirstLine(text));
  }

  lemma MarksOfLineAngles(open: Option<Fence>, line: string)
    ensures MarksAngles(line, MarksOfLine(open, line))
  {
    LineMarksAngles(line);
  }

  /** Only angle brackets are marked anywhere. */
  lemma {:induction false} MarksAreAngles(open: Option<Fence>, text: string)
    ensures MarksAngles(text, Marks(open, text))
    decreases |text|
  {
    if text != "" {
      var line, rest := text[..FirstLine(text)], text[FirstLine(text)..];
      MarksOfLineAngles(open, line);
      MarksAreAngles(Step(open, line), rest);
      AnglesConcat(line, MarksOfLine(open, line), rest, Marks(Step(open, line), rest));
      Halves(text, FirstLine(text));
    }
  }

  lemma AnglesConcat(a: string, ma: seq<bool>, b: string, mb: seq<bool>)
    requires MarksAngles(a, ma) && MarksAngles(b, mb)
    ensures MarksAngles(a + b, ma + mb)
  {
  }

  /* ---- block structure is kept ---- */

  /** Up to the first mark the text is written as it is; there an entity begins. */
  lemma ExpandAtFirstMark(line: string, marks: seq<bool>, p: nat)
    requires MarksAngles(line, marks) && p < |line| && marks[p]
    requires forall i :: 0 <= i < p ==> !marks[i]
    ensures var more := Expand(line[p..], marks[p..]);
      Expand(line, marks) == line[..p] + more && more != "" && more[0] == '&'
  {
    SplitAt(line, marks, p);
    ExpandAfterUnmarked(line[..p], marks[..p], line[p..], marks[p..]);
  }

  lemma SplitAt(line: string, marks: seq<bool>, p: nat)
    requires MarksAngles(line, marks) && p < |line|
    ensures line == line[..p] + line[p..] && marks == marks[..p] + marks[p..]
    ensures MarksAngles(line[p..], marks[p..]) && line[p..] != "" && marks[p..][0] == marks[p]
  {
  }

  lemma ExpandAfterUnmarked(head: string, headMarks: seq<bool>, more: string, marks: seq<bool>)
    requires |head| == |headMarks| && forall i :: 0 <= i < |headMarks| ==> !headMarks[i]
    requires MarksAngles(more, marks) && more != "" && marks[0]
    ensures Expand(head + more, headMarks + marks) == head + Expand(more, marks)
    ensures Expand(more, marks) != "" && Expand(more, marks)[0] == '&'
  {
    ExpandConcat(head, headMarks, more, marks);
    ExpandUnmarked(head, headMarks);
    EntityFirst(more, marks);
  }

  lemma EntityFirst(s: string, marks: seq<bool>)
    requires MarksAngles(s, marks) && s != "" && marks[0]
    ensures Expand(s, marks) != "" && Expand(s, marks)[0] == '&'
  {
  }

  /** Writing entities neither makes a fence line nor unmakes one. */
  lemma ExpandKeepsNonFence(line: string, marks: seq<bool>, p: nat)
    requires MarksAngles(line, marks) && p < |line| && marks[p]
    requires forall i :: 0 <= i < p ==> !marks[i]
    ensures MatchFence(Expand(line, marks)).Some? ==> MatchFence(line).Some?
  {
    ExpandAtFirstMark(line, marks, p);
    OrdinaryTextKeepsNonFence(line, p, Expand(line[p..], marks[p..]));
  }

  lemma OrdinaryTextKeepsNonFence(line: string, p: nat, more: string)
    requires p <= |line| && more != "" && more[0] == '&'
    ensures MatchFence(line[..p] + more).Some? ==> MatchFence(line).Some?
  {
    MatchFenceExtends(line[..p], more);
    FenceOfPrefix(line, p);
  }

  lemma ExpandKeepsStep(line: string, marks: seq<bool>)
    requires MarksAngles(line, marks) && FenceMarker(line).None?
    ensures FenceMarker(Expand(line, marks)).None?
  {
    StrippingIsIrrelevant(line);
    StrippingIsIrrelevant(Expand(line, marks));
    if p :| 0 <= p < |line| && marks[p] {
      var first := FirstMark(marks, 0);
      ExpandKeepsNonFence(line, marks, first);
    } else {
      ExpandUnmarked(line, marks);
    }
  }

  function FirstMark(marks: seq<bool>, i: nat): (p: nat)
    requires i <= |marks| && (forall j :: 0 <= j < i ==> !marks[j]) && exists j :: 0 <= j < |marks| && marks[j]
    ensures p < |marks| && marks[p] && forall j :: 0 <= j < p ==> !marks[j]
    decreases |marks| - i
  {
    assert i < |marks|;
    if marks[i] then i else FirstMark(marks, i + 1)
  }

  /** A line stays one line: entities hold no breaks and breaks are never marked. */
  lemma {:induction false} ExpandKeepsLine(line: string, marks: seq<bool>, rest: string)
    requires line != "" && FirstLine(line) == |line| && MarksAngles(line, marks)
    requires if IsBreak(line[|line| - 1]) then !(line[|line| - 1] == '\r' && rest != "" && rest[0] == '\n')
             else rest == ""
    ensures FirstLine(Expand(line, marks) + rest) == |Expand(line, marks)|
  {
    var head := if marks[0] then Entity(line[0]) else [line[0]];
    var tail, tailMarks := line[1..], marks[1..];
    assert Expand(line, marks) == head + Expand(tail, tailMarks);
    if IsBreak(line[0]) {
      BreakIsUnmarked(line, marks);
      FirstLineOfConcat(line, rest);
    } else if tail == "" {
      assert head + Expand(tail, tailMarks) + rest == head;
      FirstLineOfUnbroken(head);
    } else {
      ExpandKeepsLine(tail, tailMarks, rest);
      var more := Expand(tail, tailMarks);
      assert more != "";
      assert head + more + rest == head + (more + rest);
      FirstLineExtends(head, more + rest);
    }
  }

  lemma BreakIsUnmarked(line: string, marks: seq<bool>)
    requires line != "" && FirstLine(line) == |line| && IsBreak(line[0]) && MarksAngles(line, marks)
    ensures Expand(line, marks) == line && IsBreak(line[|line| - 1])
  {
    ExpandUnmarked(line, marks);
  }

  lemma ScanLineThenRest(open: Option<Fence>, line: string, rest: string)
    requires line != "" && FirstLine(line + rest) == |line|
    ensures Scan(open, line + rest) == Scan(Step(open, line), rest)
  {
    assert (line + rest)[..|line|] == line && (line + rest)[|line|..] == rest;
  }

  /** Neutralising mentions keeps the block structure: what is written leaves the same fence open
      as what was read. */
  lemma {:induction false} NeutralizingKeepsFences(open: Option<Fence>, text: string)
    ensures Scan(open, Neutralized(open, text)) == Scan(open, text)
    decreases |text|
  {
    if text != "" {
      var line, rest := text[..FirstLine(text)], text[FirstLine(text)..];
      var next := Step(open, line);
      NeutralizingKeepsFences(next, rest);
      ExpandFirstLine(open, text);
      MarksOfLineAngles(open, line);
      MarksAreAngles(next, rest);
      WrittenLineIsLine(text, MarksOfLine(open, line), Marks(next, rest));
      WrittenLineSteps(open, line);
      ScanLineThenRest(open, Expand(line, MarksOfLine(open, line)), Expand(rest, Marks(next, rest)));
    }
  }

  lemma WrittenLineSteps(open: Option<Fence>, line: string)
    ensures Step(open, Expand(line, MarksOfLine(open, line))) == Step(open, line)
  {
    if open.Some? || FenceMarker(line).Some? {
      ExpandUnmarked(line, Unmarked(|line|));
    } else {
      LineMarksAngles(line);
      ExpandKeepsStep(line, LineMarks(line));
    }
  }

  lemma WrittenLineIsLine(text: string, marks: seq<bool>, restMarks: seq<bool>)
    requires text != ""
    requires MarksAngles(text[..FirstLine(text)], marks) && MarksAngles(text[FirstLine(text)..], restMarks)
    ensures var n := FirstLine(text);
      var written := Expand(text[..n], marks);
      written != "" && FirstLine(written + Expand(text[n..], restMarks)) == |written|
  {
    var n := FirstLine(text);
    var line, rest := text[..n], text[n..];
    FirstLineShape(text);
    FirstLineOfPrefix(text, n);
    ExpandKeepsLine(line, marks, Expand(rest, restMarks));
  }

  lemma NeutralizedLines(open: Option<Fence>, text: string)
    requires text != ""
    ensures var line, rest := text[..FirstLine(text)], text[FirstLine(text)..];
      Lines(Neutralized(open, text)) ==
        [Expand(line, MarksOfLine(open, line))] + Lines(Neutralized(Step(open, line), rest))
  {
    var line, rest := text[..FirstLine(text)], text[FirstLine(text)..];
    var next := Step(open, line);
    ExpandFirstLine(open, text);
    MarksOfLineAngles(open, line);
    MarksAreAngles(next, rest);
    WrittenLineIsLine(text, MarksOfLine(open, line), Marks(next, rest));
    var written, more := Expand(line, MarksOfLine(open, line)), Neutralized(next, rest);
    assert (written + more)[..|written|] == written && (written + more)[|written|..] == more;
  }

  lemma FencedLineIsVerbatim(open: Option<Fence>, line: string)
    requires open.Some? || FenceMarker(line).Some?
    ensures Expand(line, MarksOfLine(open, line)) == line
  {
    ExpandUnmarked(line, Unmarked(|line|));
  }

  lemma {:induction false} LinesAreRewritten(open: Option<Fence>, text: string, k: nat)
    requires k < |Lines(text)|
    ensures |Lines(Neutralized(open, text))| == |Lines(text)|
    ensures var line, before := Lines(text)[k], OpenBefore(open, Lines(text), k);
      Lines(Neutralized(open, text))[k] == Expand(line, MarksOfLine(before, line))
    decreases |text|
  {
    var line, rest := text[..FirstLine(text)], text[FirstLine(text)..];
    NeutralizedLines(open, text);
    if rest == "" {
      assert Lines(Neutralized(Step(open, line), rest)) == [];
    } else {
      LinesAreRewritten(Step(open, line), rest, if k == 0 then 0 else k - 1);
    }
    assert Lines(text)[1..] == Lines(rest);
  }

  /** The written text has the same lines in the same order, each the expansion of the line read; a fence line
      and every line inside a fence is written as it was read. */
  lemma LinesAreKept(open: Option<Fence>, text: string, k: nat)
    requires k < |Lines(text)|
    ensures |Lines(Neutralized(open, text))| == |Lines(text)|
    ensures var line, before := Lines(text)[k], OpenBefore(open, Lines(text), k);
      && Lines(Neutralized(open, text))[k] == Expand(line, MarksOfLine(before, line))
      && (before.Some? || FenceMarker(line).Some? ==> Lines(Neutralized(open, text))[k] == line)
  {
    var line, before := Lines(text)[k], OpenBefore(open, Lines(text), k);
    LinesAreRewritten(open, text, k);
    if before.Some? || FenceMarker(line).Some? {
      FencedLineIsVerbatim(before, line);
    }
  }
}
