/** Fenced code blocks in card bodies, and truncation that leaves no fence open.

    The rules are those of the renderer, a simplification of section 4.5 (fenced code blocks) of the
    CommonMark Spec: an opening fence may carry any info string. */
module MarkdownFences {
  import opened CodexModel
  import opened TextLines

  datatype Fence = Fence(marker: char, length: nat)

  predicate IsMarker(c: char) {
    c == '`' || c == '~'
  }

  function Run(s: string, c: char): (n: nat)
    ensures n <= |s|
    ensures forall i :: 0 <= i < n ==> s[i] == c
    ensures n < |s| ==> s[n] != c
  {
    if s != "" && s[0] == c then 1 + Run(s[1..], c) else 0
  }

  /** `line.rstrip("\r\n")`. */
  function StripLineEnd(line: string): string {
    if line != "" && (line[|line| - 1] == '\r' || line[|line| - 1] == '\n') then StripLineEnd(line[..|line| - 1]) else line
  }

  /** Match of the fence pattern at the start of a line: up to three spaces, then three or more
      backticks or tildes. The second part is what follows the marker. */
  function MatchFence(text: string): Option<(Fence, string)> {
    var indent := Run(text, ' ');
    if indent > 3 || indent == |text| || !IsMarker(text[indent]) then None
    else
      var n := Run(text[indent..], text[indent]);
      if n < 3 then None else Some((Fence(text[indent], n), text[indent + n..]))
  }

  function FenceMarker(line: string): Option<Fence> {
    match MatchFence(StripLineEnd(line))
    case None => None
    case Some(m) => Some(m.0)
  }

  predicate ClosesFence(line: string, open: Fence) {
    var m := MatchFence(StripLineEnd(line));
    m.Some? && m.value.0.marker == open.marker && m.value.0.length >= open.length && IsBlank(m.value.1)
  }

  function Step(open: Option<Fence>, line: string): Option<Fence> {
    if open.None? then FenceMarker(line)
    else if ClosesFence(line, open.value) then None
    else open
  }

  /** The fence left open by a text that is read with `open` already open. */
  function Scan(open: Option<Fence>, text: string): Option<Fence>
    decreases |text|
  {
    if text == "" then open else Scan(Step(open, text[..FirstLine(text)]), text[FirstLine(text)..])
  }

  function Unclosed(text: string): Option<Fence> {
    Scan(None, text)
  }

  /** The fence open before line `k`, the lines taken one by one. */
  function OpenBefore(open: Option<Fence>, lines: seq<string>, k: nat): Option<Fence>
    requires k <= |lines|
    decreases k
  {
    if k == 0 then open else OpenBefore(Step(open, lines[0]), lines[1..], k - 1)
  }

  /** A text is read line by line. */
  lemma {:induction false} ScanTakesTheLines(open: Option<Fence>, text: string)
    ensures Scan(open, text) == OpenBefore(open, Lines(text), |Lines(text)|)
    decreases |text|
  {
    if text != "" {
      ScanTakesTheLines(Step(open, text[..FirstLine(text)]), text[FirstLine(text)..]);
    }
  }

  method UnclosedFence(markdown: string) returns (open: Option<Fence>)
    ensures open == Unclosed(markdown)
  {
    open := None;
    var rest := markdown;
    while rest != ""
      invariant Scan(open, rest) == Unclosed(markdown)
      decreases |rest|
    {
      var line := rest[..FirstLine(rest)];
      var fence := FenceMarker(line);
      if open.None? {
        if fence.Some? {
          open := fence;
        }
      } else if fence.Some? && ClosesFence(line, open.value) {
        open := None;
      }
      rest := rest[FirstLine(rest)..];
    }
  }

  function Repeat(c: char, n: nat): (s: string)
    ensures |s| == n && forall i :: 0 <= i < n ==> s[i] == c
  {
    seq(n, _ => c)
  }

  const ELLIPSIS := "..."

  function ClosingFence(open: Fence): string {
    "\n" + Repeat(open.marker, open.length)
  }

  function TruncateMarkdown(text: string, limit: nat): string {
    if |text| <= limit then text
    else if limit <= 3 then text[..limit]
    else
      var prefix := text[..limit - |ELLIPSIS|];
      var open := Unclosed(prefix);
      if open.None? then prefix + ELLIPSIS
      else
        var contentLimit := limit - |ELLIPSIS| - |ClosingFence(open.value)|;
        if contentLimit <= 0 then text[..limit]
        else Finish(text[..contentLimit])
  }

  /** The ellipsis and, if the kept text leaves a fence open, its closing fence. */
  function Finish(kept: string): string {
    var open := Unclosed(kept);
    if open.None? then kept + ELLIPSIS else kept + ELLIPSIS + ClosingFence(open.value)
  }

  /* ---- lines and their breaks ---- */

  /** Text appended to a line neither makes nor unmakes a fence, unless it prolongs the indent or
      the marker. */
  lemma MatchFenceExtends(text: string, more: string)
    requires more != "" && more[0] != ' ' && !IsMarker(more[0])
    ensures MatchFence(text + more).Some? <==> MatchFence(text).Some?
    ensures MatchFence(text).Some? ==>
      MatchFence(text + more).value == (MatchFence(text).value.0, MatchFence(text).value.1 + more)
  {
    RunExtends(text, more, ' ');
    var indent := Run(text, ' ');
    if indent < |text| {
      if IsMarker(text[indent]) {
        assert (text + more)[indent..] == text[indent..] + more;
        RunExtends(text[indent..], more, text[indent]);
        var n := Run(text[indent..], text[indent]);
        assert (text + more)[indent + n..] == text[indent + n..] + more;
      }
    } else {
      assert (text + more)[indent] == more[0];
    }
  }

  lemma {:induction false} RunExtends(s: string, more: string, c: char)
    requires more != "" && more[0] != c
    ensures Run(s + more, c) == Run(s, c)
  {
    if s == "" {
      assert s + more == more;
    } else if s[0] == c {
      assert (s + more)[1..] == s[1..] + more;
      RunExtends(s[1..], more, c);
    }
  }

  /** A prefix of a fence line is no fence line or has the same marker, no longer. */
  lemma FenceOfPrefix(line: string, q: nat)
    requires q <= |line|
    ensures MatchFence(line[..q]).Some? ==>
      && MatchFence(line).Some?
      && MatchFence(line[..q]).value.0.marker == MatchFence(line).value.0.marker
      && MatchFence(line[..q]).value.0.length <= MatchFence(line).value.0.length
  {
    if MatchFence(line[..q]).Some? {
      var indent := Run(line[..q], ' ');
      RunOfPrefix(line, q, ' ');
      assert line[..q][indent..] == line[indent..][..q - indent];
      RunOfPrefix(line[indent..], q - indent, line[indent]);
    }
  }

  lemma {:induction false} RunOfPrefix(s: string, q: nat, c: char)
    requires q <= |s|
    ensures Run(s[..q], c) <= Run(s, c)
    ensures Run(s[..q], c) < q ==> Run(s[..q], c) == Run(s, c)
  {
    if q > 0 && s[0] == c {
      assert s[..q][1..] == s[1..][..q - 1];
      RunOfPrefix(s[1..], q - 1, c);
    }
  }

  /** Stripping the line end first makes no difference. */
  lemma {:induction false} StrippingIsIrrelevant(line: string)
    ensures var a, b := MatchFence(StripLineEnd(line)), MatchFence(line);
      && (a.Some? <==> b.Some?)
      && (a.Some? ==> a.value.0 == b.value.0 && (IsBlank(a.value.1) <==> IsBlank(b.value.1)))
  {
    if line != "" && (line[|line| - 1] == '\r' || line[|line| - 1] == '\n') {
      var shorter, c := line[..|line| - 1], line[|line| - 1];
      assert line == shorter + [c];
      MatchFenceExtends(shorter, [c]);
      if MatchFence(shorter).Some? {
        BlankExtends(MatchFence(shorter).value.1, [c]);
      }
      StrippingIsIrrelevant(shorter);
    }
  }

  lemma BlankExtends(s: string, more: string)
    ensures IsBlank(s + more) <==> IsBlank(s) && IsBlank(more)
  {
    assert forall i :: 0 <= i < |s| ==> (s + more)[i] == s[i];
    assert forall i :: 0 <= i < |more| ==> (s + more)[|s| + i] == more[i];
  }

  /** The break that ends a line does not matter for fences. */
  lemma StepIgnoresBreak(open: Option<Fence>, line: string, c: char)
    requires IsBreak(c)
    ensures Step(open, line + [c]) == Step(open, line)
  {
    MatchFenceExtends(line, [c]);
    StrippingIsIrrelevant(line);
    StrippingIsIrrelevant(line + [c]);
    if MatchFence(line).Some? {
      BlankExtends(MatchFence(line).value.1, [c]);
    }
  }

  lemma ScanLine(open: Option<Fence>, line: string)
    requires line == "" || FirstLine(line) == |line|
    ensures Scan(open, line) == Step(open, line)
  {
    if line != "" {
      assert line[..|line|] == line && line[|line|..] == "";
    }
  }

  lemma ScanTwoLines(open: Option<Fence>, first: string, second: string)
    requires first != "" && second != "" && FirstLine(first + second) == |first| && FirstLine(second) == |second|
    ensures Scan(open, first + second) == Step(Step(open, first), second)
  {
    assert (first + second)[..|first|] == first && (first + second)[|first|..] == second;
    ScanLine(Step(open, first), second);
  }

  /** Scanning a prefix that reaches beyond the first line. */
  lemma ScanPrefix(open: Option<Fence>, text: string, k: nat)
    requires text != "" && FirstLine(text) <= k <= |text|
    ensures var n := FirstLine(text); Scan(open, text[..k]) == Scan(Step(open, text[..n]), text[n..][..k - n])
  {
    var n := FirstLine(text);
    FirstLineOfPrefix(text, k);
    assert text[..k][..n] == text[..n] && text[..k][n..] == text[n..][..k - n];
  }

  /** Scanning after text was appended to a text of several lines. */
  lemma ScanLonger(open: Option<Fence>, text: string, more: string)
    requires text != "" && FirstLine(text) < |text|
    ensures var n := FirstLine(text); Scan(open, text + more) == Scan(Step(open, text[..n]), text[n..] + more)
  {
    var n, longer := FirstLine(text), text + more;
    assert longer[..|text|] == text;
    FirstLineOfPrefix(longer, |text|);
    assert longer[..n] == text[..n] && longer[n..] == text[n..] + more;
  }

  /* ---- the fence of a slightly shorter prefix ---- */

  lemma StepOfPrefix(open: Option<Fence>, line: string, q: nat)
    requires q <= |line| && Step(open, line).Some?
    ensures var before, after := Step(open, line[..q]), Step(open, line).value;
      before.Some? ==> before.value.marker == after.marker && before.value.length <= after.length
  {
    StrippingIsIrrelevant(line);
    StrippingIsIrrelevant(line[..q]);
    FenceOfPrefix(line, q);
  }

  /** Opening a fence takes at least as many characters as its marker has. */
  lemma {:induction false} OpeningTakesRoom(open: Option<Fence>, text: string)
    requires Scan(open, text).Some? && open != Scan(open, text)
    ensures var f := Scan(open, text).value;
      |text| >= f.length && (|text| == f.length ==> open.None?)
    decreases |text|
  {
    var n := FirstLine(text);
    var next := Step(open, text[..n]);
    if next == Scan(open, text) {
      StrippingIsIrrelevant(text[..n]);
    } else {
      OpeningTakesRoom(next, text[n..]);
    }
  }

  /** Shortening a text by at most the closing fence leaves open the same kind of fence, no
      longer than before, or none. */
  lemma {:induction false} FenceShrinks(open: Option<Fence>, text: string, q: nat)
    requires Scan(open, text).Some?
    requires |text| - Scan(open, text).value.length - 1 <= q <= |text|
    ensures var before, after := Scan(open, text[..q]), Scan(open, text).value;
      before.Some? ==> before.value.marker == after.marker && before.value.length <= after.length
    decreases |text|
  {
    if text != "" {
      var n := FirstLine(text);
      var line, rest := text[..n], text[n..];
      if q >= n {
        ScanPrefix(open, text, q);
        FenceShrinks(Step(open, line), rest, q - n);
      } else {
        FirstLineShape(text);
        FenceShrinksInLine(open, line, rest, q);
        ScanWithinLine(open, text, q);
      }
    }
  }

  lemma ScanWithinLine(open: Option<Fence>, text: string, q: nat)
    requires text != "" && q < FirstLine(text)
    ensures Scan(open, text[..q]) == Step(open, text[..FirstLine(text)][..q])
  {
    if q > 0 {
      FirstLineOfPrefix(text, q);
    }
    ScanLine(open, text[..q]);
    assert text[..q] == text[..FirstLine(text)][..q];
  }

  lemma FenceShrinksInLine(open: Option<Fence>, line: string, rest: string, q: nat)
    requires q < |line| && (rest != "" ==> IsBreak(line[|line| - 1]))
    requires var after := Scan(Step(open, line), rest);
      after.Some? && |line| + |rest| <= q + after.value.length + 1
    ensures var before, after := Step(open, line[..q]), Scan(Step(open, line), rest).value;
      before.Some? ==> before.value.marker == after.marker && before.value.length <= after.length
  {
    var next := Step(open, line);
    if next == Scan(next, rest) {
      StepOfPrefix(open, line, q);
    } else {
      assert rest != "";
      OpeningTakesRoom(next, rest);
      assert q == |line| - 1 && next.None?;
      StepWithoutBreak(open, line);
    }
  }

  lemma StepWithoutBreak(open: Option<Fence>, line: string)
    requires line != "" && IsBreak(line[|line| - 1])
    ensures Step(open, line[..|line| - 1]) == Step(open, line)
  {
    assert line == line[..|line| - 1] + [line[|line| - 1]];
    StepIgnoresBreak(open, line[..|line| - 1], line[|line| - 1]);
  }

  /** A truncated body never exceeds the limit. */
  lemma TruncationFits(text: string, limit: nat)
    ensures |TruncateMarkdown(text, limit)| <= limit
  {
    if 3 < limit < |text| {
      var prefix := text[..limit - 3];
      var open := Unclosed(prefix);
      if open.Some? {
        var contentLimit := limit - 3 - |ClosingFence(open.value)|;
        if contentLimit > 0 {
          assert text[..contentLimit] == prefix[..contentLimit];
          FenceShrinks(None, prefix, contentLimit);
        }
      }
    }
  }

  /* ---- what is open after truncation ---- */

  predicate Shuts(open: Option<Fence>, line: string) {
    open.Some? && ClosesFence(line, open.value)
  }

  predicate LineShuts(open: Option<Fence>, line: string) {
    line != "" && !IsBreak(line[|line| - 1]) && Shuts(open, line)
  }

  /** The last line has no line break and closes the fence that the text before it leaves open. */
  predicate EndsInClosingLine(open: Option<Fence>, text: string)
    requires text != ""
  {
    LineShuts(Scan(open, text[..LastLineStart(text)]), LastLine(text))
  }

  lemma EllipsisOpensNothing(open: Option<Fence>)
    ensures Step(open, ELLIPSIS) == open && FirstLine(ELLIPSIS) == 3
  {
    StrippingIsIrrelevant(ELLIPSIS);
    FirstLineOfUnbroken(ELLIPSIS);
  }

  /** Appending text that starts with an ordinary character spoils a closing line and changes
      nothing else. */
  lemma StepExtends(open: Option<Fence>, line: string, more: string)
    requires more != "" && !IsSpace(more[0]) && !IsMarker(more[0])
    ensures Step(open, line + more) == if Shuts(open, line) then open else Step(open, line)
  {
    MatchFenceExtends(line, more);
    StrippingIsIrrelevant(line);
    StrippingIsIrrelevant(line + more);
    if MatchFence(line).Some? {
      BlankExtends(MatchFence(line).value.1, more);
    }
  }

  /** Appending the ellipsis spoils a closing line without a break, and changes nothing else. */
  lemma {:induction false} EllipsisScan(open: Option<Fence>, text: string)
    requires text != ""
    ensures if EndsInClosingLine(open, text) then Scan(open, text).None? && Scan(open, text + ELLIPSIS).Some?
            else Scan(open, text + ELLIPSIS) == Scan(open, text)
    decreases |text|
  {
    var n := FirstLine(text);
    if n < |text| {
      ScanLonger(open, text, ELLIPSIS);
      ClosingLineIsLater(open, text);
      EllipsisScan(Step(open, text[..n]), text[n..]);
    } else {
      OnlyLineIsLast(open, text);
      ScanLine(open, text);
      EllipsisAfterLastLine(open, text);
    }
  }

  lemma ClosingLineIsLater(open: Option<Fence>, text: string)
    requires text != "" && FirstLine(text) < |text|
    ensures var n := FirstLine(text);
      EndsInClosingLine(open, text) == EndsInClosingLine(Step(open, text[..n]), text[n..])
  {
    LastLineIsLater(text);
    ScanBeforeLast(open, text);
  }

  lemma ScanBeforeLast(open: Option<Fence>, text: string)
    requires text != "" && FirstLine(text) < |text|
    ensures var n := FirstLine(text);
      Scan(open, text[..LastLineStart(text)]) == Scan(Step(open, text[..n]), text[n..][..LastLineStart(text[n..])])
  {
    ScanPrefix(open, text, LastLineStart(text));
  }

  lemma OnlyLineIsLast(open: Option<Fence>, text: string)
    requires text != "" && FirstLine(text) == |text|
    ensures EndsInClosingLine(open, text) == (!IsBreak(text[|text| - 1]) && Shuts(open, text))
  {
    LastLineIsLater(text);
    assert text[..0] == "";
  }

  lemma EllipsisAfterLastLine(open: Option<Fence>, text: string)
    requires text != "" && FirstLine(text) == |text|
    ensures Scan(open, text + ELLIPSIS) ==
      if !IsBreak(text[|text| - 1]) && Shuts(open, text) then open else Step(open, text)
  {
    if IsBreak(text[|text| - 1]) {
      FirstLineOfConcat(text, ELLIPSIS);
      EllipsisOpensNothing(Step(open, text));
      ScanTwoLines(open, text, ELLIPSIS);
    } else {
      StepExtends(open, text, ELLIPSIS);
      UnbrokenUnlessEnded(text);
      EllipsisOpensNothing(open);
      FirstLineExtends(text, ELLIPSIS);
      ScanLine(open, text + ELLIPSIS);
    }
  }

  predicate IsFence(f: Fence) {
    IsMarker(f.marker) && f.length >= 3
  }

  lemma {:induction false} ScanFindsFences(open: Option<Fence>, text: string)
    requires open.Some? ==> IsFence(open.value)
    ensures Scan(open, text).Some? ==> IsFence(Scan(open, text).value)
    decreases |text|
  {
    if text != "" {
      ScanFindsFences(Step(open, text[..FirstLine(text)]), text[FirstLine(text)..]);
    }
  }

  lemma MarkerLineCloses(f: Fence)
    requires IsFence(f)
    ensures Step(Some(f), Repeat(f.marker, f.length)) == None
    ensures FirstLine(Repeat(f.marker, f.length)) == f.length
  {
    var line := Repeat(f.marker, f.length);
    StrippingIsIrrelevant(line);
    FirstLineOfUnbroken(line);
    assert line[0] == f.marker && line[0..] == line;
    assert Run(line, ' ') == 0;
    assert Run(line, f.marker) == |line|;
    assert MatchFence(line) == Some((f, line[f.length..]));
  }

  /** The appended closing fence closes whatever fence is open. */
  lemma {:induction false} ClosingFenceCloses(open: Option<Fence>, text: string, f: Fence)
    requires text != "" && !IsBreak(text[|text| - 1]) && IsFence(f) && Scan(open, text) == Some(f)
    ensures Scan(open, text + ClosingFence(f)) == None
    decreases |text|
  {
    var n := FirstLine(text);
    if n < |text| {
      ScanLonger(open, text, ClosingFence(f));
      ClosingFenceCloses(Step(open, text[..n]), text[n..], f);
    } else {
      ClosingFenceOnLine(open, text, f);
    }
  }

  lemma ClosingFenceOnLine(open: Option<Fence>, line: string, f: Fence)
    requires line != "" && FirstLine(line) == |line| && !IsBreak(line[|line| - 1])
    requires IsFence(f) && Scan(open, line) == Some(f)
    ensures Scan(open, line + ClosingFence(f)) == None
  {
    var mark := Repeat(f.marker, f.length);
    assert Step(open, line + ['\n']) == Some(f) by {
      ScanLine(open, line);
      StepIgnoresBreak(open, line, '\n');
    }
    MarkerLineCloses(f);
    UnbrokenUnlessEnded(line);
    FirstLineExtends(line, ClosingFence(f));
    assert line + ClosingFence(f) == (line + ['\n']) + mark;
    ScanTwoLines(open, line + ['\n'], mark);
  }

  /** The prefix that truncation keeps, where it has room for the closing fence it may need. */
  function Kept(text: string, limit: nat): Option<string>
    requires 3 < limit < |text|
  {
    var open := Unclosed(text[..limit - 3]);
    if open.None? then Some(text[..limit - 3])
    else
      var contentLimit := limit - 3 - |ClosingFence(open.value)|;
      if contentLimit <= 0 then None else Some(text[..contentLimit])
  }

  lemma TruncationExtendsKept(text: string, limit: nat)
    requires 3 < limit < |text| && Kept(text, limit).Some?
    ensures Kept(text, limit).value != "" && TruncateMarkdown(text, limit) == Finish(Kept(text, limit).value)
  {
    var prefix := text[..limit - 3];
    if Unclosed(prefix).None? {
      assert Kept(text, limit).value == prefix;
    } else {
      var contentLimit := limit - 3 - |ClosingFence(Unclosed(prefix).value)|;
      assert Kept(text, limit).value == text[..contentLimit];
    }
  }

  /** After truncation a fence is open exactly when the kept prefix ends in a closing line without
      a line break; where a closing fence was appended, none is. */
  lemma TruncationLeavesOpen(text: string, limit: nat)
    requires 3 < limit < |text| && Kept(text, limit).Some?
    ensures Unclosed(TruncateMarkdown(text, limit)).Some? <==> EndsInClosingLine(None, Kept(text, limit).value)
    ensures Unclosed(Kept(text, limit).value).Some? ==> Unclosed(TruncateMarkdown(text, limit)).None?
  {
    var kept := Kept(text, limit).value;
    TruncationExtendsKept(text, limit);
    EllipsisScan(None, kept);
    var open := Unclosed(kept);
    if open.Some? {
      ScanFindsFences(None, kept);
      ClosingFenceCloses(None, kept + ELLIPSIS, open.value);
    }
  }

  /* ---- what truncation keeps ---- */

  /** What follows a kept prefix: the ellipsis, and perhaps a line of fence characters. */
  predicate IsTail(tail: string, marker: char, most: nat) {
    || tail == "..."
    || (7 <= |tail| <= 4 + most && tail[..4] == "...\n" && forall i :: 4 <= i < |tail| ==> tail[i] == marker)
  }

  /** A text that fits is returned as it is. One that does not is cut to `limit` characters when there is no room for
      the ellipsis or for the line that closes the fence open at the cut, and else before the ellipsis. */
  lemma TruncationKeeps(text: string, limit: nat)
    ensures |text| <= limit ==> TruncateMarkdown(text, limit) == text
    ensures limit < |text| && limit <= 3 ==> TruncateMarkdown(text, limit) == text[..limit]
    ensures 3 < limit < |text| ==>
      var open := Unclosed(text[..limit - 3]);
      && (open.None? ==> TruncateMarkdown(text, limit) == text[..limit - 3] + "...")
      && (open.Some? && open.value.length + 4 >= limit ==> TruncateMarkdown(text, limit) == text[..limit])
  {
  }

  /** With a fence open at the cut and room to close it, the text is cut that much earlier; the ellipsis follows and, if
      a fence is still open there, a line of its marker, no longer than the one room was left for. */
  lemma TruncationLeavesRoom(text: string, limit: nat)
    requires 3 < limit < |text| && Unclosed(text[..limit - 3]).Some?
    requires Unclosed(text[..limit - 3]).value.length + 4 < limit
    ensures var f := Unclosed(text[..limit - 3]).value;
      EndsCut(TruncateMarkdown(text, limit), text[..limit - 4 - f.length], f)
  {
    var f := Unclosed(text[..limit - 3]).value;
    var k := limit - 4 - f.length;
    RoomIsLeft(text, limit, k);
    ShorterPrefixFits(text, limit - 3, k);
    FinishAddsTail(text[..k], f);
  }

  predicate EndsCut(r: string, kept: string, f: Fence) {
    kept <= r && IsTail(r[|kept|..], f.marker, f.length)
  }

  lemma RoomIsLeft(text: string, limit: nat, k: nat)
    requires 3 < limit < |text| && Unclosed(text[..limit - 3]).Some?
    requires 0 < k == limit - 4 - Unclosed(text[..limit - 3]).value.length
    ensures TruncateMarkdown(text, limit) == Finish(text[..k])
  {
  }

  /** The fence open after the shorter prefix has the same marker and is no longer. */
  lemma ShorterPrefixFits(text: string, n: nat, k: nat)
    requires k <= n <= |text| && Unclosed(text[..n]).Some? && k == n - Unclosed(text[..n]).value.length - 1
    ensures var after, before := Unclosed(text[..k]), Unclosed(text[..n]).value;
      after.Some? ==> after.value.marker == before.marker && 3 <= after.value.length <= before.length
  {
    PrefixOfPrefix(text, n, k);
    FenceShrinks(None, text[..n], k);
    ScanFindsFences(None, text[..k]);
  }

  lemma FinishAddsTail(kept: string, f: Fence)
    requires var open := Unclosed(kept);
      open.Some? ==> open.value.marker == f.marker && 3 <= open.value.length <= f.length
    ensures EndsCut(Finish(kept), kept, f)
  {
    var open := Unclosed(kept);
    if open.None? {
      assert Finish(kept)[|kept|..] == "...";
    } else {
      var tail := "..." + ClosingFence(open.value);
      assert Finish(kept) == kept + tail;
      assert Finish(kept)[|kept|..] == tail && tail[..4] == "...\n";
    }
  }

  /* ---- what a fence line is ---- */

  /** A fence line: at most three spaces, three or more backticks or tildes, and the rest. */
  predicate IsFenceLine(text: string, f: Fence, rest: string) {
    var indent := |text| - |rest| - f.length;
    && 0 <= indent <= 3 && (f.marker == '`' || f.marker == '~') && f.length >= 3
    && (forall i :: 0 <= i < indent ==> text[i] == ' ')
    && (forall i :: indent <= i < indent + f.length ==> text[i] == f.marker)
    && text[indent + f.length..] == rest && (rest == "" || rest[0] != f.marker)
  }

  lemma RunIs(s: string, c: char, n: nat)
    requires n <= |s| && (forall i :: 0 <= i < n ==> s[i] == c) && (n == |s| || s[n] != c)
    ensures Run(s, c) == n
  {
  }

  lemma FenceLineMatches(text: string, f: Fence, rest: string)
    requires IsFenceLine(text, f, rest)
    ensures MatchFence(text) == Some((f, rest))
  {
    var indent := |text| - |rest| - f.length;
    var body := text[indent..];
    assert text[indent] == f.marker;
    RunIs(text, ' ', indent);
    assert forall i :: 0 <= i < f.length ==> body[i] == text[indent + i];
    assert rest != "" ==> body[f.length] == rest[0];
    RunIs(body, f.marker, f.length);
  }

  lemma MatchIsFenceLine(text: string)
    requires MatchFence(text).Some?
    ensures IsFenceLine(text, MatchFence(text).value.0, MatchFence(text).value.1)
  {
    var i := Run(text, ' ');
    var body := text[i..];
    var n := Run(body, text[i]);
    assert forall k :: i <= k < i + n ==> text[k] == body[k - i];
    assert i + n < |text| ==> text[i + n] == body[n];
  }

  /** The pattern matches exactly the fence lines, and tells their marker and what follows it. */
  lemma FenceLinesAreRecognised(text: string, f: Fence, rest: string)
    ensures MatchFence(text) == Some((f, rest)) <==> IsFenceLine(text, f, rest)
  {
    if MatchFence(text) == Some((f, rest)) {
      MatchIsFenceLine(text);
    }
    if IsFenceLine(text, f, rest) {
      FenceLineMatches(text, f, rest);
    }
  }

  /** The line without the carriage returns and line feeds at its end. */
  lemma {:induction false} LineEndIsStripped(line: string)
    ensures var core := StripLineEnd(line);
      && core <= line && (core == "" || (core[|core| - 1] != '\r' && core[|core| - 1] != '\n'))
      && forall i :: |core| <= i < |line| ==> line[i] == '\r' || line[i] == '\n'
  {
    if line != "" && (line[|line| - 1] == '\r' || line[|line| - 1] == '\n') {
      LineEndIsStripped(line[..|line| - 1]);
    }
  }

  /** A line opens a fence exactly when it is a fence line. */
  lemma FenceLinesOpen(line: string, f: Fence)
    ensures Step(None, line) == Some(f) <==> exists rest :: IsFenceLine(StripLineEnd(line), f, rest)
  {
    var core := StripLineEnd(line);
    if MatchFence(core).Some? {
      FenceLinesAreRecognised(core, MatchFence(core).value.0, MatchFence(core).value.1);
    }
    forall rest ensures IsFenceLine(core, f, rest) <==> MatchFence(core) == Some((f, rest)) {
      FenceLinesAreRecognised(core, f, rest);
    }
  }

  predicate ClosesWith(core: string, open: Fence, f: Fence, rest: string) {
    IsFenceLine(core, f, rest) && f.marker == open.marker && f.length >= open.length && IsBlank(rest)
  }

  /** A line closes an open fence exactly when it is a fence line of the same marker, at least as long, with nothing
      but white space after it; any other line leaves the fence as it is. */
  lemma FenceLinesClose(line: string, open: Fence)
    ensures Step(Some(open), line).None? ==> exists f, rest :: ClosesWith(StripLineEnd(line), open, f, rest)
    ensures forall f, rest :: ClosesWith(StripLineEnd(line), open, f, rest) ==> Step(Some(open), line).None?
    ensures Step(Some(open), line).Some? ==> Step(Some(open), line) == Some(open)
  {
    var core := StripLineEnd(line);
    if ClosesFence(line, open) {
      var m := MatchFence(core).value;
      FenceLinesAreRecognised(core, m.0, m.1);
      assert ClosesWith(core, open, m.0, m.1);
    }
    forall f, rest | ClosesWith(core, open, f, rest) ensures Step(Some(open), line).None? {
      FenceLinesAreRecognised(core, f, rest);
      assert MatchFence(core).value.0 == f && MatchFence(core).value.1 == rest;
    }
  }

  lemma BackticksMatch(more: string)
    requires more == "" || more[0] != '`'
    ensures MatchFence("```" + more) == Some((Fence('`', 3), more))
  {
    var t := "```" + more;
    assert Run(t, ' ') == 0 && t[0..] == t;
    assert t[0] == '`' && t[1] == '`' && t[2] == '`' && (more != "" ==> t[3] == more[0]);
    assert Run(t, '`') == 3;
    assert t[3..] == more;
  }

  const OPENING := "```\n"
  const CLOSING := "```"

  lemma BlockSteps()
    ensures var open := Some(Fence('`', 3));
      Step(None, OPENING) == open && Step(open, CLOSING) == None && Step(open, CLOSING + ELLIPSIS) == open
  {
    BackticksMatch("");
    BackticksMatch(ELLIPSIS);
    assert CLOSING + "" == CLOSING && StripLineEnd(CLOSING) == CLOSING;
    assert OPENING[..3] == CLOSING && StripLineEnd(OPENING) == CLOSING;
    var last := CLOSING + ELLIPSIS;
    assert last[5] == '.' && StripLineEnd(last) == last;
    assert ELLIPSIS[0] == '.' && !IsSpace('.');
  }

  lemma BlockScan(first: string, second: string)
    requires first != "" && FirstLine(first) == |first| && first[|first| - 1] == '\n'
    requires second != "" && NoBreaks(second)
    ensures Unclosed(first + second) == Step(Step(None, first), second)
  {
    FirstLineOfConcat(first, second);
    FirstLineOfUnbroken(second);
    ScanTwoLines(None, first, second);
  }

  lemma BlankLineOpensNothing()
    ensures Step(None, "\n").None?
  {
    assert StripLineEnd("\n") == "";
  }

  /** Blank lines in front of a text leave its fences as they are. */
  lemma {:induction false} BlankLinesScan(n: nat, text: string)
    ensures Unclosed(Repeat('\n', n) + text) == Unclosed(text)
  {
    if n == 0 {
      assert Repeat('\n', 0) + text == text;
    } else {
      var padded, rest := Repeat('\n', n) + text, Repeat('\n', n - 1) + text;
      assert padded[..1] == "\n" && padded[1..] == rest;
      BlankLineOpensNothing();
      BlankLinesScan(n - 1, text);
    }
  }

  /** The failing family reaches every limit with room for a block: cut right after its closing fence, a
      closed block is reopened by the ellipsis. */
  lemma TruncationMayReopen(limit: nat, tail: string)
    requires 10 <= limit && 3 < |tail|
    ensures var kept := Repeat('\n', limit - 10) + (OPENING + CLOSING);
      && Kept(kept + tail, limit) == Some(kept) && Unclosed(kept).None?
      && Unclosed(TruncateMarkdown(kept + tail, limit)) == Some(Fence('`', 3))
  {
    var pad, block := Repeat('\n', limit - 10), OPENING + CLOSING;
    var kept := pad + block;
    ClosedBlock();
    BlankLinesScan(limit - 10, block);
    BlankLinesScan(limit - 10, OPENING + (CLOSING + ELLIPSIS));
    CutAt(kept, tail, limit);
    Regroup(pad, OPENING, CLOSING, ELLIPSIS);
  }

  lemma ClosedBlock()
    ensures Unclosed(OPENING + CLOSING).None?
    ensures Unclosed(OPENING + (CLOSING + ELLIPSIS)) == Some(Fence('`', 3))
  {
    BlockSteps();
    FirstLineOfUnbroken(OPENING);
    BlockScan(OPENING, CLOSING);
    BlockScan(OPENING, CLOSING + ELLIPSIS);
  }

  lemma Regroup(a: string, b: string, c: string, d: string)
    ensures a + (b + c) + d == a + (b + (c + d))
  {
  }

  /** A closed text that just fits before the ellipsis is kept whole. */
  lemma CutAt(kept: string, tail: string, limit: nat)
    requires |kept| + 3 == limit && kept != "" && 3 < |tail| && Unclosed(kept).None?
    ensures Kept(kept + tail, limit) == Some(kept)
    ensures TruncateMarkdown(kept + tail, limit) == kept + ELLIPSIS
  {
    assert (kept + tail)[..|kept|] == kept;
  }
}
