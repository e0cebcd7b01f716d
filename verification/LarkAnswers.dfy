/** Reading a Lark reply as answers to the questions of a user-input request (`_parse_answers`).

    The reply arrives without the mention of the bot. Only ASCII digits count as digits. */
module LarkAnswers {
  import opened CodexModel
  import opened TextLines
  import opened InteractionCodec
  import RequestIds

  /* ---- text ---- */

  function StripLeft(s: string): string {
    if s != "" && IsSpace(s[0]) then StripLeft(s[1..]) else s
  }

  function StripRight(s: string): string {
    if s != "" && IsSpace(s[|s| - 1]) then StripRight(s[..|s| - 1]) else s
  }

  function Strip(s: string): string {
    StripRight(StripLeft(s))
  }

  /** Position of the first colon, or the length. */
  function Colon(s: string): (n: nat)
    ensures n <= |s|
    ensures n < |s| ==> s[n] == ':'
    ensures forall i :: 0 <= i < n ==> s[i] != ':'
  {
    if s == "" || s[0] == ':' then 0 else 1 + Colon(s[1..])
  }

  predicate IsDigits(s: string) {
    s != "" && forall i :: 0 <= i < |s| ==> '0' <= s[i] <= '9'
  }

  /* ---- one line ---- */

  /** A question is named by its position, or else by its id. */
  function NamedQuestion(key: string, ids: seq<string>): Option<string> {
    if IsDigits(key) && 1 <= RequestIds.DecimalValue(key) <= |ids|
    then Some(ids[RequestIds.DecimalValue(key) - 1])
    else if key in ids then Some(key)
    else None
  }

  datatype Entry = Entry(question: string, answer: string)

  /** The line may still carry its line break: it is white space and is stripped with the answer. */
  function ReadLine(line: string, ids: seq<string>): Option<Entry> {
    var n := Colon(line);
    if n == |line| then None
    else
      var question, answer := NamedQuestion(Strip(line[..n]), ids), Strip(line[n + 1..]);
      if question.None? || answer == "" then None else Some(Entry(question.value, answer))
  }

  function ReadLines(lines: seq<string>, ids: seq<string>): (r: seq<Option<Entry>>)
    ensures |r| == |lines| && forall k :: 0 <= k < |r| ==> r[k] == ReadLine(lines[k], ids)
  {
    seq(|lines|, k requires 0 <= k < |lines| => ReadLine(lines[k], ids))
  }

  /* ---- the whole reply ---- */

  predicate SameQuestion(a: Option<Entry>, b: Option<Entry>) {
    a.Some? && b.Some? && a.value.question == b.value.question
  }

  predicate Recorded(reading: Option<Entry>, answers: map<string, string>) {
    reading.Some? && reading.value.question in answers && answers[reading.value.question] == reading.value.answer
  }

  function Questions(readings: seq<Option<Entry>>): set<string> {
    set k | 0 <= k < |readings| && readings[k].Some? :: readings[k].value.question
  }

  /** The readings of the lines are answers to distinct questions, and `answers` holds just these. */
  ghost predicate Collects(readings: seq<Option<Entry>>, answers: map<string, string>) {
    && answers.Keys == Questions(readings)
    && (forall k :: 0 <= k < |readings| ==> Recorded(readings[k], answers))
    && (forall j, k :: 0 <= j < k < |readings| ==> !SameQuestion(readings[j], readings[k]))
  }

  function Asked(ids: seq<string>): set<string> {
    set q | q in ids
  }

  /** A reply to one question is its answer; to several, one line for each question. */
  ghost predicate IsReply(text: string, ids: seq<string>, answers: map<string, string>) {
    && text != "" && ids != [] && answers.Keys == Asked(ids)
    && (|ids| == 1 ==> answers == map[ids[0] := text])
    && (|ids| > 1 ==> Collects(ReadLines(Lines(text), ids), answers))
  }

  /** The parser finds the answers a reply reads as, and refuses a text that reads as none. */
  method ParseAnswers(text: string, ids: seq<string>) returns (r: Option<map<string, string>>)
    ensures r.Some? ==> IsReply(text, ids, r.value)
    ensures r.None? ==> forall answers :: !IsReply(text, ids, answers)
  {
    if text == "" || ids == [] {
      return None;
    }
    if |ids| == 1 {
      return Some(map[ids[0] := text]);
    }
    var answers: map<string, string> := map[];
    var lines := Lines(text);
    ghost var readings := ReadLines(lines, ids);
    for k := 0 to |lines|
      invariant Collects(readings[..k], answers)
    {
      var entry := ReadLine(lines[k], ids);
      if entry.None? || entry.value.question in answers {
        CannotCollect(readings, k, answers);
        return None;
      }
      CollectsOneMore(readings, k, answers);
      answers := answers[entry.value.question := entry.value.answer];
    }
    assert readings[..|lines|] == readings;
    if answers.Keys == Asked(ids) {
      r := Some(answers);
    } else {
      forall other ensures !IsReply(text, ids, other) {
        if Collects(readings, other) {
          CollectionIsUnique(readings, answers, other);
        }
      }
      r := None;
    }
  }

  lemma CollectsOneMore(readings: seq<Option<Entry>>, k: nat, answers: map<string, string>)
    requires k < |readings| && Collects(readings[..k], answers)
    requires readings[k].Some? && readings[k].value.question !in answers
    ensures var e := readings[k].value; Collects(readings[..k + 1], answers[e.question := e.answer])
  {
    var e := readings[k].value;
    var more, all := readings[..k + 1], answers[e.question := e.answer];
    assert more == readings[..k] + [readings[k]];
    QuestionsOfOneMore(readings[..k], readings[k]);
    forall j | 0 <= j < k ensures Recorded(more[j], all) && !SameQuestion(more[j], more[k]) {
      assert more[j] == readings[..k][j];
      assert Recorded(more[j], answers);
    }
    forall i, j | 0 <= i < j < k ensures !SameQuestion(more[i], more[j]) {
      assert !SameQuestion(readings[..k][i], readings[..k][j]);
    }
  }

  lemma QuestionsOfOneMore(readings: seq<Option<Entry>>, last: Option<Entry>)
    requires last.Some?
    ensures Questions(readings + [last]) == Questions(readings) + {last.value.question}
  {
    var more := readings + [last];
    assert more[|readings|] == last;
    forall q | q in Questions(readings) ensures q in Questions(more) {
      var k :| 0 <= k < |readings| && readings[k].Some? && readings[k].value.question == q;
      assert more[k] == readings[k];
    }
  }

  lemma CannotCollect(readings: seq<Option<Entry>>, k: nat, answers: map<string, string>)
    requires k < |readings| && Collects(readings[..k], answers)
    requires readings[k].None? || readings[k].value.question in answers
    ensures forall other :: !Collects(readings, other)
  {
    if readings[k].Some? {
      var q := readings[k].value.question;
      assert q in Questions(readings[..k]);
      var j :| 0 <= j < k && readings[..k][j].Some? && readings[..k][j].value.question == q;
      assert SameQuestion(readings[j], readings[k]);
    } else {
      assert forall other :: !Recorded(readings[k], other);
    }
  }

  lemma CollectionIsUnique(readings: seq<Option<Entry>>, a: map<string, string>, b: map<string, string>)
    requires Collects(readings, a) && Collects(readings, b)
    ensures a == b
  {
    assert a.Keys == b.Keys;
    forall q | q in a ensures a[q] == b[q] {
      assert q in Questions(readings);
      var k :| 0 <= k < |readings| && readings[k].Some? && readings[k].value.question == q;
      assert Recorded(readings[k], a) && Recorded(readings[k], b);
    }
  }

  /** A text reads as at most one set of answers. */
  lemma ReplyIsUnique(text: string, ids: seq<string>, a: map<string, string>, b: map<string, string>)
    requires IsReply(text, ids, a) && IsReply(text, ids, b)
    ensures a == b
  {
    if |ids| > 1 {
      CollectionIsUnique(ReadLines(Lines(text), ids), a, b);
    }
  }

  /* ---- a reply is accepted by the response builder ---- */

  /** The ids offered to the parser; none when a question lacks one. */
  function QuestionIds(questions: seq<Json>): seq<string> {
    if forall i :: 0 <= i < |questions| ==> HasId(questions[i])
    then seq(|questions|, i requires 0 <= i < |questions| && HasId(questions[i]) => QuestionId(questions[i]))
    else []
  }

  /** Answers read from a reply are total on the questions, so a response is built from them exactly when
      no two questions share an id. */
  lemma RepliesAreAnswered(questions: seq<Json>, text: string, answers: map<string, string>)
    requires IsReply(text, QuestionIds(questions), answers)
    ensures UserInputAnswered(questions, answers).Ok? <==> HaveDistinctIds(questions)
    ensures forall i :: 0 <= i < |questions| ==> HasId(questions[i]) && QuestionId(questions[i]) in answers
  {
    AskedIdsAreTheirs(questions);
    forall i | 0 <= i < |questions| ensures QuestionId(questions[i]) in answers {
      assert QuestionId(questions[i]) in IdsOf(questions);
    }
  }

  lemma AskedIdsAreTheirs(questions: seq<Json>)
    requires QuestionIds(questions) != []
    ensures forall i :: 0 <= i < |questions| ==> HasId(questions[i])
    ensures IdsOf(questions) == Asked(QuestionIds(questions))
  {
    var ids := QuestionIds(questions);
    assert |ids| == |questions|;
    forall q ensures q in Asked(ids) <==> q in IdsOf(questions) {
      if q in Asked(ids) {
        var i :| 0 <= i < |ids| && ids[i] == q;
        assert QuestionId(questions[i]) == q;
      }
      if q in IdsOf(questions) {
        var i :| 0 <= i < |questions| && QuestionId(questions[i]) == q;
        assert ids[i] == q;
      }
    }
  }

  /* ---- what a line says ---- */

  /** From `from` to `to` the text has no white space at its ends; before and after that it has nothing else. */
  predicate IsCore(s: string, from: nat, to: nat) {
    && from <= to <= |s| && (forall i :: 0 <= i < from ==> IsSpace(s[i])) && (forall i :: to <= i < |s| ==> IsSpace(s[i]))
    && (from < to ==> !IsSpace(s[from]) && !IsSpace(s[to - 1]))
  }

  lemma {:induction false} StripLeftIs(s: string)
    ensures var n := |s| - |StripLeft(s)|;
      n >= 0 && StripLeft(s) == s[n..] && (forall i :: 0 <= i < n ==> IsSpace(s[i])) && (n < |s| ==> !IsSpace(s[n]))
  {
    if s != "" && IsSpace(s[0]) {
      var t := s[1..];
      StripLeftIs(t);
      SuffixOfSuffix(s, 1, |t| - |StripLeft(t)|);
      forall i | 0 < i <= |t| - |StripLeft(t)| ensures IsSpace(s[i]) {
        assert t[i - 1] == s[i];
      }
    }
  }

  lemma {:induction false} StripRightIs(s: string)
    ensures var n := |StripRight(s)|;
      n <= |s| && StripRight(s) == s[..n] && (forall i :: n <= i < |s| ==> IsSpace(s[i])) && (n > 0 ==> !IsSpace(s[n - 1]))
  {
    if s != "" && IsSpace(s[|s| - 1]) {
      var t := s[..|s| - 1];
      StripRightIs(t);
      PrefixOfPrefix(s, |s| - 1, |StripRight(t)|);
      forall i | |StripRight(t)| <= i < |s| - 1 ensures IsSpace(s[i]) {
        assert t[i] == s[i];
      }
    }
  }

  /** Stripping takes away the white space at both ends, all of it and nothing else. */
  lemma StripLeavesTheCore(s: string)
    ensures var from := |s| - |StripLeft(s)|;
      && from >= 0 && IsCore(s, from, from + |Strip(s)|) && Strip(s) == s[from..from + |Strip(s)|]
  {
    var t := StripLeft(s);
    var from, n := |s| - |t|, |Strip(s)|;
    StripLeftIs(s);
    StripRightIs(t);
    assert forall i :: 0 <= i < |t| ==> t[i] == s[from + i];
    forall i | from + n <= i < |s| ensures IsSpace(s[i]) {
      assert s[i] == t[i - from];
    }
  }

  predicate IsNumberIn(key: string, ids: seq<string>) {
    IsDigits(key) && 1 <= RequestIds.DecimalValue(key) <= |ids|
  }

  /** Exactly the numbers from 1 on and the ids name a question, and always one that was asked. */
  lemma NamedQuestionsWereAsked(key: string, ids: seq<string>)
    ensures NamedQuestion(key, ids).Some? <==> IsNumberIn(key, ids) || key in ids
    ensures NamedQuestion(key, ids).Some? ==> NamedQuestion(key, ids).value in ids
  {
  }

  /** An id names its own question unless it reads as the number of another one. */
  lemma IdsNameTheirQuestions(id: string, ids: seq<string>)
    requires id in ids
    ensures NamedQuestion(id, ids) == Some(id) <==>
      (IsNumberIn(id, ids) ==> ids[RequestIds.DecimalValue(id) - 1] == id)
  {
  }

  /** A line gives the answer after its first colon to the question named before it; without a colon, a known name and an
      answer it is refused. */
  lemma LinesAreReadAtTheColon(line: string, ids: seq<string>, n: nat, e: Entry)
    requires n < |line| && line[n] == ':' && NoColon(line[..n])
    ensures ReadLine(line, ids) == Some(e) <==>
      NamedQuestion(Strip(line[..n]), ids) == Some(e.question) && e.answer == Strip(line[n + 1..]) && e.answer != ""
  {
    assert forall i :: 0 <= i < n ==> line[..n][i] == line[i];
    assert Colon(line) == n;
  }

  lemma LinesWithoutColonAreRefused(line: string, ids: seq<string>)
    requires NoColon(line)
    ensures ReadLine(line, ids).None?
  {
  }

  /* ---- round trip ---- */

  /** One line of a reply: a name for a question, and the answer to it. */
  datatype Line = Line(key: string, question: string, answer: string)

  predicate IsTrimmed(s: string) {
    s != "" && !IsSpace(s[0]) && !IsSpace(s[|s| - 1])
  }

  predicate NoColon(s: string) {
    forall i :: 0 <= i < |s| ==> s[i] != ':'
  }

  predicate IsWellFormed(line: Line, ids: seq<string>) {
    && NamedQuestion(line.key, ids) == Some(line.question)
    && IsTrimmed(line.key) && NoBreaks(line.key) && NoColon(line.key)
    && IsTrimmed(line.answer) && NoBreaks(line.answer)
  }

  function LineText(line: Line): string {
    line.key + ([':', ' '] + line.answer)
  }

  function ReplyText(lines: seq<Line>): string {
    if lines == [] then ""
    else if |lines| == 1 then LineText(lines[0])
    else LineText(lines[0]) + ("\n" + ReplyText(lines[1..]))
  }

  lemma {:induction false} StripRightOfTrimmed(s: string, end: string)
    requires IsTrimmed(s) && IsBlank(end)
    ensures StripRight(s + end) == s
    decreases end
  {
    if end == "" {
      assert s + end == s;
    } else {
      var shorter := end[..|end| - 1];
      assert (s + end)[..|s + end| - 1] == s + shorter;
      StripRightOfTrimmed(s, shorter);
    }
  }

  lemma StripOfTrimmed(s: string, end: string)
    requires IsTrimmed(s) && IsBlank(end)
    ensures Strip(s + end) == s && Strip([' '] + (s + end)) == s
  {
    StripRightOfTrimmed(s, end);
    assert ([' '] + (s + end))[1..] == s + end;
  }

  lemma ColonAfterKey(key: string, rest: string)
    requires NoColon(key)
    ensures Colon(key + ([':'] + rest)) == |key|
  {
    var s := key + ([':'] + rest);
    assert s[|key|] == ':';
    assert forall i :: 0 <= i < |key| ==> s[i] == key[i];
  }

  lemma LineReadsBack(line: Line, ids: seq<string>, end: string)
    requires IsWellFormed(line, ids) && IsBlank(end)
    ensures ReadLine(LineText(line) + end, ids) == Some(Entry(line.question, line.answer))
  {
    var text := LineText(line) + end;
    var rest := [' '] + (line.answer + end);
    assert text == line.key + ([':'] + rest);
    ColonAfterKey(line.key, rest);
    assert text[..|line.key|] == line.key + "" && text[|line.key| + 1..] == rest;
    StripOfTrimmed(line.key, "");
    StripOfTrimmed(line.answer, end);
  }

  function Ended(lines: seq<Line>, k: nat): string
    requires k < |lines|
  {
    LineText(lines[k]) + if k < |lines| - 1 then "\n" else ""
  }

  lemma FirstLineOfReply(head: string, tail: string)
    requires NoBreaks(head)
    ensures Lines(head + ("\n" + tail)) == [head + "\n"] + Lines(tail)
  {
    FirstLineExtends(head, "\n" + tail);
    var text := head + ("\n" + tail);
    assert text[..|head| + 1] == head + "\n" && text[|head| + 1..] == tail;
  }

  lemma OnlyLineOfReply(head: string)
    requires NoBreaks(head) && head != ""
    ensures Lines(head) == [head]
  {
    FirstLineOfUnbroken(head);
    assert head[..|head|] == head && head[|head|..] == "";
  }

  lemma {:induction false} LinesOfReply(lines: seq<Line>)
    requires forall k :: 0 <= k < |lines| ==> NoBreaks(LineText(lines[k]))
    ensures |Lines(ReplyText(lines))| == |lines|
    ensures forall k :: 0 <= k < |lines| ==> Lines(ReplyText(lines))[k] == Ended(lines, k)
  {
    if |lines| == 1 {
      OnlyLineOfReply(LineText(lines[0]));
      assert LineText(lines[0]) + "" == LineText(lines[0]);
    } else if |lines| > 1 {
      var rest := lines[1..];
      LinesOfReply(rest);
      FirstLineOfReply(LineText(lines[0]), ReplyText(rest));
      forall k | 1 <= k < |lines| ensures Lines(ReplyText(lines))[k] == Ended(lines, k) {
        assert rest[k - 1] == lines[k];
        assert Ended(rest, k - 1) == Ended(lines, k);
      }
    }
  }

  /** The questions that the lines answer. */
  function Named(lines: seq<Line>): set<string> {
    set k | 0 <= k < |lines| :: lines[k].question
  }

  /** Any list of well-formed lines, one for each question and in any order, is a reply that reads as
      exactly their answers. */
  lemma ReplyReadsBack(lines: seq<Line>, ids: seq<string>, answers: map<string, string>)
    requires |ids| > 1 && answers.Keys == Asked(ids) == Named(lines)
    requires forall k :: 0 <= k < |lines| ==> IsWellFormed(lines[k], ids) && AnsweredIn(lines[k], answers)
    requires forall j, k :: 0 <= j < k < |lines| ==> lines[j].question != lines[k].question
    ensures IsReply(ReplyText(lines), ids, answers)
  {
    ReadingsOfReply(lines, ids);
    EntriesCollect(lines, ReadLines(Lines(ReplyText(lines)), ids), answers);
    assert ids[0] in Asked(ids);
    assert IsWellFormed(lines[0], ids);
    assert LineText(lines[0]) != "";
  }

  lemma EntriesCollect(lines: seq<Line>, readings: seq<Option<Entry>>, answers: map<string, string>)
    requires answers.Keys == Named(lines)
    requires forall k :: 0 <= k < |lines| ==> AnsweredIn(lines[k], answers)
    requires forall j, k :: 0 <= j < k < |lines| ==> lines[j].question != lines[k].question
    requires |readings| == |lines|
    requires forall k :: 0 <= k < |lines| ==> readings[k] == Some(Entry(lines[k].question, lines[k].answer))
    ensures Collects(readings, answers)
  {
    assert Questions(readings) == answers.Keys by {
      forall k | 0 <= k < |lines| ensures lines[k].question in Questions(readings) {
        assert readings[k].Some? && readings[k].value.question == lines[k].question;
      }
    }
    forall k | 0 <= k < |readings| ensures Recorded(readings[k], answers) {
      assert AnsweredIn(lines[k], answers);
    }
  }

  predicate AnsweredIn(line: Line, answers: map<string, string>) {
    line.question in answers && answers[line.question] == line.answer
  }

  lemma ReadingsOfReply(lines: seq<Line>, ids: seq<string>)
    requires forall k :: 0 <= k < |lines| ==> IsWellFormed(lines[k], ids)
    ensures var readings := ReadLines(Lines(ReplyText(lines)), ids);
      |readings| == |lines|
      && forall k :: 0 <= k < |lines| ==> readings[k] == Some(Entry(lines[k].question, lines[k].answer))
  {
    forall k | 0 <= k < |lines| ensures NoBreaks(LineText(lines[k])) {
      assert IsWellFormed(lines[k], ids);
    }
    LinesOfReply(lines);
    forall k | 0 <= k < |lines|
      ensures ReadLines(Lines(ReplyText(lines)), ids)[k] == Some(Entry(lines[k].question, lines[k].answer))
    {
      LineReadsBack(lines[k], ids, if k < |lines| - 1 then "\n" else "");
    }
  }

  /** Numbering a question names it, whatever the ids are. */
  lemma NumbersNameQuestions(index: nat, ids: seq<string>, answer: string)
    requires index < |ids| && IsTrimmed(answer) && NoBreaks(answer)
    ensures IsWellFormed(Line(RequestIds.Decimal(index + 1), ids[index], answer), ids)
  {
    RequestIds.DecimalRoundTrip(index + 1);
    DigitsArePlain(RequestIds.Decimal(index + 1));
  }

  lemma DigitsArePlain(key: string)
    requires IsDigits(key)
    ensures IsTrimmed(key) && NoBreaks(key) && NoColon(key)
  {
    forall i | 0 <= i < |key| ensures !IsSpace(key[i]) && !IsBreak(key[i]) && key[i] != ':' {
      DigitIsPlain(key[i]);
    }
  }

  lemma DigitIsPlain(c: char)
    requires '0' <= c <= '9'
    ensures !IsSpace(c) && !IsBreak(c) && c != ':'
  {
  }

  /** The lines "<number>: <answer>", the questions taken in the given order. */
  function Numbered(order: seq<nat>, ids: seq<string>, answers: map<string, string>): (r: seq<Line>)
    requires forall k :: 0 <= k < |order| ==> order[k] < |ids| && ids[order[k]] in answers
    ensures |r| == |order|
    ensures forall k :: 0 <= k < |order| ==>
      r[k] == Line(RequestIds.Decimal(order[k] + 1), ids[order[k]], answers[ids[order[k]]])
  {
    seq(|order|, k requires 0 <= k < |order| =>
      assert order[k] < |ids| && ids[order[k]] in answers;
      Line(RequestIds.Decimal(order[k] + 1), ids[order[k]], answers[ids[order[k]]]))
  }

  ghost predicate IsPermutation(order: seq<nat>, n: nat) {
    && (forall k :: 0 <= k < |order| ==> order[k] < n)
    && (forall i :: 0 <= i < n ==> i in order)
    && (forall j, k :: 0 <= j < k < |order| ==> order[j] != order[k])
  }

  lemma QuestionsInAnyOrder(order: seq<nat>, ids: seq<string>, lines: seq<Line>)
    requires IsPermutation(order, |ids|) && |lines| == |order|
    requires forall k :: 0 <= k < |order| ==> lines[k].question == ids[order[k]]
    ensures Asked(ids) == Named(lines)
  {
    forall i | 0 <= i < |ids| ensures exists k :: 0 <= k < |lines| && lines[k].question == ids[i] {
      assert i in order;
      var k :| 0 <= k < |order| && order[k] == i;
      assert lines[k].question == ids[i];
    }
  }

  lemma QuestionsStayDistinct(order: seq<nat>, ids: seq<string>, lines: seq<Line>)
    requires IsPermutation(order, |ids|) && |lines| == |order|
    requires forall i, j :: 0 <= i < j < |ids| ==> ids[i] != ids[j]
    requires forall k :: 0 <= k < |order| ==> lines[k].question == ids[order[k]]
    ensures forall j, k :: 0 <= j < k < |lines| ==> lines[j].question != lines[k].question
  {
    forall j, k | 0 <= j < k < |lines| ensures lines[j].question != lines[k].question {
      assert order[j] != order[k];
    }
  }

  /** For two or more distinct ids, numbered lines in any order read as exactly the answers they give. */
  lemma NumberedReplyReadsBack(order: seq<nat>, ids: seq<string>, answers: map<string, string>)
    requires |ids| > 1 && forall i, j :: 0 <= i < j < |ids| ==> ids[i] != ids[j]
    requires IsPermutation(order, |ids|) && answers.Keys == Asked(ids)
    requires forall q :: q in answers ==> IsTrimmed(answers[q]) && NoBreaks(answers[q])
    requires forall k :: 0 <= k < |order| ==> ids[order[k]] in answers
    ensures IsReply(ReplyText(Numbered(order, ids, answers)), ids, answers)
  {
    var lines := Numbered(order, ids, answers);
    forall k | 0 <= k < |lines| ensures IsWellFormed(lines[k], ids) && AnsweredIn(lines[k], answers) {
      NumbersNameQuestions(order[k], ids, answers[ids[order[k]]]);
    }
    QuestionsInAnyOrder(order, ids, lines);
    QuestionsStayDistinct(order, ids, lines);
    ReplyReadsBack(lines, ids, answers);
  }
}
