/** JSON-RPC ids and the text under which the interaction table stores them. */
module RequestIds {
  import opened CodexModel

  datatype RequestId = Number(n: int) | Text(s: string)

  function Digit(d: nat): char
    requires d < 16
  {
    "0123456789abcdef"[d]
  }

  function Decimal(n: nat): (r: string)
    ensures |r| > 0 && forall i :: 0 <= i < |r| ==> '0' <= r[i] <= '9'
  {
    if n < 10 then [Digit(n)] else Decimal(n / 10) + [Digit(n % 10)]
  }

  function EscapeChar(c: char): (r: string)
    ensures |r| > 0
  {
    if c == '\"' then "\\\""
    else if c == '\\' then "\\\\"
    else if c == '\n' then "\\n"
    else if c == '\r' then "\\r"
    else if c == '\t' then "\\t"
    else if c as int == 8 then "\\b"
    else if c as int == 12 then "\\f"
    else if (c as int) < 32 then "\\u00" + [Digit(c as int / 16), Digit(c as int % 16)]
    else [c]
  }

  function Escape(s: string): string {
    if s == "" then "" else EscapeChar(s[0]) + Escape(s[1..])
  }

  /** `json.dumps(value, ensure_ascii=False)` on an integer or a string. */
  function Canonical(id: RequestId): string {
    match id
    case Number(n) => if n < 0 then "-" + Decimal(-n) else Decimal(n)
    case Text(s) => "\"" + Escape(s) + "\""
  }

  function DecimalValue(s: string): int {
    if s == "" then 0 else 10 * DecimalValue(s[..|s| - 1]) + (s[|s| - 1] as int - '0' as int)
  }

  lemma DigitValue(d: nat)
    requires d < 10
    ensures Digit(d) as int - '0' as int == d
  {
  }

  lemma ValueOfLonger(s: string, c: char)
    ensures DecimalValue(s + [c]) == 10 * DecimalValue(s) + (c as int - '0' as int)
  {
    assert (s + [c])[..|s|] == s;
  }

  lemma {:induction false} DecimalRoundTrip(n: nat)
    ensures DecimalValue(Decimal(n)) == n
  {
    DigitValue(n % 10);
    if n < 10 {
      ValueOfLonger("", Digit(n));
      assert "" + [Digit(n)] == [Digit(n)];
    } else {
      DecimalRoundTrip(n / 10);
      ValueOfLonger(Decimal(n / 10), Digit(n % 10));
    }
  }

  function HexValue(c: char): nat {
    if '0' <= c <= '9' then c as int - '0' as int
    else if 'a' <= c <= 'f' then c as int - 'a' as int + 10
    else 0
  }

  /** Reads one character back off the front of an escaped text. */
  function Unescape(t: string): (char, string)
    requires |t| > 0
  {
    if t[0] != '\\' || |t| < 2 then (t[0], t[1..])
    else if t[1] == 'n' then ('\n', t[2..])
    else if t[1] == 'r' then ('\r', t[2..])
    else if t[1] == 't' then ('\t', t[2..])
    else if t[1] == 'b' then (8 as char, t[2..])
    else if t[1] == 'f' then (12 as char, t[2..])
    else if t[1] == 'u' && |t| >= 6 then
      ((HexValue(t[4]) * 16 + HexValue(t[5])) as char, t[6..])
    else (t[1], t[2..])
  }

  lemma UnescapeUndoesEscape(c: char, rest: string)
    ensures Unescape(EscapeChar(c) + rest) == (c, rest)
  {
    var e := EscapeChar(c);
    assert (e + rest)[..|e|] == e && (e + rest)[|e|..] == rest;
    if |e| == 6 {
      HexRoundTrip(c as int / 16);
      HexRoundTrip(c as int % 16);
      assert (e + rest)[4] == e[4] && (e + rest)[5] == e[5];
    }
  }

  lemma HexRoundTrip(d: nat)
    requires d < 16
    ensures HexValue(Digit(d)) == d
  {
    var hex := "0123456789abcdef";
    assert d < 10 ==> hex[d] as int == '0' as int + d;
    assert d >= 10 ==> hex[d] as int == 'a' as int + d - 10;
  }

  lemma QuoteIsEscaped(c: char)
    ensures EscapeChar(c)[0] != '\"'
  {
  }

  lemma EscapeFirst(s: string, tail: string)
    requires s != ""
    ensures Escape(s) + tail == EscapeChar(s[0]) + (Escape(s[1..]) + tail)
  {
  }

  /** A quoted string tells where it ends and what it says, whatever follows its closing quote. */
  lemma {:induction false} EscapeIsInjective(s: string, t: string, x: string, y: string)
    requires Escape(s) + (['\"'] + x) == Escape(t) + (['\"'] + y)
    ensures s == t && x == y
  {
    var p, q := ['\"'] + x, ['\"'] + y;
    assert (s == "" ==> (Escape(s) + p)[0] == '\"') && (t == "" ==> (Escape(t) + q)[0] == '\"');
    if s == "" && t == "" {
      assert "" + p == p && "" + q == q && p[1..] == x && q[1..] == y;
    } else if s == "" {
      EscapeFirst(t, q);
      QuoteIsEscaped(t[0]);
    } else if t == "" {
      EscapeFirst(s, p);
      QuoteIsEscaped(s[0]);
    } else {
      EscapeFirst(s, p);
      EscapeFirst(t, q);
      UnescapeUndoesEscape(s[0], Escape(s[1..]) + p);
      UnescapeUndoesEscape(t[0], Escape(t[1..]) + q);
      EscapeIsInjective(s[1..], t[1..], x, y);
    }
  }

  /** Distinct ids, whether numbers or strings, never share a canonical text. */
  lemma CanonicalIsInjective(a: RequestId, b: RequestId)
    ensures Canonical(a) == Canonical(b) <==> a == b
  {
    if Canonical(a) == Canonical(b) {
      CanonicalTellsKind(a);
      CanonicalTellsKind(b);
      if a.Text? {
        EscapeIsInjective(a.s, b.s, "", "");
      } else {
        DecimalRoundTrip(Magnitude(a.n));
        DecimalRoundTrip(Magnitude(b.n));
      }
    }
  }

  /** Reads a quoted text back, up to its closing quote. */
  function Unquoted(t: string): string
    decreases |t|
  {
    if t == "" || t[0] == '\"' then ""
    else var (c, rest) := Unescape(t); if |rest| < |t| then [c] + Unquoted(rest) else ""
  }

  lemma {:induction false} UnquotedReadsBack(s: string, tail: string)
    ensures Unquoted(Escape(s) + (['\"'] + tail)) == s
  {
    var q := ['\"'] + tail;
    if s == "" {
      assert Escape(s) + q == q;
    } else {
      EscapeFirst(s, q);
      QuoteIsEscaped(s[0]);
      UnescapeUndoesEscape(s[0], Escape(s[1..]) + q);
      UnquotedReadsBack(s[1..], tail);
    }
  }

  /** What a canonical text says, read as JSON: a quoted string, or an integer with its sign. */
  function ReadId(t: string): RequestId {
    if t != "" && t[0] == '\"' then Text(Unquoted(t[1..]))
    else if t != "" && t[0] == '-' then Number(-DecimalValue(t[1..]))
    else Number(DecimalValue(t))
  }

  /** The canonical text of an id reads back as that id. */
  lemma CanonicalReadsBack(id: RequestId)
    ensures ReadId(Canonical(id)) == id
  {
    CanonicalTellsKind(id);
    if id.Text? {
      UnquotedReadsBack(id.s, "");
      assert Canonical(id)[1..] == Escape(id.s) + (['\"'] + "");
    } else {
      DecimalRoundTrip(Magnitude(id.n));
    }
  }

  function Magnitude(n: int): nat {
    if n < 0 then -n else n
  }

  lemma CanonicalTellsKind(a: RequestId)
    ensures a.Text? <==> Canonical(a)[0] == '\"'
    ensures a.Text? ==> |Canonical(a)| >= 2 && Canonical(a)[1..|Canonical(a)| - 1] == Escape(a.s)
    ensures a.Number? ==>
      Decimal(Magnitude(a.n)) == if a.n < 0 then Canonical(a)[1..] else Canonical(a)
    ensures a.Number? ==> (a.n < 0 <==> Canonical(a)[0] == '-')
  {
  }
}
