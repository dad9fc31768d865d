/**
 * Python's `repr` of a `str` and `str` of a `list[str]`, which is what an
 * f-string writes for a list of strings, together with a reader that takes
 * such text back to the list.
 */
module PyRepr {
  import opened Wrappers
  import opened PyStr

  const HexDigits: string := "0123456789abcdef"

  predicate IsQuote(q: char)
  {
    q == '\'' || q == '"'
  }

  /** A character that `repr` writes as a `\xhh` escape: an ASCII control character other than tab, newline and return. */
  predicate IsHexEscaped(c: char)
  {
    (c < ' ' || c as int == 0x7f) && c != '\t' && c != '\n' && c != '\r'
  }

  /** How `repr` writes one character inside a string quoted with `q`. */
  function EscapeChar(c: char, q: char): string
  {
    if c == q || c == '\\' then ['\\', c]
    else if c == '\t' then "\\t"
    else if c == '\n' then "\\n"
    else if c == '\r' then "\\r"
    else if IsHexEscaped(c) then ['\\', 'x', HexDigits[c as int / 16], HexDigits[c as int % 16]]
    else [c]
  }

  function EscapeBody(s: string, q: char): string
  {
    if |s| == 0 then "" else EscapeChar(s[0], q) + EscapeBody(s[1..], q)
  }

  /** The quote `repr` picks: double quotes only when the text has a single quote and no double quote. */
  function QuoteFor(s: string): (q: char)
    ensures IsQuote(q)
  {
    if '\'' in s && '"' !in s then '"' else '\''
  }

  /** `repr(s)` for a `str`. */
  function StrRepr(s: string): string
  {
    var q := QuoteFor(s);
    [q] + EscapeBody(s, q) + [q]
  }

  /** `str(xs)` for a `list[str]`: the items' reprs, comma-separated, in brackets. */
  function ListRepr(xs: seq<string>): string
  {
    "[" + Join(", ", seq(|xs|, i requires 0 <= i < |xs| => StrRepr(xs[i]))) + "]"
  }

  function HexValue(c: char): (v: int)
    ensures -1 <= v < 16
    ensures 0 <= v ==> HexDigits[v] == c
  {
    if '0' <= c <= '9' then c as int - '0' as int
    else if 'a' <= c <= 'f' then c as int - 'a' as int + 10
    else -1
  }

  function Prepend(c: char, r: Option<(string, string)>): Option<(string, string)>
  {
    if r.Some? then Some(([c] + r.value.0, r.value.1)) else None
  }

  /**
   * Reads an escaped string body up to its closing quote `q`: the decoded
   * text and what follows the closing quote.
   */
  function ParseBody(t: string, q: char): (r: Option<(string, string)>)
    ensures r.Some? ==> |r.value.1| < |t|
    decreases |t|
  {
    if |t| == 0 then None
    else if t[0] == q then Some(("", t[1..]))
    else if t[0] != '\\' then Prepend(t[0], ParseBody(t[1..], q))
    else if |t| < 2 then None
    else if t[1] == 't' then Prepend('\t', ParseBody(t[2..], q))
    else if t[1] == 'n' then Prepend('\n', ParseBody(t[2..], q))
    else if t[1] == 'r' then Prepend('\r', ParseBody(t[2..], q))
    else if t[1] == '\\' || IsQuote(t[1]) then Prepend(t[1], ParseBody(t[2..], q))
    else if t[1] == 'x' && |t| >= 4 && HexValue(t[2]) >= 0 && HexValue(t[3]) >= 0 then
      Prepend((16 * HexValue(t[2]) + HexValue(t[3])) as char, ParseBody(t[4..], q))
    else None
  }

  /** Reads one quoted string literal at the head of `t`. */
  function ParseQuoted(t: string): (r: Option<(string, string)>)
    ensures r.Some? ==> |r.value.1| < |t|
  {
    if |t| == 0 || !IsQuote(t[0]) then None else ParseBody(t[1..], t[0])
  }

  /** Reads the rest of a list after its `[`: items separated by `, ` and a closing `]`. */
  function ParseItems(t: string): Option<seq<string>>
    decreases |t|
  {
    match ParseQuoted(t)
    case None => None
    case Some((s, rest)) =>
      if rest == "]" then Some([s])
      else if |rest| >= 2 && rest[..2] == ", " then
        match ParseItems(rest[2..])
        case None => None
        case Some(more) => Some([s] + more)
      else None
  }

  /** Reads the text of a `list[str]`. */
  function ParseList(t: string): Option<seq<string>>
  {
    if t == "[]" then Some([])
    else if |t| >= 1 && t[0] == '[' then ParseItems(t[1..])
    else None
  }

  lemma ReadPlain(c: char, q: char, rest: string)
    requires c != q && c != '\\'
    ensures ParseBody([c] + rest, q) == Prepend(c, ParseBody(rest, q))
  {
    assert ([c] + rest)[1..] == rest;
  }

  lemma ReadTwoCharEscape(e: char, q: char, rest: string)
    requires IsQuote(q)
    requires e == 't' || e == 'n' || e == 'r' || e == '\\' || IsQuote(e)
    ensures ParseBody(['\\', e] + rest, q) ==
      Prepend(if e == 't' then '\t' else if e == 'n' then '\n' else if e == 'r' then '\r' else e, ParseBody(rest, q))
  {
    var t := ['\\', e] + rest;
    assert t[0] == '\\' && t[1] == e;
    assert t[2..] == rest;
  }

  lemma ReadHexEscape(c: char, q: char, rest: string)
    requires IsQuote(q) && IsHexEscaped(c)
    ensures ParseBody(['\\', 'x', HexDigits[c as int / 16], HexDigits[c as int % 16]] + rest, q) ==
      Prepend(c, ParseBody(rest, q))
  {
    var t := ['\\', 'x', HexDigits[c as int / 16], HexDigits[c as int % 16]] + rest;
    assert t[0] == '\\' && t[1] == 'x' && |t| >= 4;
    assert t[4..] == rest;
    assert HexValue(t[2]) == c as int / 16;
    assert HexValue(t[3]) == c as int % 16;
  }

  /** Reading back one escaped character. */
  lemma EscapeCharRoundTrip(c: char, q: char, rest: string)
    requires IsQuote(q)
    ensures ParseBody(EscapeChar(c, q) + rest, q) == Prepend(c, ParseBody(rest, q))
  {
    if c == q || c == '\\' {
      ReadTwoCharEscape(c, q, rest);
    } else if c == '\t' {
      ReadTwoCharEscape('t', q, rest);
    } else if c == '\n' {
      ReadTwoCharEscape('n', q, rest);
    } else if c == '\r' {
      ReadTwoCharEscape('r', q, rest);
    } else if IsHexEscaped(c) {
      ReadHexEscape(c, q, rest);
    } else {
      ReadPlain(c, q, rest);
    }
  }

  /** Reading back an escaped body stops exactly at its closing quote. */
  lemma {:induction false} EscapeBodyRoundTrip(s: string, q: char, rest: string)
    requires IsQuote(q)
    ensures ParseBody(EscapeBody(s, q) + [q] + rest, q) == Some((s, rest))
  {
    if |s| == 0 {
      assert EscapeBody(s, q) + [q] + rest == [q] + rest;
    } else {
      EscapeBodyRoundTrip(s[1..], q, rest);
      EscapeCharRoundTrip(s[0], q, EscapeBody(s[1..], q) + [q] + rest);
      assert EscapeBody(s, q) + [q] + rest == EscapeChar(s[0], q) + (EscapeBody(s[1..], q) + [q] + rest);
      assert [s[0]] + s[1..] == s;
    }
  }

  /** `repr` of a string is read back as that string. */
  lemma StrReprRoundTrip(s: string, rest: string)
    ensures ParseQuoted(StrRepr(s) + rest) == Some((s, rest))
  {
    var q := QuoteFor(s);
    var t := StrRepr(s) + rest;
    EscapeBodyRoundTrip(s, q, rest);
    assert t == [q] + (EscapeBody(s, q) + [q] + rest);
    assert t[0] == q && IsQuote(q);
    assert t[1..] == EscapeBody(s, q) + [q] + rest;
  }

  function Reprs(xs: seq<string>): seq<string>
  {
    seq(|xs|, i requires 0 <= i < |xs| => StrRepr(xs[i]))
  }

  lemma ReadLastItem(x: string)
    ensures ParseItems(StrRepr(x) + "]") == Some([x])
  {
    StrReprRoundTrip(x, "]");
  }

  lemma ReadItem(x: string, tail: string, more: seq<string>)
    requires ParseItems(tail) == Some(more)
    ensures ParseItems(StrRepr(x) + (", " + tail)) == Some([x] + more)
  {
    StrReprRoundTrip(x, ", " + tail);
    assert (", " + tail)[2..] == tail;
    assert (", " + tail)[..2] == ", ";
  }

  lemma ReprsCons(xs: seq<string>)
    requires |xs| > 0
    ensures Reprs(xs) == [StrRepr(xs[0])] + Reprs(xs[1..])
  {
  }

  lemma JoinReprsCons(xs: seq<string>)
    requires |xs| > 1
    ensures Join(", ", Reprs(xs)) + "]" == StrRepr(xs[0]) + (", " + (Join(", ", Reprs(xs[1..])) + "]"))
  {
    var a, b := StrRepr(xs[0]), Reprs(xs[1..]);
    ReprsCons(xs);
    JoinAppend(", ", [a], b);
    assert Join(", ", [a]) == a;
    var j := Join(", ", b);
    assert Join(", ", Reprs(xs)) == a + ", " + j;
    assert a + ", " + j + "]" == a + (", " + (j + "]"));
  }

  lemma {:induction false} ItemsRoundTrip(xs: seq<string>)
    requires |xs| > 0
    ensures ParseItems(Join(", ", Reprs(xs)) + "]") == Some(xs)
    decreases |xs|
  {
    if |xs| == 1 {
      ReadLastItem(xs[0]);
      assert Join(", ", Reprs(xs)) == StrRepr(xs[0]);
      assert xs == [xs[0]];
    } else {
      JoinReprsCons(xs);
      ItemsRoundTrip(xs[1..]);
      ReadItem(xs[0], Join(", ", Reprs(xs[1..])) + "]", xs[1..]);
      assert [xs[0]] + xs[1..] == xs;
    }
  }

  /** The text `str(xs)` writes for a list of strings determines the list. */
  lemma ListReprRoundTrip(xs: seq<string>)
    ensures ParseList(ListRepr(xs)) == Some(xs)
  {
    if |xs| > 0 {
      ItemsRoundTrip(xs);
      assert Reprs(xs) == seq(|xs|, i requires 0 <= i < |xs| => StrRepr(xs[i]));
      assert ListRepr(xs)[1..] == Join(", ", Reprs(xs)) + "]";
      assert ListRepr(xs) != "[]" by {
        JoinLength(", ", Reprs(xs));
        assert |StrRepr(xs[0])| >= 2;
        assert TotalLength(Reprs(xs)) >= |StrRepr(xs[0])| by { TotalLengthAtLeastFirst(Reprs(xs)); }
      }
    } else {
      assert ListRepr(xs) == "[]";
    }
  }

  lemma {:induction false} TotalLengthAtLeastFirst(items: seq<string>)
    requires |items| > 0
    ensures TotalLength(items) >= |items[0]|
  {
    if |items| > 1 {
      TotalLengthAtLeastFirst(items[..|items| - 1]);
    }
  }
}
