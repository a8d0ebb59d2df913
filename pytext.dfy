/**
 * The text Python's `repr` gives for integers and strings, which the tracer's
 * last serialization fallback produces.
 */
module PyText {

  /** The decimal digit of `d`. */
  function Digit(d: nat): (c: char)
    requires d < 10
    ensures '0' <= c <= '9'
  {
    "0123456789"[d]
  }

  /** The decimal text of `n`, without leading zeros. */
  function NatText(n: nat): (s: string)
    ensures |s| >= 1 && (s[0] == '0' ==> n == 0)
    ensures forall i :: 0 <= i < |s| ==> '0' <= s[i] <= '9'
    decreases n
  {
    if n < 10 then [Digit(n)] else NatText(n / 10) + [Digit(n % 10)]
  }

  /** The value of a string of decimal digits. */
  function DecimalValue(s: string): nat
    requires forall i :: 0 <= i < |s| ==> '0' <= s[i] <= '9'
  {
    if s == [] then 0 else DecimalValue(s[..|s| - 1]) * 10 + (s[|s| - 1] as int - '0' as int)
  }

  /** A digit reads back as its value. */
  lemma DigitValue(d: nat)
    requires d < 10
    ensures Digit(d) as int - '0' as int == d
  {
  }

  /** Reading the digits back gives the number. */
  lemma {:induction false} NatTextValue(n: nat)
    ensures DecimalValue(NatText(n)) == n
    decreases n
  {
    if n < 10 {
      DigitValue(n);
    } else {
      var s, q, d := NatText(n), n / 10, n % 10;
      assert s == NatText(q) + [Digit(d)];
      assert s[..|s| - 1] == NatText(q);
      NatTextValue(q);
      DigitValue(d);
      calc {
        DecimalValue(s);
        DecimalValue(NatText(q)) * 10 + (Digit(d) as int - '0' as int);
        q * 10 + d;
        n;
      }
    }
  }

  /**
   * `repr(i)` for an `int`: a minus sign exactly for a negative number, then
   * the digits of its magnitude, which read back as that magnitude.
   */
  function IntText(i: int): (r: string)
    ensures |r| >= 1 && (r[0] == '-' <==> i < 0)
    ensures var digits := if i < 0 then r[1..] else r;
      (forall k :: 0 <= k < |digits| ==> '0' <= digits[k] <= '9') && DecimalValue(digits) == if i < 0 then -i else i
  {
    var m := if i < 0 then -i else i;
    NatTextValue(m);
    if i < 0 then
      assert ("-" + NatText(m))[1..] == NatText(m);
      "-" + NatText(m)
    else NatText(m)
  }

  /** The lower-case hexadecimal digit of `d`. */
  function HexDigit(d: nat): (c: char)
    requires d < 16
    ensures '0' <= c <= '9' || 'a' <= c <= 'f'
  {
    "0123456789abcdef"[d]
  }

  /**
   * The quote `repr` puts around `s`: a double quote when `s` holds a single
   * quote and no double quote, otherwise a single quote.
   */
  function QuoteFor(s: string): (q: char)
    ensures q == '"' || q == '\''
    ensures q == '"' <==> ('\'' in s && '"' !in s)
  {
    if '\'' in s && '"' !in s then '"' else '\''
  }

  /** How `repr` writes one character inside quotes `q`. */
  function EscapeChar(c: char, q: char): string {
    if c == q || c == '\\' then ['\\', c]
    else if c == '\t' then "\\t"
    else if c == '\n' then "\\n"
    else if c == '\r' then "\\r"
    else if c < ' ' || c as int == 0x7f then
      ['\\', 'x', HexDigit(c as int / 16), HexDigit(c as int % 16)]
    else [c]
  }

  /** The characters of `s` as `repr` writes them inside quotes `q`. */
  function Escape(s: string, q: char): string {
    if s == [] then [] else EscapeChar(s[0], q) + Escape(s[1..], q)
  }

  /** A character `repr` writes as itself inside quotes `q`. */
  predicate Unescaped(c: char, q: char) {
    c != q && c != '\\' && ' ' <= c && c as int != 0x7f
  }

  /** `s` holds only characters that `repr` writes as themselves inside quotes `q`. */
  predicate AllUnescaped(s: string, q: char) {
    forall i :: 0 <= i < |s| ==> Unescaped(s[i], q)
  }

  /** A string of such characters is written unchanged. */
  lemma {:induction false} EscapePlain(s: string, q: char)
    requires AllUnescaped(s, q)
    ensures Escape(s, q) == s
    decreases |s|
  {
    if s != [] {
      assert Unescaped(s[0], q);
      assert AllUnescaped(s[1..], q) by {
        forall i | 0 <= i < |s| - 1 ensures Unescaped(s[1..][i], q) { assert s[1..][i] == s[i + 1]; }
      }
      EscapePlain(s[1..], q);
    }
  }

  /** `repr(s)` for a `str`. */
  function StrText(s: string): (r: string)
    ensures |r| >= 2 && r[0] == r[|r| - 1] == QuoteFor(s)
  {
    var q := QuoteFor(s);
    [q] + Escape(s, q) + [q]
  }

  /** A string of such characters with a single quote in it is shown inside double quotes unchanged. */
  lemma StrTextPlain(m: string, k: nat)
    requires AllUnescaped(m, '"')
    requires k < |m| && m[k] == '\''
    ensures StrText(m) == "\"" + m + "\""
  {
    assert '"' !in m;
    EscapePlain(m, '"');
  }

  /**
   * Where a Python tokenizer reading the body `t` of a literal quoted with
   * `q` finds the closing quote: a backslash takes the character after it
   * with it, and the first quote not so taken ends the literal. `|t|` when
   * there is none.
   */
  function ClosingQuote(t: string, q: char): (n: nat)
    ensures n <= |t|
    ensures n < |t| ==> t[n] == q
    decreases |t|
  {
    if t == [] then 0
    else if t[0] == q then 0
    else if t[0] == '\\' && |t| >= 2 then 2 + ClosingQuote(t[2..], q)
    else 1 + ClosingQuote(t[1..], q)
  }

  /**
   * The escaped body ends exactly where the closing quote is put: no
   * character of `s` ends the literal early, whatever backslashes and
   * quotes `s` holds.
   */
  lemma {:induction false} EscapeKeepsQuote(s: string, q: char, rest: string)
    requires q == '"' || q == '\''
    ensures ClosingQuote(Escape(s, q) + [q] + rest, q) == |Escape(s, q)|
    decreases |s|
  {
    if s == [] {
      assert Escape(s, q) + [q] + rest == [q] + rest;
    } else {
      var head, tail := EscapeChar(s[0], q), Escape(s[1..], q) + [q] + rest;
      assert Escape(s, q) + [q] + rest == head + tail;
      EscapeCharScan(s[0], q, tail);
      EscapeKeepsQuote(s[1..], q, rest);
    }
  }

  /** The tokenizer steps over one escaped character as a whole. */
  lemma EscapeCharScan(c: char, q: char, t: string)
    requires q == '"' || q == '\''
    ensures ClosingQuote(EscapeChar(c, q) + t, q) == |EscapeChar(c, q)| + ClosingQuote(t, q)
  {
    if c == q || c == '\\' || c == '\t' || c == '\n' || c == '\r' {
      var e := EscapeChar(c, q);
      assert |e| == 2 && e == [e[0], e[1]] && e[0] == '\\';
      ScanPair(e[0], e[1], q, t);
    } else if c < ' ' || c as int == 0x7f {
      var h, l := HexDigit(c as int / 16), HexDigit(c as int % 16);
      assert EscapeChar(c, q) == ['\\', 'x', h, l];
      ScanHex(h, l, q, t);
    } else {
      ScanPlain(c, q, t);
    }
  }

  /** A `\xhh` escape is stepped over as a whole. */
  lemma ScanHex(h: char, l: char, q: char, t: string)
    requires h != q && h != '\\' && l != q && l != '\\'
    requires q != '\\'
    ensures ClosingQuote(['\\', 'x', h, l] + t, q) == 4 + ClosingQuote(t, q)
  {
    ScanPlain(l, q, t);
    ScanPlain(h, q, [l] + t);
    ScanPair('\\', 'x', q, [h] + ([l] + t));
    assert ['\\', 'x', h, l] + t == ['\\', 'x'] + ([h] + ([l] + t));
  }

  /** A backslash and the character after it are stepped over together. */
  lemma ScanPair(a: char, b: char, q: char, t: string)
    requires a == '\\' && q != '\\'
    ensures ClosingQuote([a, b] + t, q) == 2 + ClosingQuote(t, q)
  {
    assert ([a, b] + t)[2..] == t;
  }

  /** Any other character that is not the quote is stepped over alone. */
  lemma ScanPlain(c: char, q: char, t: string)
    requires c != q && c != '\\'
    ensures ClosingQuote([c] + t, q) == 1 + ClosingQuote(t, q)
  {
    assert ([c] + t)[1..] == t;
  }

  /**
   * `repr(s)` is one whole literal: read from just after its opening quote,
   * its first closing quote is its last character.
   */
  lemma StrTextCloses(s: string)
    ensures ClosingQuote(StrText(s)[1..], QuoteFor(s)) == |StrText(s)| - 2
  {
    var q := QuoteFor(s);
    assert StrText(s)[1..] == Escape(s, q) + [q] + [];
    EscapeKeepsQuote(s, q, []);
  }
}
