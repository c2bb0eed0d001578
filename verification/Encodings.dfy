/** The text encodings that the program uses as identities: `JSON.stringify` on strings and
    string lists, `stableJson` on JSON values, and `encodeTuple` on string lists.
    Each is shown to determine what it encodes, by reading the encoded text from the left. */
module Encodings {
  import opened Texts

  // ---------------------------------------------------------------- decimal numbers

  function DigitChar(d: nat): char
    requires d < 10
  {
    '0' + d as char
  }

  predicate IsDigit(c: char)
  {
    '0' <= c <= '9'
  }

  function Decimal(n: nat): string
  {
    if n < 10 then [DigitChar(n)] else Decimal(n / 10) + [DigitChar(n % 10)]
  }

  /** `String(n)` and `BigInt.prototype.toString` on integers. */
  function IntText(n: int): string
  {
    if n < 0 then "-" + Decimal(-n) else Decimal(n)
  }

  lemma {:induction false} DecimalDigits(n: nat)
    ensures |Decimal(n)| > 0
    ensures forall i :: 0 <= i < |Decimal(n)| ==> IsDigit(Decimal(n)[i])
  {
    if n >= 10 {
      DecimalDigits(n / 10);
    }
  }

  lemma DigitCharInjective(d: nat, e: nat)
    requires d < 10 && e < 10
    ensures DigitChar(d) == DigitChar(e) <==> d == e
  {
    assert DigitChar(d) as int == 48 + d && DigitChar(e) as int == 48 + e;
  }

  lemma {:induction false} DecimalInjective(m: nat, n: nat)
    ensures Decimal(m) == Decimal(n) <==> m == n
  {
    var a, b := Decimal(m), Decimal(n);
    assert a[|a| - 1] == DigitChar(m % 10) && b[|b| - 1] == DigitChar(n % 10);
    DigitCharInjective(m % 10, n % 10);
    if m >= 10 { DecimalDigits(m / 10); }
    if n >= 10 { DecimalDigits(n / 10); }
    if m >= 10 && n >= 10 {
      assert a[..|a| - 1] == Decimal(m / 10) && b[..|b| - 1] == Decimal(n / 10);
      DecimalInjective(m / 10, n / 10);
    }
  }

  lemma IntTextInjective(m: int, n: int)
    ensures IntText(m) == IntText(n) <==> m == n
  {
    var a, b := if m < 0 then -m else m, if n < 0 then -n else n;
    DecimalDigits(a);
    DecimalDigits(b);
    DecimalInjective(a, b);
    if m < 0 {
      assert IntText(m)[0] == '-' && IntText(m)[1..] == Decimal(a);
    } else {
      assert IsDigit(IntText(m)[0]);
    }
    if n < 0 {
      assert IntText(n)[0] == '-' && IntText(n)[1..] == Decimal(b);
    } else {
      assert IsDigit(IntText(n)[0]);
    }
  }

  // ---------------------------------------------------------------- JSON strings

  function HexChar(d: nat): char
    requires d < 16
  {
    if d < 10 then '0' + d as char else 'a' + (d - 10) as char
  }

  /** One character of a JSON string: section 7 of RFC 8259, with the short escapes
      `JSON.stringify` prefers. */
  function Escape(c: char): string
  {
    var n := c as int;
    if c == '"' then "\\\""
    else if c == '\\' then "\\\\"
    else if n == 8 then "\\b"
    else if n == 9 then "\\t"
    else if n == 10 then "\\n"
    else if n == 12 then "\\f"
    else if n == 13 then "\\r"
    else if n < 0x20 then "\\u00" + [HexChar(n / 16), HexChar(n % 16)]
    else [c]
  }

  function EscapeAll(s: string): string
  {
    if s == "" then "" else Escape(s[0]) + EscapeAll(s[1..])
  }

  /** `JSON.stringify(s)` */
  function Quote(s: string): string
  {
    "\"" + EscapeAll(s) + "\""
  }

  /** The reader's view of an escape: how many characters it takes, and what it stands for. */
  function Unescape(t: string): (char, nat)
    requires t != ""
  {
    if t[0] != '\\' || |t| < 2 then (t[0], 1)
    else match t[1]
      case 'b' => (8 as char, 2)
      case 't' => (9 as char, 2)
      case 'n' => (10 as char, 2)
      case 'f' => (12 as char, 2)
      case 'r' => (13 as char, 2)
      case 'u' => if |t| >= 6 then (((HexValue(t[4]) * 16 + HexValue(t[5])) as char), 6) else (t[0], 1)
      case _ => (t[1], 2)
  }

  function HexValue(c: char): (d: nat)
    ensures d < 16
  {
    if '0' <= c <= '9' then c as int - '0' as int
    else if 'a' <= c <= 'f' then c as int - 'a' as int + 10
    else 0
  }

  lemma UnescapeEscape(c: char, rest: string)
    ensures Escape(c) != "" && Escape(c)[0] != '"'
    ensures Unescape(Escape(c) + rest) == (c, |Escape(c)|)
  {
    var n := c as int;
    var t := Escape(c) + rest;
    assert n as char == c;
    if n < 0x20 && n !in {8, 9, 10, 12, 13} {
      assert t[1] == 'u' && t[4] == HexChar(n / 16) && t[5] == HexChar(n % 16);
      assert HexValue(HexChar(n / 16)) == n / 16 && HexValue(HexChar(n % 16)) == n % 16;
      assert n / 16 * 16 + n % 16 == n;
    }
  }

  lemma EscapeSplit(c: char, d: char, x: string, y: string)
    requires Escape(c) + x == Escape(d) + y
    ensures c == d && x == y
  {
    UnescapeEscape(c, x);
    UnescapeEscape(d, y);
    assert (Escape(c) + x)[|Escape(c)|..] == x;
    assert (Escape(d) + y)[|Escape(d)|..] == y;
  }

  lemma {:induction false} EscapeAllSplit(s: string, t: string, x: string, y: string)
    ensures EscapeAll(s) + "\"" + x == EscapeAll(t) + "\"" + y ==> s == t && x == y
  {
    if s == "" || t == "" {
      EscapeAllHead(s, x);
      EscapeAllHead(t, y);
    } else if EscapeAll(s) + "\"" + x == EscapeAll(t) + "\"" + y {
      EscapeAllStep(s, x);
      EscapeAllStep(t, y);
      EscapeSplit(s[0], t[0], EscapeAll(s[1..]) + "\"" + x, EscapeAll(t[1..]) + "\"" + y);
      EscapeAllSplit(s[1..], t[1..], x, y);
    }
  }

  lemma EscapeAllStep(s: string, x: string)
    requires s != ""
    ensures EscapeAll(s) + "\"" + x == Escape(s[0]) + (EscapeAll(s[1..]) + "\"" + x)
    ensures s == [s[0]] + s[1..]
  {
  }

  lemma EscapeAllHead(s: string, x: string)
    ensures (EscapeAll(s) + "\"" + x)[0] == '"' <==> s == ""
    ensures s == "" ==> (EscapeAll(s) + "\"" + x)[1..] == x
  {
    if s != "" {
      UnescapeEscape(s[0], EscapeAll(s[1..]));
      assert (EscapeAll(s) + "\"" + x)[0] == Escape(s[0])[0];
    }
  }

  /** A quoted string is self-delimiting. */
  lemma QuoteSplit(s: string, t: string, x: string, y: string)
    ensures Quote(s) + x == Quote(t) + y ==> s == t && x == y
  {
    assert (Quote(s) + x)[1..] == EscapeAll(s) + "\"" + x;
    assert (Quote(t) + y)[1..] == EscapeAll(t) + "\"" + y;
    EscapeAllSplit(s, t, x, y);
  }

  // ---------------------------------------------------------------- lists of strings

  function QuotedTail(parts: seq<string>): string
  {
    if parts == [] then "]" else "," + (Quote(parts[0]) + QuotedTail(parts[1..]))
  }

  /** `JSON.stringify(parts)` on a list of strings. */
  function JsonStrings(parts: seq<string>): string
  {
    if parts == [] then "[]" else "[" + (Quote(parts[0]) + QuotedTail(parts[1..]))
  }

  lemma {:induction false} QuotedTailInjective(a: seq<string>, b: seq<string>)
    ensures QuotedTail(a) == QuotedTail(b) ==> a == b
  {
    assert a == [] ==> QuotedTail(a)[0] == ']';
    assert b == [] ==> QuotedTail(b)[0] == ']';
    if a != [] { assert QuotedTail(a)[0] == ','; }
    if b != [] { assert QuotedTail(b)[0] == ','; }
    if a != [] && b != [] {
      assert QuotedTail(a)[1..] == Quote(a[0]) + QuotedTail(a[1..]);
      assert QuotedTail(b)[1..] == Quote(b[0]) + QuotedTail(b[1..]);
      ConsSplit(a, b);
      QuotedTailInjective(a[1..], b[1..]);
    }
  }

  lemma ConsSplit(a: seq<string>, b: seq<string>)
    requires a != [] && b != []
    ensures Quote(a[0]) + QuotedTail(a[1..]) == Quote(b[0]) + QuotedTail(b[1..])
            ==> a[0] == b[0] && QuotedTail(a[1..]) == QuotedTail(b[1..])
    ensures a[0] == b[0] && a[1..] == b[1..] ==> a == b
  {
    QuoteSplit(a[0], b[0], QuotedTail(a[1..]), QuotedTail(b[1..]));
    assert a == [a[0]] + a[1..] && b == [b[0]] + b[1..];
  }

  /** Equal JSON text means the same list: stream keys, idempotency scopes and event definitions are
      compared through it. */
  lemma JsonStringsInjective(a: seq<string>, b: seq<string>)
    ensures JsonStrings(a) == JsonStrings(b) <==> a == b
  {
    if a != [] { assert JsonStrings(a)[1] == '"'; }
    if b != [] { assert JsonStrings(b)[1] == '"'; }
    assert a == [] ==> JsonStrings(a)[1] == ']';
    assert b == [] ==> JsonStrings(b)[1] == ']';
    if a != [] && b != [] {
      assert JsonStrings(a)[1..] == Quote(a[0]) + QuotedTail(a[1..]);
      assert JsonStrings(b)[1..] == Quote(b[0]) + QuotedTail(b[1..]);
      ConsSplit(a, b);
      QuotedTailInjective(a[1..], b[1..]);
    }
  }

  // ---------------------------------------------------------------- strings and a number

  /** What follows the bracket in `JSON.stringify([...parts, n])`. */
  function StringsThenInt(parts: seq<string>, n: int): string
  {
    if parts == [] then IntText(n) + "]" else Quote(parts[0]) + ("," + StringsThenInt(parts[1..], n))
  }

  lemma IntTextHead(n: int)
    ensures IntText(n) != "" && IntText(n)[0] != '"'
  {
    DecimalDigits(if n < 0 then -n else n);
    hide Decimal;
  }

  lemma StringsThenIntHead(parts: seq<string>, n: int)
    ensures StringsThenInt(parts, n) != "" && (StringsThenInt(parts, n)[0] == '"' <==> parts != [])
  {
    IntTextHead(n);
    hide IntText, EscapeAll;
    if parts == [] { assert StringsThenInt(parts, n)[0] == IntText(n)[0]; }
  }

  /** A list of strings closed by an integer, as in the stream position key, is determined by its text. */
  lemma {:induction false} StringsThenIntInjective(a: seq<string>, m: int, b: seq<string>, n: int)
    ensures StringsThenInt(a, m) == StringsThenInt(b, n) <==> a == b && m == n
    decreases |a|
  {
    hide IntText, EscapeAll;
    StringsThenIntHead(a, m);
    StringsThenIntHead(b, n);
    if a == [] && b == [] {
      var x, y := IntText(m) + "]", IntText(n) + "]";
      assert x[..|x| - 1] == IntText(m) && y[..|y| - 1] == IntText(n);
      IntTextInjective(m, n);
    } else if a != [] && b != [] {
      var x, y := "," + StringsThenInt(a[1..], m), "," + StringsThenInt(b[1..], n);
      QuoteSplit(a[0], b[0], x, y);
      assert x[1..] == StringsThenInt(a[1..], m) && y[1..] == StringsThenInt(b[1..], n);
      StringsThenIntInjective(a[1..], m, b[1..], n);
      assert a == [a[0]] + a[1..] && b == [b[0]] + b[1..];
    }
  }

  // ---------------------------------------------------------------- encodeTuple

  /** Bytes of one character in UTF-8. */
  function Utf8Bytes(c: char): (n: nat)
    ensures 1 <= n <= 4
  {
    var u := c as int;
    if u < 0x80 then 1 else if u < 0x800 then 2 else if u < 0x10000 then 3 else 4
  }

  /** `Buffer.byteLength(s, "utf8")` */
  function ByteLength(s: string): nat
  {
    if s == "" then 0 else Utf8Bytes(s[0]) + ByteLength(s[1..])
  }

  /** `encodeTuple(parts)`: each part behind its length in bytes. */
  function EncodeTuple(parts: seq<string>): string
  {
    if parts == [] then ""
    else Decimal(ByteLength(parts[0])) + ":" + (parts[0] + EncodeTuple(parts[1..]))
  }

  lemma {:induction false} DigitsSplit(a: string, b: string, x: string, y: string)
    requires forall i :: 0 <= i < |a| ==> IsDigit(a[i])
    requires forall i :: 0 <= i < |b| ==> IsDigit(b[i])
    ensures a + ":" + x == b + ":" + y ==> a == b && x == y
  {
    var l, r := a + ":" + x, b + ":" + y;
    assert l[|a|] == ':' && r[|b|] == ':';
    if |a| < |b| { assert r[|a|] == b[|a|]; }
    if |b| < |a| { assert l[|b|] == a[|b|]; }
    assert l[..|a|] == a && r[..|b|] == b;
    assert l[|a| + 1..] == x && r[|b| + 1..] == y;
  }

  lemma {:induction false} BytesSplit(s: string, t: string, x: string, y: string)
    requires ByteLength(s) == ByteLength(t)
    requires s + x == t + y
    ensures s == t && x == y
  {
    if s == "" || t == "" {
      assert s == t == "";
      assert s + x == x && t + y == y;
    } else {
      assert (s + x)[0] == s[0] && (t + y)[0] == t[0];
      assert (s + x)[1..] == s[1..] + x && (t + y)[1..] == t[1..] + y;
      BytesSplit(s[1..], t[1..], x, y);
      assert s == [s[0]] + s[1..] && t == [t[0]] + t[1..];
    }
  }

  /** The tuple encoding determines the tuple, for every list of strings: cache keys, binding
      keys and fingerprint inputs never collide. */
  lemma {:induction false} EncodeTupleInjective(a: seq<string>, b: seq<string>)
    ensures EncodeTuple(a) == EncodeTuple(b) <==> a == b
  {
    TupleStep(a);
    TupleStep(b);
    if EncodeTuple(a) == EncodeTuple(b) && a != [] && b != [] {
      var m, n := ByteLength(a[0]), ByteLength(b[0]);
      DigitsSplit(Decimal(m), Decimal(n), a[0] + EncodeTuple(a[1..]), b[0] + EncodeTuple(b[1..]));
      DecimalInjective(m, n);
      BytesSplit(a[0], b[0], EncodeTuple(a[1..]), EncodeTuple(b[1..]));
      EncodeTupleInjective(a[1..], b[1..]);
    }
  }

  lemma TupleStep(a: seq<string>)
    ensures a == [] <==> EncodeTuple(a) == ""
    ensures a != [] ==>
      var d := Decimal(ByteLength(a[0]));
      && (forall i :: 0 <= i < |d| ==> IsDigit(d[i]))
      && EncodeTuple(a) == d + ":" + (a[0] + EncodeTuple(a[1..]))
      && a == [a[0]] + a[1..]
  {
    if a != [] { DecimalDigits(ByteLength(a[0])); }
  }
}
