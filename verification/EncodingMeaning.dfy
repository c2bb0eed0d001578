/** What the encoded texts look like: JSON strings as `JSON.stringify` writes them (section 25.5.2 of
    ECMA-262), decimal numbers, and tuples prefixed with lengths in UTF-8 bytes (section 3 of RFC 3629). */
module EncodingMeaning {
  import opened Texts
  import opened TextMeaning
  import opened Encodings

  // ---------------------------------------------------------------- numbers

  /** The number a text of digits stands for. */
  function Read(s: string): int
  {
    if s == "" then 0 else 10 * Read(s[..|s| - 1]) + (s[|s| - 1] as int - 48)
  }

  lemma DigitReads(d: nat)
    requires d < 10
    ensures DigitChar(d) == Digits[d] && DigitChar(d) as int - 48 == d
  {
  }

  /** A number is written in decimal digits, without a leading zero. */
  lemma {:induction false} DecimalMeans(n: nat)
    ensures Read(Decimal(n)) == n && |Decimal(n)| > 0 && (forall i :: 0 <= i < |Decimal(n)| ==> Decimal(n)[i] in Digits) &&
      (n > 0 ==> Decimal(n)[0] != '0')
  {
    DigitReads(n % 10);
    if n < 10 {
      DigitReads(n);
      assert Decimal(n)[..0] == "";
    } else {
      DecimalMeans(n / 10);
      var a, s := Decimal(n / 10), Decimal(n);
      assert s[..|s| - 1] == a;
    }
  }

  // ---------------------------------------------------------------- JSON strings

  /** Quotes and backslashes get a backslash, five control characters their letter, the others their number in
      four hexadecimal digits; everything else stands for itself. */
  lemma EscapeMeans(c: char)
    ensures var n := c as int;
      Escape(c) ==
      if c == '"' || c == '\\' then ['\\', c]
      else if n == 0x8 then ['\\', 'b'] else if n == 0x9 then ['\\', 't'] else if n == 0xA then ['\\', 'n']
      else if n == 0xC then ['\\', 'f'] else if n == 0xD then ['\\', 'r']
      else if n <= 0x1F then ['\\', 'u', '0', '0', HexDigits[n / 16], HexDigits[n % 16]]
      else [c]
  {
    var n := c as int;
    if n <= 0x1F {
      HexMeans(n / 16);
      HexMeans(n % 16);
    }
  }

  lemma HexMeans(d: nat)
    requires d < 16
    ensures HexChar(d) == HexDigits[d]
  {
  }

  /** The texts one after the other, `between` between them. */
  function Join(texts: seq<string>, between: string): string
    decreases |texts|
  {
    if texts == [] then "" else if |texts| == 1 then texts[0] else Join(texts[..|texts| - 1], between) + between + texts[|texts| - 1]
  }

  function Quoted(parts: seq<string>): (r: seq<string>)
    ensures |r| == |parts| && forall i :: 0 <= i < |parts| ==> r[i] == Quote(parts[i])
  {
    seq(|parts|, i requires 0 <= i < |parts| => Quote(parts[i]))
  }

  function Escaped(s: string): (r: seq<string>)
    ensures |r| == |s| && forall i :: 0 <= i < |s| ==> r[i] == Escape(s[i])
  {
    seq(|s|, i requires 0 <= i < |s| => Escape(s[i]))
  }

  /** Taking texts from the front is joining them from the back. */
  lemma {:induction false} JoinFront(texts: seq<string>, between: string)
    requires |texts| > 1
    ensures Join(texts, between) == texts[0] + between + Join(texts[1..], between)
    decreases |texts|
  {
    var n := |texts| - 1;
    if n == 1 {
      assert texts[..1] == [texts[0]] && texts[1..] == [texts[1]];
    } else {
      JoinFront(texts[..n], between);
      assert texts[..n][1..] == texts[1..][..n - 1] && texts[1..][n - 1] == texts[n];
      var rest := Join(texts[1..][..n - 1], between);
      assert (texts[0] + between + rest) + between + texts[n] == texts[0] + between + (rest + between + texts[n]);
    }
  }

  lemma {:induction false} EscapeAllMeans(s: string)
    ensures EscapeAll(s) == Join(Escaped(s), "")
  {
    hide Escape;
    if s != "" {
      EscapeAllMeans(s[1..]);
      assert Escaped(s)[1..] == Escaped(s[1..]);
      if |s| == 1 {
        assert Escape(s[0]) + "" == Escape(s[0]);
      } else {
        JoinFront(Escaped(s), "");
        assert Escape(s[0]) + "" + Join(Escaped(s[1..]), "") == Escape(s[0]) + Join(Escaped(s[1..]), "");
      }
    }
  }

  /** A string is its characters, each as above, between quotes. */
  lemma QuoteMeans(s: string)
    ensures Quote(s) == "\"" + Join(Escaped(s), "") + "\""
  {
    EscapeAllMeans(s);
  }

  lemma {:induction false} TailMeans(parts: seq<string>, first: string)
    ensures first + QuotedTail(parts) == Join([first] + Quoted(parts), ",") + "]"
    decreases |parts|
  {
    hide Quote;
    var all := [first] + Quoted(parts);
    if parts == [] {
      assert all == [first];
    } else {
      TailMeans(parts[1..], Quote(parts[0]));
      assert all[1..] == Quoted(parts) == [Quote(parts[0])] + Quoted(parts[1..]);
      JoinFront(all, ",");
      var rest := Join(Quoted(parts), ",");
      assert first + ("," + (rest + "]")) == (first + "," + rest) + "]";
    }
  }

  /** A list of strings is its strings with commas between them, in brackets. */
  lemma JsonStringsMean(parts: seq<string>)
    ensures JsonStrings(parts) == "[" + Join(Quoted(parts), ",") + "]"
  {
    hide Quote;
    if parts != [] {
      TailMeans(parts[1..], Quote(parts[0]));
      assert Quoted(parts) == [Quote(parts[0])] + Quoted(parts[1..]);
      assert "[" + (Join(Quoted(parts), ",") + "]") == "[" + Join(Quoted(parts), ",") + "]";
    }
  }

  // ---------------------------------------------------------------- tuples

  /** The UTF-8 bytes of one character. */
  function Utf8(c: char): seq<int>
  {
    var n := c as int;
    if n <= 0x7F then [n]
    else if n <= 0x7FF then [0xC0 + n / 0x40, 0x80 + n % 0x40]
    else if n <= 0xFFFF then [0xE0 + n / 0x1000, 0x80 + n / 0x40 % 0x40, 0x80 + n % 0x40]
    else [0xF0 + n / 0x40000, 0x80 + n / 0x1000 % 0x40, 0x80 + n / 0x40 % 0x40, 0x80 + n % 0x40]
  }

  function Utf8Text(s: string): seq<int>
  {
    if s == "" then [] else Utf8(s[0]) + Utf8Text(s[1..])
  }

  lemma {:induction false} BytesMean(s: string)
    ensures ByteLength(s) == |Utf8Text(s)|
  {
    if s != "" { BytesMean(s[1..]); }
  }

  function Prefixed(parts: seq<string>): (r: seq<string>)
    ensures |r| == |parts| && forall i :: 0 <= i < |parts| ==> r[i] == Decimal(|Utf8Text(parts[i])|) + ":" + parts[i]
  {
    seq(|parts|, i requires 0 <= i < |parts| => Decimal(|Utf8Text(parts[i])|) + ":" + parts[i])
  }

  /** A tuple is its parts one after the other, each behind its length in bytes and a colon. */
  lemma {:induction false} TupleMeans(parts: seq<string>)
    ensures EncodeTuple(parts) == Join(Prefixed(parts), "")
    decreases |parts|
  {
    hide Decimal, Utf8Text, ByteLength;
    if parts != [] {
      BytesMean(parts[0]);
      TupleMeans(parts[1..]);
      assert Prefixed(parts)[1..] == Prefixed(parts[1..]);
      var first, rest := Prefixed(parts)[0], Join(Prefixed(parts[1..]), "");
      assert Decimal(|Utf8Text(parts[0])|) + ":" + (parts[0] + rest) == first + rest;
      if |parts| == 1 {
        assert rest == "" && first + "" == first;
      } else {
        JoinFront(Prefixed(parts), "");
        assert first + "" + rest == first + rest;
      }
    }
  }
}
