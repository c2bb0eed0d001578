/** The order and the length of strings as JavaScript has them, on UTF-16 code units (section 6.1.4 of
    ECMA-262), and what the program's texts look like. */
module TextMeaning {
  import opened Texts

  /** The code units of one character: itself, or a surrogate pair. */
  function UnitsOf(c: char): (u: seq<int>)
    ensures 1 <= |u| <= 2
  {
    var n := c as int;
    if n < 0x10000 then [n] else [0xD800 + (n - 0x10000) / 0x400, 0xDC00 + (n - 0x10000) % 0x400]
  }

  function Units(s: string): seq<int>
  {
    if s == "" then [] else UnitsOf(s[0]) + Units(s[1..])
  }

  /** `x` comes before `y`: at the first place where they differ, or as a proper prefix. */
  predicate ComesBefore(x: seq<int>, y: seq<int>)
  {
    |y| > 0 && (|x| == 0 || x[0] < y[0] || (x[0] == y[0] && ComesBefore(x[1..], y[1..])))
  }

  /** Different characters differ in their units, in the order of their ranks, whatever follows. */
  lemma UnitsOrdered(a: char, b: char, x: seq<int>, y: seq<int>)
    requires CharRank(a) < CharRank(b)
    ensures ComesBefore(UnitsOf(a) + x, UnitsOf(b) + y) && !ComesBefore(UnitsOf(b) + y, UnitsOf(a) + x)
  {
    var u, v := UnitsOf(a) + x, UnitsOf(b) + y;
    var m, n := a as int, b as int;
    assert u[0] == UnitsOf(a)[0] && v[0] == UnitsOf(b)[0];
    if m >= 0x10000 && n >= 0x10000 {
      HighLow(m - 0x10000, n - 0x10000);
      if u[0] == v[0] {
        assert u[1] == UnitsOf(a)[1] && v[1] == UnitsOf(b)[1];
        assert u[1..][0] == u[1] && v[1..][0] == v[1];
      }
    } else {
      Ranges(m);
      Ranges(n);
    }
  }

  lemma HighLow(m: int, n: int)
    requires 0 <= m < n
    ensures m / 0x400 <= n / 0x400 && (m / 0x400 == n / 0x400 ==> m % 0x400 < n % 0x400)
  {
  }

  lemma Ranges(n: int)
    requires 0 <= n <= 0x10FFFF
    ensures n >= 0x10000 ==> 0xD800 <= 0xD800 + (n - 0x10000) / 0x400 < 0xDC00
  {
  }

  lemma {:induction false} SameStart(u: seq<int>, x: seq<int>, y: seq<int>)
    ensures ComesBefore(u + x, u + y) <==> ComesBefore(x, y)
  {
    if u == [] {
      assert u + x == x && u + y == y;
    } else {
      SameStart(u[1..], x, y);
      assert (u + x)[1..] == u[1..] + x && (u + y)[1..] == u[1..] + y;
    }
  }

  /** `<` on strings is the order of their code units. */
  lemma {:induction false} LessMeans(a: string, b: string)
    ensures Less(a, b) <==> ComesBefore(Units(a), Units(b))
  {
    if a != "" && b != "" {
      var x, y := Units(a[1..]), Units(b[1..]);
      if CharRank(a[0]) < CharRank(b[0]) {
        UnitsOrdered(a[0], b[0], x, y);
      } else if CharRank(b[0]) < CharRank(a[0]) {
        UnitsOrdered(b[0], a[0], y, x);
      } else {
        CharRankInjective(a[0], b[0]);
        SameStart(UnitsOf(a[0]), x, y);
        LessMeans(a[1..], b[1..]);
      }
    }
  }

  // ---------------------------------------------------------------- white space

  /** The white space and line terminators of ECMAScript, by code point. */
  const WhiteSpace: seq<int> := [
    0x9, 0xA, 0xB, 0xC, 0xD, 0x20, 0xA0, 0x1680, 0x2000, 0x2001, 0x2002, 0x2003, 0x2004, 0x2005, 0x2006, 0x2007, 0x2008, 0x2009, 0x200A,
    0x2028, 0x2029, 0x202F, 0x205F, 0x3000, 0xFEFF]

  /** `trim`: white space goes from both ends. */
  function Trim(s: string): string
    decreases |s|
  {
    if s == "" then ""
    else if s[0] as int in WhiteSpace then Trim(s[1..])
    else if s[|s| - 1] as int in WhiteSpace then Trim(s[..|s| - 1])
    else s
  }

  lemma SpaceMeans(c: char)
    ensures IsSpace(c) <==> c as int in WhiteSpace
  {
    var n := c as int;
    if 9 <= n <= 13 { assert WhiteSpace[n - 9] == n; }
    if 0x2000 <= n <= 0x200A { assert WhiteSpace[8 + n - 0x2000] == n; }
    assert WhiteSpace[5] == 0x20 && WhiteSpace[6] == 0xA0 && WhiteSpace[7] == 0x1680 && WhiteSpace[19] == 0x2028 && WhiteSpace[20] == 0x2029;
    assert WhiteSpace[21] == 0x202F && WhiteSpace[22] == 0x205F && WhiteSpace[23] == 0x3000 && WhiteSpace[24] == 0xFEFF;
  }

  /** A text is refused as empty exactly when nothing is left of it after trimming. */
  lemma {:induction false} BlankMeans(s: string)
    ensures Blank(s) <==> Trim(s) == ""
    decreases |s|
  {
    hide IsSpace;
    if s != "" {
      SpaceMeans(s[0]);
      SpaceMeans(s[|s| - 1]);
      if s[0] as int in WhiteSpace {
        BlankMeans(s[1..]);
        assert s == [s[0]] + s[1..];
      } else if s[|s| - 1] as int in WhiteSpace {
        BlankMeans(s[..|s| - 1]);
        assert s == s[..|s| - 1] + [s[|s| - 1]];
      }
    }
  }

  // ---------------------------------------------------------------- alphabets

  const Capitals := "ABCDEFGHIJKLMNOPQRSTUVWXYZ"
  const Smalls := "abcdefghijklmnopqrstuvwxyz"
  const Digits := "0123456789"
  const HexDigits := "0123456789abcdef"

  lemma CapitalMeans(c: char)
    ensures 'A' <= c <= 'Z' <==> c in Capitals
  {
    if 'A' <= c <= 'Z' { assert Capitals[c as int - 65] == c; }
  }

  lemma SmallMeans(c: char)
    ensures 'a' <= c <= 'z' <==> c in Smalls
  {
    if 'a' <= c <= 'z' { assert Smalls[c as int - 97] == c; }
  }

  lemma DigitMeans(c: char)
    ensures '0' <= c <= '9' <==> c in Digits
  {
    if '0' <= c <= '9' { assert Digits[c as int - 48] == c; }
  }
}
