/** Which keys a cutover accepts: canonical UUIDs, written in any case and with white space around them. */
module LockMeaning {
  import opened Texts
  import opened TextMeaning
  import Locks

  predicate AllHex(s: string)
  {
    forall i :: 0 <= i < |s| ==> s[i] in HexDigits
  }

  /** Five groups of hexadecimal digits; the third starts with the version, the fourth with the variant
      (section 4 of RFC 9562). */
  ghost predicate IsCanonical(s: string)
  {
    exists a: string, b: string, c: string, d: string, e: string :: IsJoined(s, a, b, c, d, e)
  }

  predicate IsJoined(s: string, a: string, b: string, c: string, d: string, e: string)
  {
    |a| == 8 && |b| == 4 && |c| == 4 && |d| == 4 && |e| == 12 && AllHex(a) && AllHex(b) && AllHex(c) && AllHex(d) && AllHex(e) &&
    c[0] in "12345678" && d[0] in "89ab" && s == a + "-" + b + "-" + c + "-" + d + "-" + e
  }

  lemma HexMeans(c: char)
    ensures Locks.IsHex(c) <==> c in HexDigits
  {
    if '0' <= c <= '9' { assert HexDigits[c as int - 48] == c; }
    if 'a' <= c <= 'f' { assert HexDigits[10 + c as int - 97] == c; }
  }

  lemma VersionMeans(c: char)
    ensures '1' <= c <= '8' <==> c in "12345678"
    ensures (c == '8' || c == '9' || c == 'a' || c == 'b') <==> c in "89ab"
  {
    if '1' <= c <= '8' { assert "12345678"[c as int - 49] == c; }
    assert "89ab"[0] == '8' && "89ab"[1] == '9' && "89ab"[2] == 'a' && "89ab"[3] == 'b';
  }

  lemma JoinedIsUuid(s: string, a: string, b: string, c: string, d: string, e: string)
    requires IsJoined(s, a, b, c, d, e)
    ensures Locks.IsUuid(s)
  {
    assert |s| == 36 && s[8] == '-' && s[13] == '-' && s[18] == '-' && s[23] == '-' && s[14] == c[0] && s[19] == d[0];
    VersionMeans(c[0]);
    VersionMeans(d[0]);
    hide Locks.IsHex;
    forall i | 0 <= i < 36 && i != 8 && i != 13 && i != 18 && i != 23
      ensures Locks.IsHex(s[i])
    {
      HexMeans(s[i]);
      assert s[i] == if i < 8 then a[i] else if i < 13 then b[i - 9] else if i < 18 then c[i - 14] else if i < 23 then d[i - 19] else e[i - 24];
    }
  }

  lemma UuidIsJoined(s: string)
    requires Locks.IsUuid(s)
    ensures IsJoined(s, s[..8], s[9..13], s[14..18], s[19..23], s[24..])
  {
    VersionMeans(s[14]);
    VersionMeans(s[19]);
    forall i | 0 <= i < 36 && i != 8 && i != 13 && i != 18 && i != 23
      ensures s[i] in HexDigits
    {
      HexMeans(s[i]);
    }
    assert s == s[..8] + "-" + s[9..13] + "-" + s[14..18] + "-" + s[19..23] + "-" + s[24..];
  }

  lemma UuidMeans(s: string)
    ensures Locks.IsUuid(s) <==> IsCanonical(s)
  {
    hide Locks.IsUuid, IsJoined;
    if Locks.IsUuid(s) { UuidIsJoined(s); }
    if a: string, b: string, c: string, d: string, e: string :| IsJoined(s, a, b, c, d, e) { JoinedIsUuid(s, a, b, c, d, e); }
  }

  // ---------------------------------------------------------------- normalized keys

  lemma {:induction false} TrimMeans(s: string)
    ensures Locks.Trim(s) == Trim(s)
    decreases |s|
  {
    hide IsSpace;
    if s != "" {
      SpaceMeans(s[0]);
      SpaceMeans(s[|s| - 1]);
      TrimMeans(s[1..]);
      TrimMeans(s[..|s| - 1]);
    }
  }

  /** `small` is `text` with its capitals made small. */
  predicate IsSmall(text: string, small: string)
  {
    |small| == |text| && forall i :: 0 <= i < |text| ==> if text[i] in Capitals then small[i] as int == text[i] as int + 32 else small[i] == text[i]
  }

  lemma LowerMeans(text: string)
    ensures IsSmall(text, Locks.Lower(text))
  {
    forall i | 0 <= i < |text|
      ensures if text[i] in Capitals then Locks.Lower(text)[i] as int == text[i] as int + 32 else Locks.Lower(text)[i] == text[i]
    {
      CapitalMeans(text[i]);
    }
  }

  /** The cutover is refused for an empty list, for a key that is no UUID once trimmed and in small letters, and
      for two keys that are then the same; else it locks exactly these, in ascending order. */
  lemma CutoverMeans(keys: seq<string>, small: seq<string>)
    requires |small| == |keys| && forall i :: 0 <= i < |keys| ==> IsSmall(Trim(keys[i]), small[i])
    ensures Locks.OrderedCutoverKeys(keys).Some? <==>
      |keys| > 0 && (forall i :: 0 <= i < |small| ==> IsCanonical(small[i])) && forall i, j :: 0 <= i < j < |small| ==> small[i] != small[j]
    ensures Locks.OrderedCutoverKeys(keys).Some? ==>
      var r := Locks.OrderedCutoverKeys(keys).value; multiset(r) == multiset(small) && forall i, j :: 0 <= i < j < |r| ==> Less(r[i], r[j])
  {
    forall i | 0 <= i < |keys|
      ensures small[i] == Locks.Lower(Locks.Trim(keys[i])) && (Locks.IsUuid(small[i]) <==> IsCanonical(small[i]))
    {
      TrimMeans(keys[i]);
      LowerMeans(Trim(keys[i]));
      OneSmall(Trim(keys[i]), small[i], Locks.Lower(Trim(keys[i])));
      UuidMeans(small[i]);
    }
    hide Locks.IsUuid, IsCanonical, IsSmall, Locks.Lower, Locks.Trim, Trim;
    assert Locks.Normalized(keys) == small;
    Locks.CutoverKeysAscend(keys);
  }

  lemma OneSmall(text: string, a: string, b: string)
    requires IsSmall(text, a) && IsSmall(text, b)
    ensures a == b
  {
    forall i | 0 <= i < |text|
      ensures a[i] == b[i]
    {
      assert a[i] as int == b[i] as int;
      assert (a[i] as int) as char == a[i] && (b[i] as int) as char == b[i];
    }
  }
}
