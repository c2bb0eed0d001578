/** Strings as the program sees them, and the order `<` that JavaScript puts on them.

    A `string` is a sequence of Unicode scalar values. JavaScript compares UTF-16 code units,
    so a supplementary character sorts below U+E000..U+FFFF: `CharRank` gives that order. */
module Texts {

  datatype Option<+T> = None | Some(value: T)

  function CharRank(c: char): int
  {
    var n := c as int;
    if 0xE000 <= n <= 0xFFFF then n + 0x200000 else n
  }

  lemma CharRankInjective(a: char, b: char)
    requires CharRank(a) == CharRank(b)
    ensures a == b
  {
    assert (a as int) as char == a && (b as int) as char == b;
  }

  /** `a < b` on strings: lexicographic on UTF-16 code units. */
  predicate Less(a: string, b: string)
  {
    |b| > 0 &&
    (|a| == 0 ||
     CharRank(a[0]) < CharRank(b[0]) ||
     (CharRank(a[0]) == CharRank(b[0]) && Less(a[1..], b[1..])))
  }

  predicate AtMost(a: string, b: string)
  {
    a == b || Less(a, b)
  }

  lemma {:induction false} LessTotal(a: string, b: string)
    ensures Less(a, b) || a == b || Less(b, a)
    ensures !(Less(a, b) && Less(b, a))
    ensures a == b ==> !Less(a, b)
  {
    if |a| > 0 && |b| > 0 && CharRank(a[0]) == CharRank(b[0]) {
      CharRankInjective(a[0], b[0]);
      LessTotal(a[1..], b[1..]);
      assert a == [a[0]] + a[1..] && b == [b[0]] + b[1..];
    }
  }

  lemma {:induction false} LessTransitive(a: string, b: string, c: string)
    requires Less(a, b) && Less(b, c)
    ensures Less(a, c)
  {
    if |a| > 0 && CharRank(a[0]) == CharRank(b[0]) == CharRank(c[0]) {
      LessTransitive(a[1..], b[1..], c[1..]);
    }
  }

  ghost predicate IsLeast(k: string, keys: set<string>)
  {
    k in keys && forall j :: j in keys ==> AtMost(k, j)
  }

  /** The least string of a non-empty set exists. */
  lemma {:induction false} LeastExists(keys: set<string>)
    requires keys != {}
    ensures exists k :: IsLeast(k, keys)
    decreases |keys|
  {
    var x :| x in keys;
    var rest := keys - {x};
    if rest == {} {
      assert keys == {x};
      assert IsLeast(x, keys);
    } else {
      LeastExists(rest);
      var y :| IsLeast(y, rest);
      LessTotal(x, y);
      if Less(x, y) {
        forall j | j in rest
          ensures AtMost(x, j)
        {
          if j != y { LessTransitive(x, y, j); }
        }
        assert IsLeast(x, keys);
      } else {
        assert IsLeast(y, keys);
      }
    }
  }

  /** The characters `String.prototype.trim` removes. */
  predicate IsSpace(c: char)
  {
    var n := c as int;
    9 <= n <= 13 || n == 32 || n == 0xA0 || n == 0x1680 || 0x2000 <= n <= 0x200A ||
    n == 0x2028 || n == 0x2029 || n == 0x202F || n == 0x205F || n == 0x3000 || n == 0xFEFF
  }

  /** `value.trim().length === 0` */
  predicate Blank(s: string)
  {
    forall i :: 0 <= i < |s| ==> IsSpace(s[i])
  }

  /** Insertion into a list sorted by `<`. */
  function Insert(x: string, xs: seq<string>): seq<string>
  {
    if xs == [] || AtMost(x, xs[0]) then [x] + xs else [xs[0]] + Insert(x, xs[1..])
  }

  function Sort(xs: seq<string>): seq<string>
  {
    if xs == [] then [] else Insert(xs[0], Sort(xs[1..]))
  }

  predicate Sorted(xs: seq<string>)
  {
    forall i, j :: 0 <= i < j < |xs| ==> AtMost(xs[i], xs[j])
  }

  lemma {:induction false} InsertSorts(x: string, xs: seq<string>)
    requires Sorted(xs)
    ensures Sorted(Insert(x, xs))
    ensures multiset(Insert(x, xs)) == multiset(xs) + multiset{x}
  {
    if xs == [] {
    } else if AtMost(x, xs[0]) {
      forall j | 0 <= j < |xs|
        ensures AtMost(x, xs[j])
      {
        if j > 0 && x != xs[0] && xs[0] != xs[j] {
          assert AtMost(xs[0], xs[j]);
          LessTransitive(x, xs[0], xs[j]);
        }
      }
      var r := Insert(x, xs);
      assert forall i :: 0 < i < |r| ==> r[i] == xs[i - 1];
    } else {
      LessTotal(x, xs[0]);
      var rest := xs[1..];
      InsertSorts(x, rest);
      var ins := Insert(x, rest);
      assert xs == [xs[0]] + rest;
      forall j | 0 <= j < |ins|
        ensures AtMost(xs[0], ins[j])
      {
        assert ins[j] in multiset(ins);
        if ins[j] != x {
          assert ins[j] in multiset(rest);
          assert ins[j] in rest;
          var i :| 0 <= i < |rest| && rest[i] == ins[j];
          assert AtMost(xs[0], xs[i + 1]);
        }
      }
      var r := Insert(x, xs);
      assert r == [xs[0]] + ins;
      assert forall i :: 0 < i < |r| ==> r[i] == ins[i - 1];
    }
  }

  lemma {:induction false} SortSorts(xs: seq<string>)
    ensures Sorted(Sort(xs))
    ensures multiset(Sort(xs)) == multiset(xs)
  {
    if xs != [] {
      SortSorts(xs[1..]);
      InsertSorts(xs[0], Sort(xs[1..]));
      assert xs == [xs[0]] + xs[1..];
    }
  }

  /** Two sorted lists with the same elements are the same list. */
  lemma {:induction false} SortedUnique(xs: seq<string>, ys: seq<string>)
    requires Sorted(xs) && Sorted(ys)
    requires multiset(xs) == multiset(ys)
    ensures xs == ys
  {
    assert |multiset(xs)| == |xs| && |multiset(ys)| == |ys|;
    if xs != [] {
      HeadAtMost(xs, ys);
      HeadAtMost(ys, xs);
      LessTotal(xs[0], ys[0]);
      assert xs == [xs[0]] + xs[1..] && ys == [ys[0]] + ys[1..];
      assert multiset(xs[1..]) == multiset(xs) - multiset{xs[0]};
      assert multiset(ys[1..]) == multiset(ys) - multiset{ys[0]};
      SortedUnique(xs[1..], ys[1..]);
    }
  }

  lemma HeadAtMost(xs: seq<string>, ys: seq<string>)
    requires Sorted(xs) && xs != [] && ys != []
    requires multiset(xs) == multiset(ys)
    ensures AtMost(xs[0], ys[0])
  {
    assert ys[0] in multiset(ys);
    assert ys[0] in xs;
  }
}
