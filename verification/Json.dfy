/** JSON values, and `stableJson`: a text that two values share exactly when they are equal, with
    objects taken as maps. So comparing stable texts (deepEqual, uniqueItems, the schema diff) is
    comparing values. */
module Json {
  import opened Texts
  import opened Encodings

  // ---------------------------------------------------------------- numbers

  function Power(base: nat, n: nat): (p: nat)
    requires base > 0
    ensures p >= 1
  {
    if n == 0 then 1 else base * Power(base, n - 1)
  }

  const TWO_53 := 9007199254740992

  /** `r` is `m` times two to the `e`. */
  predicate IsScaled(r: real, m: int, e: int)
  {
    if e >= 0 then r == (m * Power(2, e)) as real else r * Power(2, -e) as real == m as real
  }

  /** A finite IEEE 754 double. */
  ghost predicate IsDouble(r: real)
  {
    (r == r.Floor as real && -TWO_53 as real <= r <= TWO_53 as real) ||
    exists m, e :: -TWO_53 < m < TWO_53 && -1074 <= e <= 971 && IsScaled(r, m, e)
  }

  /** The numbers of JSON as the program holds them. */
  type Double = r: real | IsDouble(r) witness 0.0

  datatype Json =
    | JNull
    | JBool(b: bool)
    | JNum(n: Double)
    | JStr(t: string)
    | JArr(items: seq<Json>)
    | JObj(fields: map<string, Json>)

  /** How finite numbers are printed; only what `NumberText` says of it is used. */
  type Printer = Double -> string

  predicate NumberChar(c: char)
  {
    IsDigit(c) || c == '-' || c == '+' || c == '.' || c == 'e' || c == 'E'
  }

  ghost predicate NumberText(num: Printer)
  {
    (forall r: Double :: |num(r)| > 0 && (IsDigit(num(r)[0]) || num(r)[0] == '-')) &&
    (forall r: Double, i :: 0 <= i < |num(r)| ==> NumberChar(num(r)[i])) &&
    (forall r: Double, q: Double :: num(r) == num(q) ==> r == q)
  }

  /** `Object.keys(o).sort()` */
  ghost function SortedKeys(keys: set<string>): (r: seq<string>)
    ensures forall k :: k in r <==> k in keys
    decreases |keys|
  {
    if keys == {} then []
    else
      LeastExists(keys);
      var k :| IsLeast(k, keys);
      [k] + SortedKeys(keys - {k})
  }

  /** `stableJson(v)` */
  ghost function Stable(v: Json, num: Printer): string
    decreases v, 2, 0
  {
    match v
    case JNull => "null"
    case JBool(b) => if b then "true" else "false"
    case JNum(n) => num(n)
    case JStr(t) => Quote(t)
    case JArr(items) => "[" + Elements(v, 0, num)
    case JObj(fields) => "{" + Members(v, SortedKeys(fields.Keys), true, num)
  }

  /** The elements of array `a` from index `i` on, and the closing bracket. */
  ghost function Elements(a: Json, i: nat, num: Printer): string
    requires a.JArr? && i <= |a.items|
    decreases a, 1, |a.items| - i
  {
    if i == |a.items| then "]"
    else (if i == 0 then "" else ",") + (Stable(a.items[i], num) + Elements(a, i + 1, num))
  }

  /** The members of object `o` under `keys`, and the closing brace. */
  ghost function Members(o: Json, keys: seq<string>, first: bool, num: Printer): string
    requires o.JObj? && forall k :: k in keys ==> k in o.fields
    decreases o, 1, |keys|
  {
    if keys == [] then "}"
    else
      (if first then "" else ",") +
      (Quote(keys[0]) + (":" + (Stable(o.fields[keys[0]], num) + Members(o, keys[1..], false, num))))
  }

  /** What may follow a value inside a JSON text. */
  predicate Ends(x: string)
  {
    x == "" || x[0] == ',' || x[0] == ']' || x[0] == '}'
  }

  lemma NumberSplit(a: string, b: string, x: string, y: string)
    requires forall i :: 0 <= i < |a| ==> NumberChar(a[i])
    requires forall i :: 0 <= i < |b| ==> NumberChar(b[i])
    requires Ends(x) && Ends(y)
    ensures a + x == b + y ==> a == b && x == y
  {
    var l, r := a + x, b + y;
    if |a| < |b| {
      assert r[|a|] == b[|a|];
      if x != "" { assert l[|a|] == x[0]; }
    }
    if |b| < |a| {
      assert l[|b|] == a[|b|];
      if y != "" { assert r[|b|] == y[0]; }
    }
    assert l[..|a|] == a && r[..|b|] == b && l[|a|..] == x && r[|b|..] == y;
  }

  /** The first character tells which kind of value follows. */
  function Kind(v: Json): char
  {
    match v
    case JNull => 'n'
    case JBool(b) => if b then 't' else 'f'
    case JNum(_) => '0'
    case JStr(_) => '"'
    case JArr(_) => '['
    case JObj(_) => '{'
  }

  lemma StableHead(v: Json, num: Printer)
    requires NumberText(num)
    ensures var t := Stable(v, num);
      |t| > 0 && (if v.JNum? then IsDigit(t[0]) || t[0] == '-' else t[0] == Kind(v)) &&
      t[0] != ',' && t[0] != ']' && t[0] != '}'
  {
  }

  lemma SameKind(a: Json, b: Json, x: string, y: string, num: Printer)
    requires NumberText(num)
    ensures Stable(a, num) + x == Stable(b, num) + y ==> Kind(a) == Kind(b)
  {
    StableHead(a, num);
    StableHead(b, num);
    hide Stable, NumberText;
    assert (Stable(a, num) + x)[0] == Stable(a, num)[0];
    assert (Stable(b, num) + y)[0] == Stable(b, num)[0];
  }

  /** A value's text is self-delimiting in front of a closing character. */
  lemma {:induction false} StableSplit(a: Json, b: Json, x: string, y: string, num: Printer)
    requires NumberText(num) && Ends(x) && Ends(y)
    ensures Stable(a, num) + x == Stable(b, num) + y ==> a == b && x == y
    decreases a, 2, 0
  {
    SameKind(a, b, x, y, num);
    Opened(a, x, num);
    Opened(b, y, num);
    if Kind(a) == Kind(b) {
      match a
      case JNum(m) =>
        hide Elements, Members;
        NumberSplit(num(m), num(b.n), x, y);
      case JStr(s) =>
        hide Elements, Members, NumberText;
        QuoteSplit(s, b.t, x, y);
      case JArr(items) =>
        hide Stable, NumberText;
        ElementsSplit(a, b, 0, x, y, num);
      case JObj(fields) =>
        hide Stable, NumberText, SortedKeys;
        MembersSplit(a, b, SortedKeys(fields.Keys), SortedKeys(b.fields.Keys), true, x, y, num);
        SameFields(fields, b.fields);
      case _ =>
        hide NumberText;
        LiteralSplit(Stable(a, num), x, y);
    }
  }

  lemma Opened(v: Json, x: string, num: Printer)
    ensures v.JArr? ==> Stable(v, num) != "" && (Stable(v, num) + x)[1..] == Elements(v, 0, num) + x
    ensures v.JObj? ==> Stable(v, num) != "" && (Stable(v, num) + x)[1..] == Members(v, SortedKeys(v.fields.Keys), true, num) + x
  {
    hide Elements, Members, SortedKeys;
  }

  lemma LiteralSplit(t: string, x: string, y: string)
    ensures t + x == t + y ==> x == y
  {
    assert (t + x)[|t|..] == x && (t + y)[|t|..] == y;
  }

  lemma SameFields(f: map<string, Json>, g: map<string, Json>)
    ensures SortedKeys(f.Keys) == SortedKeys(g.Keys) ==> f.Keys == g.Keys
    ensures SortedKeys(f.Keys) == SortedKeys(g.Keys) && (forall k :: k in SortedKeys(f.Keys) ==> k in g && f[k] == g[k]) ==> f == g
  {
    assert forall k :: k in SortedKeys(f.Keys) <==> k in f;
    assert forall k :: k in SortedKeys(g.Keys) <==> k in g;
  }

  lemma ElementsEnd(a: Json, i: nat, x: string, num: Printer)
    requires NumberText(num) && a.JArr? && i <= |a.items|
    ensures |Elements(a, i, num)| > 0
    ensures (Elements(a, i, num) + x)[0] == ']' <==> i == |a.items|
    ensures i == |a.items| ==> (Elements(a, i, num) + x)[1..] == x
    ensures i > 0 ==> Ends(Elements(a, i, num) + x)
  {
    if i < |a.items| {
      StableHead(a.items[i], num);
      hide Stable, NumberText;
    }
  }

  lemma ElementsStep(a: Json, i: nat, x: string, num: Printer)
    requires a.JArr? && i < |a.items|
    ensures (Elements(a, i, num) + x)[(if i == 0 then 0 else 1)..] == Stable(a.items[i], num) + (Elements(a, i + 1, num) + x)
    ensures Elements(a, i, num) != ""
  {
    hide Stable;
    if i == 0 {
      assert Elements(a, i, num) == Stable(a.items[i], num) + Elements(a, i + 1, num);
    }
  }

  lemma {:induction false} ElementsSplit(a: Json, b: Json, i: nat, x: string, y: string, num: Printer)
    requires NumberText(num) && Ends(x) && Ends(y) && a.JArr? && b.JArr? && i <= |a.items| && i <= |b.items|
    requires a.items[..i] == b.items[..i]
    ensures Elements(a, i, num) + x == Elements(b, i, num) + y ==> a == b && x == y
    decreases a, 1, |a.items| - i
  {
    ElementsEnd(a, i, x, num);
    ElementsEnd(b, i, y, num);
    if i == |a.items| || i == |b.items| {
      hide Elements;
      if i == |a.items| == |b.items| { assert a.items == a.items[..i] && b.items == b.items[..i]; }
    } else {
      ElementsStep(a, i, x, num);
      ElementsStep(b, i, y, num);
      ElementsEnd(a, i + 1, x, num);
      ElementsEnd(b, i + 1, y, num);
      StableSplit(a.items[i], b.items[i], Elements(a, i + 1, num) + x, Elements(b, i + 1, num) + y, num);
      if a.items[i] == b.items[i] {
        assert a.items[..i + 1] == a.items[..i] + [a.items[i]] && b.items[..i + 1] == b.items[..i] + [b.items[i]];
        ElementsSplit(a, b, i + 1, x, y, num);
      }
      hide Elements, Stable;
    }
  }

  lemma MembersEnd(o: Json, keys: seq<string>, first: bool, x: string, num: Printer)
    requires o.JObj? && forall k :: k in keys ==> k in o.fields
    ensures |Members(o, keys, first, num)| > 0
    ensures (Members(o, keys, first, num) + x)[0] == '}' <==> keys == []
    ensures keys == [] ==> (Members(o, keys, first, num) + x)[1..] == x
    ensures !first ==> Ends(Members(o, keys, first, num) + x)
  {
    hide Stable;
  }

  lemma MembersStep(o: Json, keys: seq<string>, first: bool, x: string, num: Printer)
    requires o.JObj? && keys != [] && forall k :: k in keys ==> k in o.fields
    ensures keys[0] in o.fields && forall k :: k in keys[1..] ==> k in o.fields
    ensures Members(o, keys, first, num) != ""
    ensures (Members(o, keys, first, num) + x)[(if first then 0 else 1)..] ==
            Quote(keys[0]) + (":" + (Stable(o.fields[keys[0]], num) + (Members(o, keys[1..], false, num) + x)))
  {
    hide Stable, Quote;
    var rest := Members(o, keys[1..], false, num);
    var v := Stable(o.fields[keys[0]], num);
    assert Quote(keys[0]) + (":" + (v + rest)) + x == Quote(keys[0]) + (":" + (v + (rest + x)));
    if first {
      assert Members(o, keys, first, num) == Quote(keys[0]) + (":" + (v + rest));
    } else {
      assert Members(o, keys, first, num) == "," + (Quote(keys[0]) + (":" + (v + rest)));
    }
  }

  lemma {:induction false} MembersSplit(o: Json, q: Json, ks: seq<string>, js: seq<string>, first: bool, x: string, y: string, num: Printer)
    requires NumberText(num) && Ends(x) && Ends(y) && o.JObj? && q.JObj?
    requires (forall k :: k in ks ==> k in o.fields) && (forall k :: k in js ==> k in q.fields)
    ensures Members(o, ks, first, num) + x == Members(q, js, first, num) + y ==>
      ks == js && x == y && forall k :: k in ks ==> k in q.fields && o.fields[k] == q.fields[k]
    decreases o, 1, |ks|
  {
    MembersEnd(o, ks, first, x, num);
    MembersEnd(q, js, first, y, num);
    if ks != [] && js != [] && Members(o, ks, first, num) + x == Members(q, js, first, num) + y {
      MembersStep(o, ks, first, x, num);
      MembersStep(q, js, first, y, num);
      var x', y' := Members(o, ks[1..], false, num) + x, Members(q, js[1..], false, num) + y;
      var v, w := o.fields[ks[0]], q.fields[js[0]];
      hide Members, Stable;
      QuoteSplit(ks[0], js[0], ":" + (Stable(v, num) + x'), ":" + (Stable(w, num) + y'));
      assert (":" + (Stable(v, num) + x'))[1..] == Stable(v, num) + x';
      assert (":" + (Stable(w, num) + y'))[1..] == Stable(w, num) + y';
      MembersEnd(o, ks[1..], false, x, num);
      MembersEnd(q, js[1..], false, y, num);
      StableSplit(v, w, x', y', num);
      MembersSplit(o, q, ks[1..], js[1..], false, x, y, num);
      assert ks == [ks[0]] + ks[1..] && js == [js[0]] + js[1..];
    }
  }

  /** Equal stable texts mean equal values, and the other way round. */
  lemma StableIsEquality(a: Json, b: Json, num: Printer)
    requires NumberText(num)
    ensures Stable(a, num) == Stable(b, num) <==> a == b
  {
    StableSplit(a, b, "", "", num);
    assert Stable(a, num) + "" == Stable(a, num) && Stable(b, num) + "" == Stable(b, num);
  }

  // ---------------------------------------------------------------- a printer

  /** `r` is `m` divided by ten to the `k`. */
  predicate IsDecimal(r: real, m: int, k: nat)
  {
    r * Power(10, k) as real == m as real
  }

  lemma {:induction false} PowerOfTen(k: nat)
    ensures Power(10, k) == Power(2, k) * Power(5, k)
  {
    if k > 0 {
      PowerOfTen(k - 1);
      var x, y := Power(2, k - 1), Power(5, k - 1);
      assert 10 * (x * y) == (2 * x) * (5 * y);
    }
  }

  lemma TimesFive(r: real, x: int, y: int, m: int)
    requires r * x as real == m as real
    ensures r * (x * y) as real == (m * y) as real
  {
    assert (x * y) as real == x as real * y as real && (m * y) as real == m as real * y as real;
    assert r * (x as real * y as real) == (r * x as real) * y as real;
  }

  lemma WholeIsDecimal(r: real, m: int)
    requires r == m as real
    ensures IsDecimal(r, m, 0)
  {
    assert Power(10, 0) == 1;
  }

  lemma ScaledIsDecimal(r: real, m: int, e: int) returns (d: int, k: nat)
    requires IsScaled(r, m, e)
    ensures IsDecimal(r, d, k)
  {
    hide Power;
    if e >= 0 {
      d, k := m * Power(2, e), 0;
      WholeIsDecimal(r, d);
    } else {
      d, k := m * Power(5, -e), -e;
      PowerOfTen(k);
      TimesFive(r, Power(2, k), Power(5, k), m);
    }
  }

  lemma Scale(r: Double) returns (m: int, e: int)
    requires r != r.Floor as real
    ensures IsScaled(r, m, e)
  {
    hide IsScaled;
    assert IsDouble(r);
    assert exists m, e :: -TWO_53 < m < TWO_53 && -1074 <= e <= 971 && IsScaled(r, m, e);
    m, e :| -TWO_53 < m < TWO_53 && -1074 <= e <= 971 && IsScaled(r, m, e);
  }

  /** Every finite double is a decimal fraction. */
  lemma DoubleIsDecimal(r: Double)
    ensures exists m, k: nat :: IsDecimal(r, m, k)
  {
    hide IsDecimal, IsScaled;
    if r == r.Floor as real {
      WholeIsDecimal(r, r.Floor);
    } else {
      var m, e := Scale(r);
      var d, k := ScaledIsDecimal(r, m, e);
    }
  }

  /** Integers in decimal, other numbers with an exponent. */
  ghost function Print(r: Double): string
  {
    if r == r.Floor as real then IntText(r.Floor)
    else
      DoubleIsDecimal(r);
      var m, k: nat :| IsDecimal(r, m, k);
      IntText(m) + ("e-" + Decimal(k))
  }

  predicate HasNoE(s: string)
  {
    forall i :: 0 <= i < |s| ==> s[i] != 'e'
  }

  lemma IntTextChars(n: int)
    ensures var t := IntText(n); |t| > 0 && (IsDigit(t[0]) || t[0] == '-') && HasNoE(t) && forall i :: 0 <= i < |t| ==> NumberChar(t[i])
  {
    DecimalDigits(if n < 0 then -n else n);
    hide Decimal;
  }

  lemma ExponentSplit(a: string, b: string, x: string, y: string)
    requires HasNoE(a) && HasNoE(b)
    ensures a + ("e-" + x) == b + ("e-" + y) ==> a == b && x == y
    ensures a + ("e-" + x) != b
  {
    var l, r := a + ("e-" + x), b + ("e-" + y);
    assert l[|a|] == 'e' && r[|b|] == 'e';
    if |a| < |b| { assert r[|a|] == b[|a|]; }
    if |b| < |a| { assert l[|b|] == a[|b|]; }
    assert l[..|a|] == a && r[..|b|] == b && l[|a| + 2..] == x && r[|b| + 2..] == y;
  }

  lemma SameDecimal(r: real, q: real, m: int, k: nat)
    requires IsDecimal(r, m, k) && IsDecimal(q, m, k)
    ensures r == q
  {
    var p := Power(10, k) as real;
    assert (r - q) * p == 0.0 && p >= 1.0;
  }

  /** What is printed: an integer, or the numerator and the exponent of a decimal fraction. */
  lemma PrintIs(r: Double) returns (whole: bool, m: int, k: nat)
    ensures whole ==> r == m as real && Print(r) == IntText(m)
    ensures !whole ==> IsDecimal(r, m, k) && Print(r) == IntText(m) + ("e-" + Decimal(k))
  {
    if r == r.Floor as real {
      whole, m, k := true, r.Floor, 0;
    } else {
      DoubleIsDecimal(r);
      whole := false;
      m, k := PrintedParts(r);
    }
  }

  lemma PrintedParts(r: Double) returns (m: int, k: nat)
    requires r != r.Floor as real
    ensures IsDecimal(r, m, k) && Print(r) == IntText(m) + ("e-" + Decimal(k))
  {
    DoubleIsDecimal(r);
    var i, j: nat :| IsDecimal(r, i, j) && Print(r) == IntText(i) + ("e-" + Decimal(j));
    m, k := i, j;
  }

  lemma PrintInjective(r: Double, q: Double)
    ensures Print(r) == Print(q) ==> r == q
  {
    var whole, m, k := PrintIs(r);
    var whole', m', k' := PrintIs(q);
    hide Print, IsDecimal, IntText, Decimal;
    IntTextChars(m);
    IntTextChars(m');
    IntTextInjective(m, m');
    DecimalInjective(k, k');
    ExponentSplit(IntText(m), IntText(m'), Decimal(k), Decimal(k'));
    ExponentSplit(IntText(m'), IntText(m), Decimal(k'), Decimal(k));
    if !whole && !whole' && m == m' && k == k' { SameDecimal(r, q, m, k); }
  }

  lemma PrintChars(r: Double)
    ensures |Print(r)| > 0 && (IsDigit(Print(r)[0]) || Print(r)[0] == '-') && forall i :: 0 <= i < |Print(r)| ==> NumberChar(Print(r)[i])
  {
    var whole, m, k := PrintIs(r);
    hide Print, IntText, Decimal;
    IntTextChars(m);
    DecimalDigits(k);
    if !whole {
      var t := IntText(m);
      assert Print(r)[0] == t[0];
      forall i | 0 <= i < |Print(r)|
        ensures NumberChar(Print(r)[i])
      {
        if i >= |t| + 2 { assert Print(r)[i] == Decimal(k)[i - |t| - 2]; }
      }
    }
  }

  ghost function DecimalPrinter(): Printer
  {
    (r: Double) => Print(r)
  }

  /** There is a printer as `NumberText` asks for. */
  lemma DecimalPrints()
    ensures NumberText(DecimalPrinter())
  {
    hide Print, NumberChar, IsDigit;
    var num := DecimalPrinter();
    forall r: Double
      ensures |num(r)| > 0 && (IsDigit(num(r)[0]) || num(r)[0] == '-') && forall i :: 0 <= i < |num(r)| ==> NumberChar(num(r)[i])
    {
      PrintChars(r);
    }
    forall r: Double, q: Double
      ensures num(r) == num(q) ==> r == q
    {
      PrintInjective(r, q);
    }
  }

  /** With it: two values have one stable text exactly when they are equal, for all values. */
  lemma StableTextsDiffer(a: Json, b: Json)
    ensures Stable(a, DecimalPrinter()) == Stable(b, DecimalPrinter()) <==> a == b
  {
    hide Stable, NumberText;
    DecimalPrints();
    StableIsEquality(a, b, DecimalPrinter());
  }
}
