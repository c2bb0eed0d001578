/** The scanner that finds the leading words of each top-level SQL statement of a migration. The
    lexical rules are those of section 4.1 of the PostgreSQL 16 manual. */
module Scanner {
  import opened Texts

  // ---------------------------------------------------------------- characters

  predicate IsLetter(c: char)
  {
    'A' <= c <= 'Z' || 'a' <= c <= 'z' || c == '_'
  }

  predicate IsTagChar(c: char)
  {
    IsLetter(c) || '0' <= c <= '9'
  }

  predicate IsWordChar(c: char)
  {
    IsTagChar(c) || c == '$'
  }

  /** The first character of `s`, if there is one, is `c`. */
  predicate StartsWith(s: string, c: char)
  {
    s != "" && s[0] == c
  }

  predicate StartsWithTwo(s: string, c: char, d: char)
  {
    |s| >= 2 && s[0] == c && s[1] == d
  }

  function Upper(s: string): (r: string)
    ensures |r| == |s|
  {
    seq(|s|, i requires 0 <= i < |s| => if 'a' <= s[i] <= 'z' then (s[i] as int - 32) as char else s[i])
  }

  // ---------------------------------------------------------------- what is skipped, as suffixes

  function AfterLine(s: string): (rest: string)
    ensures |rest| <= |s|
  {
    if s == "" then "" else if s[0] == '\n' then s[1..] else AfterLine(s[1..])
  }

  function AfterBlock(s: string, depth: nat): (rest: Option<string>)
    ensures rest.Some? ==> |rest.value| <= |s|
    decreases |s|
  {
    if depth == 0 then Some(s)
    else if s == "" then None
    else if StartsWithTwo(s, '/', '*') then AfterBlock(s[2..], depth + 1)
    else if StartsWithTwo(s, '*', '/') then AfterBlock(s[2..], depth - 1)
    else AfterBlock(s[1..], depth)
  }

  function AfterQuoted(s: string, quote: char): (rest: Option<string>)
    ensures rest.Some? ==> |rest.value| <= |s|
    decreases |s|
  {
    if s == "" then None
    else if s[0] != quote then AfterQuoted(s[1..], quote)
    else if StartsWith(s[1..], quote) then AfterQuoted(s[2..], quote)
    else Some(s[1..])
  }

  /** How many leading characters of `s` satisfy the tag rule. */
  function TagLength(s: string): (n: nat)
    ensures n <= |s| && forall i :: 0 <= i < n ==> IsTagChar(s[i])
    ensures n < |s| ==> !IsTagChar(s[n])
  {
    if s == "" || !IsTagChar(s[0]) then 0 else 1 + TagLength(s[1..])
  }

  function WordLength(s: string): (n: nat)
    ensures n <= |s| && forall i :: 0 <= i < n ==> IsWordChar(s[i])
    ensures n < |s| ==> !IsWordChar(s[n])
  {
    if s == "" || !IsWordChar(s[0]) then 0 else 1 + WordLength(s[1..])
  }

  /** `dollarQuoteDelimiter`: `$tag$` at the start of `s`. */
  function Delimiter(s: string): (d: Option<string>)
    ensures d.Some? ==> |d.value| >= 2 && d.value <= s
  {
    if !StartsWith(s, '$') then None
    else
      var tag := s[1..];
      var n := if tag != "" && IsLetter(tag[0]) then TagLength(tag) else 0;
      if StartsWith(tag[n..], '$') then Some(s[..n + 2]) else None
  }

  /** What follows the first occurrence of `text` in `s`. */
  function AfterText(s: string, text: string): (rest: Option<string>)
    ensures rest.Some? ==> |rest.value| <= |s|
    decreases |s|
  {
    if text <= s then Some(s[|text|..]) else if s == "" then None else AfterText(s[1..], text)
  }

  // ---------------------------------------------------------------- the scanner

  function Finish(words: seq<string>, statements: seq<seq<string>>): seq<seq<string>>
  {
    if words != [] then statements + [words] else statements
  }

  function Push(words: seq<string>, word: string): seq<string>
  {
    if |words| < 2 then words + [Upper(word)] else words
  }

  /** Where the scan goes on after a comment or a literal; `None` where it throws. */
  datatype Skip = NoSkip | Unterminated | To(rest: string)

  function SkipOf(rest: Option<string>): Skip
  {
    if rest.None? then Unterminated else To(rest.value)
  }

  function Skipped(s: string): (r: Skip)
    requires s != ""
    ensures r.To? ==> |r.rest| < |s|
  {
    if StartsWithTwo(s, '-', '-') then To(AfterLine(s[2..]))
    else if StartsWithTwo(s, '/', '*') then SkipOf(AfterBlock(s[2..], 1))
    else if s[0] == '\'' || s[0] == '"' then SkipOf(AfterQuoted(s[1..], s[0]))
    else if Delimiter(s).Some? then SkipOf(AfterText(s[|Delimiter(s).value|..], Delimiter(s).value))
    else NoSkip
  }

  /** `topLevelStatementWords` from the suffix `s` on. */
  function Scan(s: string, words: seq<string>, statements: seq<seq<string>>): Option<seq<seq<string>>>
    decreases |s|
  {
    if s == "" then Some(Finish(words, statements))
    else if s[0] == ';' then Scan(s[1..], [], Finish(words, statements))
    else
      match Skipped(s)
      case Unterminated => None
      case To(rest) => Scan(rest, words, statements)
      case NoSkip =>
        if IsLetter(s[0]) then Scan(s[WordLength(s)..], Push(words, s[..WordLength(s)]), statements)
        else Scan(s[1..], words, statements)
  }

  // ---------------------------------------------------------------- the scanner as it runs

  /** `sql.indexOf(text, from)`; the result lies at or after `from`, or there is none. */
  method IndexOf(sql: string, text: string, from: nat) returns (at: int)
    requires from <= |sql|
    ensures at < 0 <==> AfterText(sql[from..], text).None?
    ensures at >= 0 ==> from <= at && at + |text| <= |sql| && AfterText(sql[from..], text) == Some(sql[at + |text|..])
  {
    var i := from;
    while true
      invariant from <= i <= |sql| && AfterText(sql[from..], text) == AfterText(sql[i..], text)
      decreases |sql| - i
    {
      if text <= sql[i..] {
        assert sql[i..][|text|..] == sql[i + |text|..];
        return i;
      }
      if i == |sql| { return -1; }
      assert sql[i..][1..] == sql[i + 1..];
      i := i + 1;
    }
  }

  method SkipLineComment(sql: string, from: nat) returns (index: nat)
    requires from <= |sql|
    ensures index <= |sql| && sql[index..] == AfterLine(sql[from..])
  {
    index := from;
    while index < |sql| && sql[index] != '\n'
      invariant from <= index <= |sql| && AfterLine(sql[from..]) == AfterLine(sql[index..])
    {
      assert sql[index..][1..] == sql[index + 1..];
      index := index + 1;
    }
    if index < |sql| {
      assert sql[index..][1..] == sql[index + 1..];
      index := index + 1;
    }
  }

  method SkipBlockComment(sql: string, from: nat) returns (index: Option<nat>)
    requires from <= |sql|
    ensures index.None? <==> AfterBlock(sql[from..], 1).None?
    ensures index.Some? ==> index.value <= |sql| && AfterBlock(sql[from..], 1) == Some(sql[index.value..])
  {
    var i, depth := from, 1;
    while i < |sql| && depth > 0
      invariant from <= i <= |sql| && 0 <= depth && AfterBlock(sql[from..], 1) == AfterBlock(sql[i..], depth)
      decreases |sql| - i
    {
      assert sql[i..][1..] == sql[i + 1..];
      assert i + 1 < |sql| ==> sql[i..][2..] == sql[i + 2..];
      if sql[i] == '/' && i + 1 < |sql| && sql[i + 1] == '*' {
        depth, i := depth + 1, i + 2;
      } else if sql[i] == '*' && i + 1 < |sql| && sql[i + 1] == '/' {
        depth, i := depth - 1, i + 2;
      } else {
        i := i + 1;
      }
    }
    index := if depth > 0 then None else Some(i);
  }

  method SkipQuoted(sql: string, from: nat, quote: char) returns (index: Option<nat>)
    requires from <= |sql|
    ensures index.None? <==> AfterQuoted(sql[from..], quote).None?
    ensures index.Some? ==> index.value <= |sql| && AfterQuoted(sql[from..], quote) == Some(sql[index.value..])
  {
    var i := from;
    while i < |sql|
      invariant from <= i <= |sql| && AfterQuoted(sql[from..], quote) == AfterQuoted(sql[i..], quote)
    {
      assert sql[i..][1..] == sql[i + 1..];
      assert i + 1 < |sql| ==> sql[i..][2..] == sql[i + 2..];
      if sql[i] != quote {
        i := i + 1;
      } else if i + 1 < |sql| && sql[i + 1] == quote {
        i := i + 2;
      } else {
        return Some(i + 1);
      }
    }
    return None;
  }

  method EndOfWord(sql: string, start: nat) returns (index: nat)
    requires start < |sql| && IsLetter(sql[start])
    ensures start < index <= |sql| && index == start + WordLength(sql[start..])
  {
    index := start + 1;
    assert sql[start..][1..] == sql[start + 1..];
    while index < |sql| && IsWordChar(sql[index])
      invariant start < index <= |sql| && WordLength(sql[start..]) == index - start + WordLength(sql[index..])
    {
      assert sql[index..][1..] == sql[index + 1..];
      index := index + 1;
    }
  }

  /** The comment or literal that starts at `index`: whether there is one, and where it ends. */
  method SkipAt(sql: string, index: nat) returns (there: bool, end: Option<nat>)
    requires index < |sql|
    ensures there <==> !Skipped(sql[index..]).NoSkip?
    ensures end.Some? ==> there && index < end.value <= |sql| && Skipped(sql[index..]) == To(sql[end.value..])
    ensures there && end.None? ==> Skipped(sql[index..]).Unterminated?
  {
    hide AfterLine, AfterBlock, AfterQuoted, AfterText, Delimiter;
    var s := sql[index..];
    assert s[1..] == sql[index + 1..] && (|s| >= 2 ==> s[2..] == sql[index + 2..]);
    var c, second := sql[index], index + 1 < |sql|;
    there := true;
    if c == '-' && second && sql[index + 1] == '-' {
      var at := SkipLineComment(sql, index + 2);
      end := Some(at);
    } else if c == '/' && second && sql[index + 1] == '*' {
      end := SkipBlockComment(sql, index + 2);
    } else if c == '\'' || c == '"' {
      end := SkipQuoted(sql, index + 1, c);
    } else {
      there, end := SkipDollar(sql, index);
      return;
    }
    if end.Some? { assert |sql[end.value..]| < |s|; }
  }

  method SkipDollar(sql: string, index: nat) returns (there: bool, end: Option<nat>)
    requires index < |sql| && sql[index] != '\'' && sql[index] != '"'
    requires !StartsWithTwo(sql[index..], '-', '-') && !StartsWithTwo(sql[index..], '/', '*')
    ensures there <==> !Skipped(sql[index..]).NoSkip?
    ensures end.Some? ==> there && index < end.value <= |sql| && Skipped(sql[index..]) == To(sql[end.value..])
    ensures there && end.None? ==> Skipped(sql[index..]).Unterminated?
  {
    hide AfterText, AfterLine, AfterBlock, AfterQuoted;
    var delimiter := Delimiter(sql[index..]);
    hide Delimiter;
    if delimiter.None? { return false, None; }
    var d := delimiter.value;
    assert sql[index..][|d|..] == sql[index + |d|..];
    var closing := IndexOf(sql, d, index + |d|);
    there, end := true, if closing < 0 then None else Some(closing + |d|);
  }

  /** `topLevelStatementWords` */
  method TopLevelStatementWords(sql: string) returns (r: Option<seq<seq<string>>>)
    ensures r == Scan(sql, [], [])
  {
    hide Skipped, WordLength;
    var statements: seq<seq<string>>, words: seq<string>, index := [], [], 0;
    assert sql[0..] == sql;
    while index < |sql|
      invariant 0 <= index <= |sql| && Scan(sql, [], []) == Scan(sql[index..], words, statements)
      decreases |sql| - index
    {
      ghost var s := sql[index..];
      assert s[1..] == sql[index + 1..];
      if sql[index] == ';' {
        statements, words, index := Finish(words, statements), [], index + 1;
        continue;
      }
      var there, end := SkipAt(sql, index);
      if there {
        if end.None? { return None; }
        index := end.value;
      } else if IsLetter(sql[index]) {
        var stop := EndOfWord(sql, index);
        assert sql[index..stop] == s[..WordLength(s)] && sql[stop..] == s[WordLength(s)..];
        words, index := Push(words, sql[index..stop]), stop;
      } else {
        index := index + 1;
      }
    }
    r := Some(Finish(words, statements));
  }

  /** A statement that would begin or end a transaction. */
  predicate IsControl(words: seq<string>)
  {
    words != [] &&
    (words[0] in ["ABORT", "BEGIN", "COMMIT", "END", "RELEASE", "ROLLBACK", "SAVEPOINT"] ||
     (words[0] in ["START", "PREPARE"] && |words| > 1 && words[1] == "TRANSACTION"))
  }

  /** `assertNoTransactionControl` */
  method AssertNoTransactionControl(sql: string) returns (accepted: bool)
    ensures accepted <==> Scan(sql, [], []).Some? && forall w :: w in Scan(sql, [], []).value ==> !IsControl(w)
  {
    hide Scan, IsControl;
    var statements := TopLevelStatementWords(sql);
    if statements.None? { return false; }
    var i := 0;
    while i < |statements.value|
      invariant 0 <= i <= |statements.value| && forall k :: 0 <= k < i ==> !IsControl(statements.value[k])
    {
      if IsControl(statements.value[i]) { return false; }
      i := i + 1;
    }
    return true;
  }
}
