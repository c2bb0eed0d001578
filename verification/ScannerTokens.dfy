/** Every text on which the scanner answers is the text of a well-separated token list. */
module ScannerTokens {
  import opened Texts
  import opened Scanner
  import opened ScannerLaws

  lemma {:induction false} LineOf(s: string) returns (text: string, newline: bool)
    ensures '\n' !in text && (newline || AfterLine(s) == "")
    ensures s == (text + (if newline then "\n" else "")) + AfterLine(s)
  {
    if s == "" {
      text, newline := "", false;
    } else if s[0] == '\n' {
      text, newline := "", true;
      assert s == "\n" + s[1..];
    } else {
      text, newline := LineOf(s[1..]);
      assert s == [s[0]] + s[1..];
      text := [s[0]] + text;
    }
  }

  /** Closing `a + b` comments is closing `a` of them, then `b`. */
  lemma {:induction false} DepthSplits(s: string, a: nat, b: nat)
    requires a > 0 && AfterBlock(s, a + b).Some?
    ensures AfterBlock(s, a).Some? && AfterBlock(AfterBlock(s, a).value, b) == AfterBlock(s, a + b)
    decreases |s|
  {
    if StartsWithTwo(s, '/', '*') {
      DepthSplits(s[2..], a + 1, b);
    } else if StartsWithTwo(s, '*', '/') {
      if a > 1 { DepthSplits(s[2..], a - 1, b); }
    } else {
      DepthSplits(s[1..], a, b);
    }
  }

  lemma {:induction false} BodyOf(s: string) returns (body: Body)
    requires AfterBlock(s, 1).Some?
    ensures s == BodyText(body) + ("*/" + AfterBlock(s, 1).value) && BodyOk(body, "*/" + AfterBlock(s, 1).value)
    decreases |s|
  {
    var after := AfterBlock(s, 1).value;
    if StartsWithTwo(s, '/', '*') {
      var inside := s[2..];
      DepthSplits(inside, 1, 1);
      var mid := AfterBlock(inside, 1).value;
      hide AfterBlock;
      var inner := BodyOf(inside);
      var rest := BodyOf(mid);
      body := Nested(inner, rest);
      NestedText(inner, rest, "*/" + after);
      assert s == "/*" + inside;
    } else if StartsWithTwo(s, '*', '/') {
      body := End;
      assert s == "*/" + s[2..];
    } else {
      hide AfterBlock;
      var rest := BodyOf(s[1..]);
      body := Text(s[0], rest);
      assert s == [s[0]] + s[1..];
      Regroup([s[0]], BodyText(rest), "*/" + after, "");
    }
  }

  lemma {:induction false} ContentOf(s: string, q: char) returns (content: string)
    requires AfterQuoted(s, q).Some?
    ensures s == (Doubled(content, q) + [q]) + AfterQuoted(s, q).value && !StartsWith(AfterQuoted(s, q).value, q)
    decreases |s|
  {
    var after := AfterQuoted(s, q).value;
    if s[0] != q {
      content := ContentOf(s[1..], q);
      DoubledPush(s[0], content, q);
      assert s == [s[0]] + s[1..];
    } else if StartsWith(s[1..], q) {
      content := ContentOf(s[2..], q);
      DoubledPush(q, content, q);
      assert s == [q, q] + s[2..];
    } else {
      content := "";
      assert s == [q] + s[1..];
      return;
    }
    Regroup(if s[0] != q then [s[0]] else [q, q], Doubled(content, q) + [q], after, "");
    Regroup(if s[0] != q then [s[0]] else [q, q], Doubled(content, q), [q], "");
    content := [s[0]] + content;
  }

  lemma DoubledPush(c: char, content: string, q: char)
    ensures Doubled([c] + content, q) == (if c == q then [q, q] else [c]) + Doubled(content, q)
  {
    assert ([c] + content)[1..] == content;
  }

  lemma {:induction false} FoundAt(s: string, close: string) returns (content: string)
    requires close != "" && AfterText(s, close).Some?
    ensures s == content + (close + AfterText(s, close).value) && ContentOk(content, close)
    decreases |s|
  {
    hide ContentOk;
    TextStep(s, close);
    if close <= s {
      content := "";
    } else {
      hide AfterText;
      var after := AfterText(s, close).value;
      var rest := FoundAt(s[1..], close);
      content := [s[0]] + rest;
      Reassociate(s[0], rest, close, after);
      NotFoundBefore(s[0], rest, close, after);
    }
  }

  lemma Reassociate(c: char, rest: string, close: string, after: string)
    ensures [c] + (rest + (close + after)) == ([c] + rest) + (close + after)
    ensures [c] + (rest + (close + after)) == (([c] + rest) + close) + after
  {
  }

  lemma TextStep(s: string, close: string)
    requires AfterText(s, close).Some?
    ensures ContentOk("", close)
    ensures close <= s ==> s == "" + (close + AfterText(s, close).value)
    ensures !(close <= s) ==> s != "" && s == [s[0]] + s[1..] && AfterText(s[1..], close) == AfterText(s, close)
  {
  }

  /** One more character in front that does not start an occurrence. */
  lemma NotFoundBefore(c: char, rest: string, close: string, after: string)
    requires ContentOk(rest, close) && !(close <= (([c] + rest) + close) + after)
    ensures ContentOk([c] + rest, close)
  {
    var content := [c] + rest;
    forall i | 0 <= i < |content|
      ensures !(close <= content[i..] + close)
    {
      if i == 0 {
        assert content[0..] == content;
      } else {
        assert content[i..] == rest[i - 1..];
      }
    }
  }

  /** Scanning `s` is taking token `t`, then scanning `after`. */
  ghost predicate Takes(s: string, t: Token, after: string)
  {
    forall words, statements ::
      Scan(s, words, statements) == Scan(after, WordsAfter(t, words), if t.Semicolon? then Finish(words, statements) else statements)
  }

  /** The first token of `s`, and what follows it. */
  lemma TokenOf(s: string) returns (t: Token, after: string)
    requires s != "" && !Skipped(s).Unterminated?
    ensures TokenOk(t, after) && s == TokenText(t) + after && |after| < |s|
    ensures s[0] == ';' <==> t.Semicolon?
    ensures Takes(s, t, after)
  {
    if s[0] == ';' {
      t, after := Semicolon, s[1..];
    } else if Skipped(s).To? {
      t, after := SkippedToken(s);
    } else if IsLetter(s[0]) {
      var n := WordLength(s);
      t, after := Word(s[..n]), s[n..];
      assert after != "" ==> after[0] == s[n];
    } else {
      t, after := Other(s[0]), s[1..];
      assert s == [s[0]] + after;
      OtherIsPlain(s[0], after);
    }
    assert s == TokenText(t) + after;
    hide TokenOk, TokenText, Skipped, WordLength, Scan;
    forall words, statements
      ensures Scan(s, words, statements) == Scan(after, WordsAfter(t, words), if t.Semicolon? then Finish(words, statements) else statements)
    {
      TokenScanned(t, after, words, statements);
    }
  }

  lemma SkippedToken(s: string) returns (t: Token, after: string)
    requires s != "" && Skipped(s).To?
    ensures Skips(t) && TokenOk(t, after) && s == TokenText(t) + after && after == Skipped(s).rest
  {
    hide AfterLine, AfterBlock, AfterQuoted, AfterText, Delimiter, BodyOk, ContentOk, IsTag;
    after := Skipped(s).rest;
    if StartsWithTwo(s, '-', '-') {
      var text, newline := LineOf(s[2..]);
      t := LineComment(text, newline);
      assert s == "--" + s[2..];
      Regroup("--", text + (if newline then "\n" else ""), after, "");
    } else if StartsWithTwo(s, '/', '*') {
      var body := BodyOf(s[2..]);
      t := BlockComment(body);
      assert s == "/*" + s[2..];
      assert "/*" + (BodyText(body) + ("*/" + after)) == ("/*" + (BodyText(body) + "*/")) + after;
    } else if s[0] == '\'' || s[0] == '"' {
      var content := ContentOf(s[1..], s[0]);
      t := Quoted(s[0], content);
      assert s == [s[0]] + s[1..];
      Regroup([s[0]], Doubled(content, s[0]) + [s[0]], after, "");
    } else {
      t := DollarOf(s);
    }
  }

  lemma DollarOf(s: string) returns (t: Token)
    requires s != "" && Delimiter(s).Some? && AfterText(s[|Delimiter(s).value|..], Delimiter(s).value).Some?
    ensures var after := AfterText(s[|Delimiter(s).value|..], Delimiter(s).value).value;
      t.Dollar? && TokenOk(t, after) && s == TokenText(t) + after
  {
    hide AfterText, ContentOk, IsTag;
    var tag := TagOf(s);
    var d := Delimiter(s).value;
    hide Delimiter;
    var content := FoundAt(s[|d|..], d);
    t := Dollar(tag, content);
    var after := AfterText(s[|d|..], d).value;
    assert s == d + s[|d|..];
    assert d + (content + (d + after)) == (d + (content + d)) + after;
  }

  /** A text the scanner answers on is a token list. */
  lemma {:induction false} Tokenize(s: string, words: seq<string>, statements: seq<seq<string>>) returns (tokens: seq<Token>)
    requires Scan(s, words, statements).Some?
    ensures WellSeparated(tokens) && Render(tokens) == s
    decreases |s|
  {
    if s == "" {
      tokens := [];
    } else {
      assert s[0] != ';' ==> !Skipped(s).Unterminated?;
      SemicolonSkipsNothing(s);
      hide Scan, Skipped;
      var t, after := TokenOf(s);
      var rest := Tokenize(after, WordsAfter(t, words), if t.Semicolon? then Finish(words, statements) else statements);
      tokens := [t] + rest;
      assert tokens[1..] == rest;
    }
  }

  lemma SemicolonSkipsNothing(s: string)
    requires s != ""
    ensures s[0] == ';' ==> Skipped(s).NoSkip?
  {
  }

  /** The scanner answers exactly on the texts of well-separated token lists, and its answer is what
      any such list of the text says. */
  lemma ScanMeans(sql: string)
    ensures Scan(sql, [], []).Some? <==> exists tokens :: WellSeparated(tokens) && Render(tokens) == sql
    ensures forall tokens :: WellSeparated(tokens) && Render(tokens) == sql ==> Scan(sql, [], []) == Some(Leading(tokens))
  {
    hide Scan, WellSeparated, Render, Leading;
    forall tokens | WellSeparated(tokens) && Render(tokens) == sql
      ensures Scan(sql, [], []) == Some(Leading(tokens))
    {
      ScanIsLeading(tokens);
    }
    if Scan(sql, [], []).Some? {
      var tokens := Tokenize(sql, [], []);
    }
  }

  /** A migration is accepted exactly when it is a token list in which no statement begins with a
      transaction command. */
  lemma AcceptedMeans(sql: string)
    ensures Scan(sql, [], []).Some? && (forall w :: w in Scan(sql, [], []).value ==> !IsControl(w)) <==>
      exists tokens :: WellSeparated(tokens) && Render(tokens) == sql && forall w :: w in Leading(tokens) ==> !IsControl(w)
  {
    hide Scan, WellSeparated, Render, Leading, IsControl;
    ScanMeans(sql);
  }
}
