/** SQL text as a list of tokens, and the scanner proved against it: it answers exactly on the texts
    that are token lists, and then with the first two words of each statement that has one. */
module ScannerLaws {
  import opened Texts
  import opened Scanner

  /** The inside of a block comment: text and nested comments. */
  datatype Body = End | Text(c: char, rest: Body) | Nested(inner: Body, rest: Body)

  datatype Token =
    | Word(text: string)
    | Quoted(quote: char, content: string)
    | LineComment(text: string, newline: bool)
    | BlockComment(body: Body)
    | Dollar(tag: string, content: string)
    | Semicolon
    | Other(c: char)

  // ---------------------------------------------------------------- texts of tokens

  function BodyText(b: Body): string
  {
    match b
    case End => ""
    case Text(c, rest) => [c] + BodyText(rest)
    case Nested(inner, rest) => "/*" + (BodyText(inner) + ("*/" + BodyText(rest)))
  }

  /** The content with every quote doubled. */
  function Doubled(content: string, quote: char): string
  {
    if content == "" then "" else (if content[0] == quote then [quote, quote] else [content[0]]) + Doubled(content[1..], quote)
  }

  function Tag(tag: string): string
  {
    "$" + tag + "$"
  }

  function TokenText(t: Token): string
  {
    match t
    case Word(text) => text
    case Quoted(q, content) => [q] + (Doubled(content, q) + [q])
    case LineComment(text, newline) => "--" + (text + (if newline then "\n" else ""))
    case BlockComment(body) => "/*" + (BodyText(body) + "*/")
    case Dollar(tag, content) => Tag(tag) + (content + Tag(tag))
    case Semicolon => ";"
    case Other(c) => [c]
  }

  function Render(tokens: seq<Token>): string
  {
    if tokens == [] then "" else TokenText(tokens[0]) + Render(tokens[1..])
  }

  // ---------------------------------------------------------------- well separated

  /** Before `after`, no character of the body makes up the start or the end of a comment. */
  predicate BodyOk(b: Body, after: string)
    decreases b
  {
    match b
    case End => true
    case Text(c, rest) =>
      BodyOk(rest, after) && !StartsWithTwo([c] + (BodyText(rest) + after), '/', '*') && !StartsWithTwo([c] + (BodyText(rest) + after), '*', '/')
    case Nested(inner, rest) => BodyOk(inner, "*/" + (BodyText(rest) + after)) && BodyOk(rest, after)
  }

  predicate IsTag(tag: string)
  {
    tag == "" || (IsLetter(tag[0]) && forall i :: 0 <= i < |tag| ==> IsTagChar(tag[i]))
  }

  /** Nothing before the end of `content` closes it. */
  predicate ContentOk(content: string, close: string)
  {
    forall i :: 0 <= i < |content| ==> !(close <= content[i..] + close)
  }

  /** A character that starts no word, literal, comment or dollar quote and ends no statement. */
  ghost predicate OtherOk(c: char, after: string)
  {
    c != ';' && !IsLetter(c) && c != '\'' && c != '"' && !(c == '-' && StartsWith(after, '-')) && !(c == '/' && StartsWith(after, '*')) &&
    !(c == '$' && exists tag :: IsTag(tag) && tag + "$" <= after)
  }

  /** `t` is a token of its kind when `after` follows it. */
  ghost predicate TokenOk(t: Token, after: string)
  {
    match t
    case Word(text) => text != "" && IsLetter(text[0]) && (forall i :: 0 <= i < |text| ==> IsWordChar(text[i])) && (after == "" || !IsWordChar(after[0]))
    case Quoted(q, content) => (q == '\'' || q == '"') && !StartsWith(after, q)
    case LineComment(text, newline) => '\n' !in text && (newline || after == "")
    case BlockComment(body) => BodyOk(body, "*/" + after)
    case Dollar(tag, content) => IsTag(tag) && ContentOk(content, Tag(tag))
    case Semicolon => true
    case Other(c) => OtherOk(c, after)
  }

  ghost predicate WellSeparated(tokens: seq<Token>)
  {
    tokens == [] || (TokenOk(tokens[0], Render(tokens[1..])) && WellSeparated(tokens[1..]))
  }

  // ---------------------------------------------------------------- what should come out

  function WordsOf(tokens: seq<Token>): seq<string>
  {
    if tokens == [] then [] else (if tokens[0].Word? then [Upper(tokens[0].text)] else []) + WordsOf(tokens[1..])
  }

  function FirstTwo(words: seq<string>): seq<string>
  {
    if |words| <= 2 then words else words[..2]
  }

  /** The tokens up to the first semicolon, and those after it. */
  function Statement(tokens: seq<Token>): (n: nat)
    ensures n <= |tokens| && (n < |tokens| ==> tokens[n].Semicolon?) && forall i :: 0 <= i < n ==> !tokens[i].Semicolon?
  {
    if tokens == [] || tokens[0].Semicolon? then 0 else 1 + Statement(tokens[1..])
  }

  /** For each statement with a word, its first two words. */
  function Leading(tokens: seq<Token>): seq<seq<string>>
    decreases |tokens|
  {
    var n := Statement(tokens);
    var words := FirstTwo(WordsOf(tokens[..n]));
    (if words == [] then [] else [words]) + (if n == |tokens| then [] else Leading(tokens[n + 1..]))
  }

  // ---------------------------------------------------------------- each token is skipped as a whole

  lemma {:induction false} LineSkipped(text: string, after: string)
    requires '\n' !in text
    ensures AfterLine(text + "\n" + after) == after
    ensures AfterLine(text) == ""
  {
    if text == "" {
      assert ("\n" + after)[1..] == after;
      assert text + "\n" + after == "\n" + after;
    } else {
      LineSkipped(text[1..], after);
      assert (text + "\n" + after)[1..] == text[1..] + "\n" + after;
    }
  }

  lemma {:induction false} QuotedSkipped(content: string, q: char, after: string)
    requires !StartsWith(after, q)
    ensures AfterQuoted(Doubled(content, q) + [q] + after, q) == Some(after)
  {
    var s := Doubled(content, q) + [q] + after;
    if content == "" {
      assert s == [q] + after;
      assert s[1..] == after;
    } else {
      QuotedSkipped(content[1..], q, after);
      var rest := Doubled(content[1..], q) + [q] + after;
      if content[0] == q {
        assert s == [q, q] + rest;
        assert s[2..] == rest;
      } else {
        assert s == [content[0]] + rest;
        assert s[1..] == rest;
      }
    }
  }

  lemma BlockStep(s: string, c: char, depth: nat)
    requires depth > 0
    ensures AfterBlock("/*" + s, depth) == AfterBlock(s, depth + 1)
    ensures AfterBlock("*/" + s, depth) == AfterBlock(s, depth - 1)
    ensures !StartsWithTwo([c] + s, '/', '*') && !StartsWithTwo([c] + s, '*', '/') ==> AfterBlock([c] + s, depth) == AfterBlock(s, depth)
  {
    assert ("/*" + s)[2..] == s && ("*/" + s)[2..] == s && ([c] + s)[1..] == s;
  }

  lemma Regroup(a: string, b: string, c: string, d: string)
    ensures (a + b) + c == a + (b + c)
    ensures (a + (b + (c + d))) == ((a + b) + c) + d
  {
  }

  /** A comment body is passed at any depth. */
  lemma {:induction false} BodySkipped(b: Body, after: string, depth: nat)
    requires BodyOk(b, after) && depth > 0
    ensures AfterBlock(BodyText(b) + after, depth) == AfterBlock(after, depth)
    decreases b
  {
    hide AfterBlock;
    match b
    case End => assert BodyText(b) + after == after;
    case Text(c, rest) =>
      BlockStep(BodyText(rest) + after, c, depth);
      Regroup([c], BodyText(rest), after, "");
      BodySkipped(rest, after, depth);
    case Nested(inner, rest) =>
      hide StartsWithTwo;
      var tail := BodyText(rest) + after;
      NestedText(inner, rest, after);
      BlockStep(BodyText(inner) + ("*/" + tail), 'x', depth);
      BodySkipped(inner, "*/" + tail, depth + 1);
      BlockStep(tail, 'x', depth + 1);
      BodySkipped(rest, after, depth);
  }

  lemma NestedText(inner: Body, rest: Body, after: string)
    ensures BodyText(Nested(inner, rest)) + after == "/*" + (BodyText(inner) + ("*/" + (BodyText(rest) + after)))
  {
    var x, y := BodyText(inner), BodyText(rest);
    assert ("/*" + (x + ("*/" + y))) + after == "/*" + (x + ("*/" + (y + after)));
  }

  lemma {:induction false} TextFound(content: string, close: string, after: string)
    requires ContentOk(content, close) && close != ""
    ensures AfterText(content + (close + after), close) == Some(after)
    decreases |content|
  {
    var s := content + (close + after);
    if content == "" {
      assert s == close + after;
      assert s[|close|..] == after;
    } else {
      assert !(close <= content[0..] + close);
      assert content[0..] == content && s[..|close|] == (content + close)[..|close|];
      assert s[1..] == content[1..] + (close + after);
      forall i | 0 <= i < |content[1..]|
        ensures !(close <= content[1..][i..] + close)
      {
        assert content[1..][i..] == content[i + 1..];
      }
      TextFound(content[1..], close, after);
    }
  }

  lemma {:induction false} TagRun(tag: string, after: string)
    requires (forall i :: 0 <= i < |tag| ==> IsTagChar(tag[i])) && (after == "" || !IsTagChar(after[0]))
    ensures TagLength(tag + after) == |tag|
  {
    if tag == "" {
      assert tag + after == after;
    } else {
      assert (tag + after)[1..] == tag[1..] + after;
      TagRun(tag[1..], after);
    }
  }

  lemma TagIsDelimiter(tag: string, after: string)
    requires IsTag(tag)
    ensures Delimiter(Tag(tag) + after) == Some(Tag(tag))
  {
    hide TagLength;
    var s := Tag(tag) + after;
    assert s[1..] == tag + ("$" + after);
    TagRun(tag, "$" + after);
    assert s[1..][|tag|..] == "$" + after;
    assert s[..|tag| + 2] == Tag(tag);
  }

  /** The tag of a delimiter. */
  lemma TagOf(s: string) returns (tag: string)
    requires Delimiter(s).Some?
    ensures IsTag(tag) && Delimiter(s).value == Tag(tag)
  {
    var n := |Delimiter(s).value| - 2;
    tag := s[1..n + 1];
    var run := s[1..];
    assert forall i :: 0 <= i < n ==> tag[i] == run[i];
    assert s[..n + 2] == "$" + tag + "$" by {
      assert run[n..][0] == s[n + 1];
    }
  }

  /** A dollar sign opens a quote exactly when a tag and another dollar sign follow. */
  lemma DollarOpens(after: string)
    ensures Delimiter("$" + after).Some? <==> exists tag :: IsTag(tag) && tag + "$" <= after
  {
    hide Delimiter, IsTag;
    var s := "$" + after;
    if Delimiter(s).Some? {
      var tag := TagOf(s);
      assert Tag(tag) <= s && s[1..] == after && Tag(tag)[1..] == tag + "$";
      assert tag + "$" <= after;
    }
    if exists tag :: IsTag(tag) && tag + "$" <= after {
      var tag :| IsTag(tag) && tag + "$" <= after;
      var rest := after[|tag| + 1..];
      assert after == tag + "$" + rest;
      assert s == Tag(tag) + rest;
      TagIsDelimiter(tag, rest);
    }
  }

  /** Such a character is one that the scanner steps over. */
  lemma OtherIsPlain(c: char, after: string)
    ensures OtherOk(c, after) <==> c != ';' && !IsLetter(c) && Skipped([c] + after).NoSkip?
  {
    hide AfterLine, AfterBlock, AfterQuoted, AfterText, IsTag;
    var s := [c] + after;
    assert StartsWith(after, '-') <==> |s| >= 2 && s[1] == '-';
    assert StartsWith(after, '*') <==> |s| >= 2 && s[1] == '*';
    if c == '$' { DollarOpens(after); } else { assert Delimiter(s).None?; }
    hide Delimiter;
  }

  lemma {:induction false} WordRun(text: string, after: string)
    requires (forall i :: 0 <= i < |text| ==> IsWordChar(text[i])) && (after == "" || !IsWordChar(after[0]))
    ensures WordLength(text + after) == |text|
  {
    if text == "" {
      assert text + after == after;
    } else {
      assert (text + after)[1..] == text[1..] + after;
      WordRun(text[1..], after);
    }
  }

  // ---------------------------------------------------------------- the scanner takes one token at a time

  predicate Skips(t: Token)
  {
    t.Quoted? || t.LineComment? || t.BlockComment? || t.Dollar?
  }

  lemma LineText(text: string, newline: bool, after: string)
    requires TokenOk(LineComment(text, newline), after)
    ensures var s := TokenText(LineComment(text, newline)) + after; StartsWithTwo(s, '-', '-') && AfterLine(s[2..]) == after
  {
    LineSkipped(text, after);
    var s := TokenText(LineComment(text, newline)) + after;
    if newline { assert s[2..] == text + "\n" + after; } else { assert s[2..] == text; }
  }

  lemma BlockText(body: Body, after: string)
    requires TokenOk(BlockComment(body), after)
    ensures var s := TokenText(BlockComment(body)) + after; StartsWithTwo(s, '/', '*') && AfterBlock(s[2..], 1) == Some(after)
  {
    hide BodyOk;
    var s := TokenText(BlockComment(body)) + after;
    assert s[2..] == BodyText(body) + ("*/" + after);
    BodySkipped(body, "*/" + after, 1);
    BlockStep(after, 'x', 1);
    assert AfterBlock(after, 0) == Some(after);
    hide AfterBlock;
  }

  lemma QuotedText(q: char, content: string, after: string)
    requires TokenOk(Quoted(q, content), after)
    ensures var s := TokenText(Quoted(q, content)) + after; s != "" && s[0] == q && AfterQuoted(s[1..], q) == Some(after)
  {
    var s := TokenText(Quoted(q, content)) + after;
    assert s[1..] == Doubled(content, q) + [q] + after;
    QuotedSkipped(content, q, after);
  }

  lemma DollarText(tag: string, content: string, after: string)
    requires TokenOk(Dollar(tag, content), after)
    ensures var s := TokenText(Dollar(tag, content)) + after;
      StartsWith(s, '$') && Delimiter(s) == Some(Tag(tag)) && |Tag(tag)| <= |s| && AfterText(s[|Tag(tag)|..], Tag(tag)) == Some(after)
  {
    hide ContentOk, AfterText;
    var s := TokenText(Dollar(tag, content)) + after;
    assert s == Tag(tag) + (content + (Tag(tag) + after));
    TagIsDelimiter(tag, content + (Tag(tag) + after));
    assert s[|Tag(tag)|..] == content + (Tag(tag) + after);
    TextFound(content, Tag(tag), after);
  }

  /** Comments and literals are skipped whole. */
  lemma TokenSkipped(t: Token, after: string)
    requires TokenOk(t, after) && Skips(t)
    ensures var s := TokenText(t) + after; s != "" && s[0] != ';' && Skipped(s) == To(after)
  {
    hide AfterLine, AfterBlock, AfterQuoted, AfterText, Delimiter;
    match t
    case LineComment(text, newline) => LineText(text, newline, after);
    case BlockComment(body) => BlockText(body, after);
    case Quoted(q, content) => QuotedText(q, content, after);
    case Dollar(tag, content) => DollarText(tag, content, after);
  }

  /** A letter starts no comment or literal. */
  lemma LetterSkipsNothing(s: string)
    requires s != "" && IsLetter(s[0])
    ensures Skipped(s).NoSkip?
  {
  }

  function WordsAfter(t: Token, words: seq<string>): seq<string>
  {
    if t.Semicolon? then [] else if t.Word? then Push(words, t.text) else words
  }

  lemma TokenScanned(t: Token, after: string, words: seq<string>, statements: seq<seq<string>>)
    requires TokenOk(t, after)
    ensures Scan(TokenText(t) + after, words, statements) ==
      Scan(after, WordsAfter(t, words), if t.Semicolon? then Finish(words, statements) else statements)
  {
    var s := TokenText(t) + after;
    match t
    case Semicolon => assert s[1..] == after;
    case Word(text) =>
      WordRun(text, after);
      LetterSkipsNothing(s);
      hide Skipped, WordLength;
      assert s[|text|..] == after && s[..|text|] == text;
    case Other(c) =>
      OtherIsPlain(c, after);
      hide Skipped, WordLength, OtherOk;
      assert s == [c] + after && s[1..] == after;
    case _ =>
      TokenSkipped(t, after);
      hide Skipped, WordLength, TokenOk, TokenText;
  }

  // ---------------------------------------------------------------- the words that come out

  /** The result of scanning `tokens` with `words` already read. */
  function Continued(tokens: seq<Token>, words: seq<string>): seq<seq<string>>
  {
    var n := Statement(tokens);
    var all := FirstTwo(words + WordsOf(tokens[..n]));
    (if all == [] then [] else [all]) + (if n == |tokens| then [] else Leading(tokens[n + 1..]))
  }

  lemma ContinuedStep(tokens: seq<Token>, words: seq<string>)
    requires tokens != [] && |words| <= 2
    ensures Continued(tokens, words) ==
      if tokens[0].Semicolon? then Finish(words, []) + Leading(tokens[1..]) else Continued(tokens[1..], WordsAfter(tokens[0], words))
  {
    hide Leading, Upper;
    var n, rest := Statement(tokens), tokens[1..];
    if n > 0 {
      assert tokens[..n] == [tokens[0]] + rest[..n - 1];
      assert WordsOf(tokens[..n]) == (if tokens[0].Word? then [Upper(tokens[0].text)] else []) + WordsOf(rest[..n - 1]) by {
        assert tokens[..n][1..] == rest[..n - 1];
      }
      assert n < |tokens| ==> tokens[n + 1..] == rest[n..];
      hide WordsOf, Statement;
      TwoWords(words, if tokens[0].Word? then tokens[0].text else "", WordsOf(rest[..n - 1]));
      assert words + ([] + WordsOf(rest[..n - 1])) == words + WordsOf(rest[..n - 1]);
    } else {
      assert tokens[..0] == [] && words + WordsOf([]) == words;
    }
  }

  lemma TwoWords(words: seq<string>, text: string, more: seq<string>)
    requires |words| <= 2
    ensures FirstTwo(words + ([Upper(text)] + more)) == FirstTwo(Push(words, text) + more)
  {
    hide Upper;
    if |words| < 2 {
      assert words + ([Upper(text)] + more) == (words + [Upper(text)]) + more;
    } else {
      assert (words + ([Upper(text)] + more))[..2] == words;
      assert FirstTwo(words + more) == words;
    }
  }

  lemma ScanNothing(words: seq<string>, statements: seq<seq<string>>)
    requires |words| <= 2
    ensures Scan("", words, statements) == Some(statements + Continued([], words))
  {
    var tokens: seq<Token> := [];
    assert Statement(tokens) == 0 && tokens[..0] == [];
    assert words + WordsOf([]) == words;
    assert Continued([], words) == (if words == [] then [] else [words]) + [];
    assert statements + ((if words == [] then [] else [words]) + []) == Finish(words, statements);
  }

  lemma FinishFirst(words: seq<string>, statements: seq<seq<string>>, more: seq<seq<string>>)
    ensures statements + (Finish(words, []) + more) == Finish(words, statements) + more
  {
    if words == [] { assert [] + more == more; } else { assert statements + ([words] + more) == (statements + [words]) + more; }
  }

  lemma {:induction false} ScanTokens(tokens: seq<Token>, words: seq<string>, statements: seq<seq<string>>)
    requires WellSeparated(tokens) && |words| <= 2
    ensures Scan(Render(tokens), words, statements) == Some(statements + Continued(tokens, words))
    decreases |tokens|
  {
    hide TokenOk, TokenText, Scan, Continued, Upper, Leading, Finish;
    if tokens == [] {
      ScanNothing(words, statements);
    } else {
      var rest := tokens[1..];
      TokenScanned(tokens[0], Render(rest), words, statements);
      ContinuedStep(tokens, words);
      if tokens[0].Semicolon? {
        ScanTokens(rest, [], Finish(words, statements));
        LeadingIsContinued(rest);
        FinishFirst(words, statements, Leading(rest));
      } else {
        ScanTokens(rest, WordsAfter(tokens[0], words), statements);
      }
    }
  }

  lemma LeadingIsContinued(tokens: seq<Token>)
    ensures Leading(tokens) == Continued(tokens, [])
  {
    assert [] + WordsOf(tokens[..Statement(tokens)]) == WordsOf(tokens[..Statement(tokens)]);
    hide WordsOf;
  }

  /** On the text of a well-separated token list the scanner answers with the first two words of
      each statement that has one. */
  lemma ScanIsLeading(tokens: seq<Token>)
    requires WellSeparated(tokens)
    ensures Scan(Render(tokens), [], []) == Some(Leading(tokens))
  {
    hide Scan, WellSeparated, Leading, Continued;
    ScanTokens(tokens, [], []);
    LeadingIsContinued(tokens);
    assert [] + Leading(tokens) == Leading(tokens);
  }
}
