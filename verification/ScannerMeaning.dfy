/** Which migrations are refused, said on the tokens alone: a word is the command that its letters spell in
    either case, and it counts when it is the first word of its statement. */
module ScannerMeaning {
  import opened Texts
  import opened TextMeaning
  import opened Scanner
  import opened ScannerLaws
  import opened ScannerTokens

  // ---------------------------------------------------------------- the alphabet

  /** Words start with a letter or an underscore; tags go on with digits, words also with a dollar sign. */
  lemma AlphabetMeans(c: char)
    ensures IsLetter(c) <==> c in Capitals || c in Smalls || c == '_'
    ensures IsTagChar(c) <==> c in Capitals || c in Smalls || c in Digits || c == '_'
    ensures IsWordChar(c) <==> c in Capitals || c in Smalls || c in Digits || c == '_' || c == '$'
  {
    CapitalMeans(c);
    SmallMeans(c);
    DigitMeans(c);
  }

  // ---------------------------------------------------------------- commands

  /** `word` is `name`, in capitals, in small letters or mixed. */
  predicate Spells(word: string, name: string)
  {
    |word| == |name| && forall i :: 0 <= i < |name| ==> word[i] == name[i] || word[i] as int == name[i] as int + 32
  }

  predicate AllCapitals(name: string)
  {
    forall i :: 0 <= i < |name| ==> 'A' <= name[i] <= 'Z'
  }

  lemma SpellsMeans(word: string, name: string)
    requires AllCapitals(name)
    ensures Spells(word, name) <==> Upper(word) == name
  {
    if Spells(word, name) { assert Upper(word) == name; }
    if Upper(word) == name {
      forall i | 0 <= i < |name|
        ensures word[i] == name[i] || word[i] as int == name[i] as int + 32
      {
        assert Upper(word)[i] == name[i];
      }
    }
  }

  /** Word `k` is the first of its statement. */
  predicate FirstWord(tokens: seq<Token>, k: nat)
  {
    k < |tokens| && tokens[k].Word? &&
    forall i :: 0 <= i < k && tokens[i].Word? ==> exists j :: i < j < k && tokens[j].Semicolon?
  }

  /** Word `m` comes next after word `k` in its statement. */
  predicate NextWord(tokens: seq<Token>, k: nat, m: nat)
  {
    k < m < |tokens| && tokens[m].Word? && forall i :: k < i < m ==> !tokens[i].Word? && !tokens[i].Semicolon?
  }

  predicate SpellsEnd(word: string)
  {
    Spells(word, "ABORT") || Spells(word, "BEGIN") || Spells(word, "COMMIT") || Spells(word, "END") || Spells(word, "RELEASE") ||
    Spells(word, "ROLLBACK") || Spells(word, "SAVEPOINT")
  }

  /** The statement of word `k` begins or ends a transaction. */
  ghost predicate CommandAt(tokens: seq<Token>, k: nat)
  {
    FirstWord(tokens, k) &&
    (SpellsEnd(tokens[k].text) ||
     ((Spells(tokens[k].text, "START") || Spells(tokens[k].text, "PREPARE")) &&
      exists m: nat :: NextWord(tokens, k, m) && Spells(tokens[m].text, "TRANSACTION")))
  }

  ghost predicate HasCommand(tokens: seq<Token>)
  {
    exists k: nat :: CommandAt(tokens, k)
  }

  lemma NamesAreCapitals()
    ensures AllCapitals("ABORT") && AllCapitals("BEGIN") && AllCapitals("COMMIT") && AllCapitals("END") && AllCapitals("RELEASE")
    ensures AllCapitals("ROLLBACK") && AllCapitals("SAVEPOINT") && AllCapitals("START") && AllCapitals("PREPARE") && AllCapitals("TRANSACTION")
  {
  }

  lemma EndMeans(word: string)
    ensures SpellsEnd(word) <==> Upper(word) in ["ABORT", "BEGIN", "COMMIT", "END", "RELEASE", "ROLLBACK", "SAVEPOINT"]
  {
    NamesAreCapitals();
    hide AllCapitals, Spells, Upper;
    SpellsMeans(word, "ABORT");
    SpellsMeans(word, "BEGIN");
    SpellsMeans(word, "COMMIT");
    SpellsMeans(word, "END");
    SpellsMeans(word, "RELEASE");
    SpellsMeans(word, "ROLLBACK");
    SpellsMeans(word, "SAVEPOINT");
  }

  lemma ControlMeans(words: seq<string>)
    ensures IsControl(words) <==>
      words != [] &&
      (words[0] in ["ABORT", "BEGIN", "COMMIT", "END", "RELEASE", "ROLLBACK", "SAVEPOINT"] ||
       ((words[0] == "START" || words[0] == "PREPARE") && |words| > 1 && words[1] == "TRANSACTION"))
  {
  }

  // ---------------------------------------------------------------- one statement

  /** The next word of `tokens` is at `a`, or there is none and `a` is their end. */
  lemma {:induction false} NextAt(tokens: seq<Token>) returns (a: nat)
    ensures a <= |tokens| && (forall i :: 0 <= i < a ==> !tokens[i].Word?) && (a < |tokens| ==> tokens[a].Word?)
    ensures WordsOf(tokens) == if a == |tokens| then [] else [Upper(tokens[a].text)] + WordsOf(tokens[a + 1..])
  {
    hide Upper;
    if tokens == [] || tokens[0].Word? {
      a := 0;
    } else {
      var b := NextAt(tokens[1..]);
      a := b + 1;
      assert b < |tokens| - 1 ==> tokens[1..][b + 1..] == tokens[a + 1..];
      assert [] + WordsOf(tokens[1..]) == WordsOf(tokens[1..]);
    }
  }

  /** The first statement, up to `n`: word `a` and, if there is one, word `b` after it. */
  lemma Found(tokens: seq<Token>, n: nat) returns (a: nat, b: nat)
    requires n == Statement(tokens)
    ensures a <= n && (a == n ==> WordsOf(tokens[..n]) == [] && forall i :: 0 <= i < n ==> !tokens[i].Word?)
    ensures a < n ==>
      a < b <= n && FirstWord(tokens, a) && WordsOf(tokens[..n]) != [] && WordsOf(tokens[..n])[0] == Upper(tokens[a].text) &&
      (b == n ==> |WordsOf(tokens[..n])| == 1) &&
      (b < n ==> tokens[b].Word? && |WordsOf(tokens[..n])| > 1 && WordsOf(tokens[..n])[1] == Upper(tokens[b].text)) &&
      forall i :: a < i < b ==> !tokens[i].Word? && !tokens[i].Semicolon?
  {
    hide Upper, WordsOf;
    var line := tokens[..n];
    a := NextAt(line);
    b := n;
    assert forall i :: 0 <= i < n ==> line[i] == tokens[i] && !tokens[i].Semicolon?;
    if a < n { b := FoundNext(tokens, n, a, WordsOf(line)); }
  }

  lemma FoundNext(tokens: seq<Token>, n: nat, a: nat, words: seq<string>) returns (b: nat)
    requires a < n <= |tokens| && tokens[a].Word? && words == [Upper(tokens[a].text)] + WordsOf(tokens[..n][a + 1..])
    requires forall i :: 0 <= i < n ==> !tokens[i].Semicolon?
    ensures a < b <= n && (b == n ==> |words| == 1) && (b < n ==> tokens[b].Word? && |words| > 1 && words[1] == Upper(tokens[b].text))
    ensures forall i :: a < i < b ==> !tokens[i].Word? && !tokens[i].Semicolon?
  {
    hide Upper, WordsOf;
    var rest := tokens[..n][a + 1..];
    var c := NextAt(rest);
    b := a + 1 + c;
    assert c < |rest| ==> rest[c] == tokens[b];
    forall i | a < i < b
      ensures !tokens[i].Word? && !tokens[i].Semicolon?
    {
      assert rest[i - a - 1] == tokens[i];
    }
  }

  lemma NextIs(tokens: seq<Token>, n: nat, a: nat, b: nat)
    requires n == Statement(tokens) && a < b <= n && (b < n ==> tokens[b].Word?) && forall i :: a < i < b ==> !tokens[i].Word? && !tokens[i].Semicolon?
    ensures forall m: nat :: NextWord(tokens, a, m) <==> m == b && b < n
  {
    assert n < |tokens| ==> tokens[n].Semicolon?;
    forall m: nat
      ensures NextWord(tokens, a, m) <==> m == b && b < n
    {
    }
  }

  lemma FirstIs(tokens: seq<Token>, n: nat, a: nat)
    requires n == Statement(tokens) && a <= n && (a < n ==> FirstWord(tokens, a)) && (a == n ==> forall i :: 0 <= i < n ==> !tokens[i].Word?)
    ensures forall k: nat :: k < n && FirstWord(tokens, k) ==> k == a
  {
    forall k: nat | k < n && FirstWord(tokens, k)
      ensures k == a
    {
      assert tokens[k].Word? && (a < n ==> tokens[a].Word?);
    }
  }

  /** The first statement begins with a command exactly when its first two words say so. */
  lemma LineMeans(tokens: seq<Token>, n: nat)
    requires n == Statement(tokens)
    ensures IsControl(FirstTwo(WordsOf(tokens[..n]))) <==> exists k: nat :: k < n && CommandAt(tokens, k)
  {
    hide IsControl, Upper, Spells, SpellsEnd, FirstWord, NextWord, WordsOf, Statement;
    var a, b := Found(tokens, n);
    var words := WordsOf(tokens[..n]);
    ControlMeans(FirstTwo(words));
    FirstIs(tokens, n, a);
    if a < n {
      NextIs(tokens, n, a, b);
      FirstInside(tokens, a);
      EndMeans(tokens[a].text);
      NamesAreCapitals();
      SpellsMeans(tokens[a].text, "START");
      SpellsMeans(tokens[a].text, "PREPARE");
      if b < n { SpellsMeans(tokens[b].text, "TRANSACTION"); }
      assert IsControl(FirstTwo(words)) <==> CommandAt(tokens, a);
    }
  }

  // ---------------------------------------------------------------- the statements after it

  lemma FirstShifts(tokens: seq<Token>, n: nat, k: nat)
    requires n < |tokens| && tokens[n].Semicolon?
    ensures FirstWord(tokens, n + 1 + k) <==> FirstWord(tokens[n + 1..], k)
  {
    var rest := tokens[n + 1..];
    if FirstWord(tokens, n + 1 + k) {
      forall i | 0 <= i < k && rest[i].Word?
        ensures exists j :: i < j < k && rest[j].Semicolon?
      {
        assert tokens[n + 1 + i].Word?;
        var j :| n + 1 + i < j < n + 1 + k && tokens[j].Semicolon?;
        assert rest[j - n - 1].Semicolon?;
      }
    }
    if FirstWord(rest, k) {
      forall i | 0 <= i < n + 1 + k && tokens[i].Word?
        ensures exists j :: i < j < n + 1 + k && tokens[j].Semicolon?
      {
        if i <= n {
          assert tokens[n].Semicolon?;
        } else {
          assert rest[i - n - 1].Word?;
          var j :| i - n - 1 < j < k && rest[j].Semicolon?;
          assert tokens[n + 1 + j].Semicolon?;
        }
      }
    }
  }

  lemma NextShifts(tokens: seq<Token>, n: nat, k: nat, m: nat)
    requires n < |tokens|
    ensures NextWord(tokens, n + 1 + k, n + 1 + m) <==> NextWord(tokens[n + 1..], k, m)
  {
    var rest := tokens[n + 1..];
    if NextWord(tokens, n + 1 + k, n + 1 + m) {
      assert forall i :: k < i < m ==> rest[i] == tokens[n + 1 + i];
    }
    if NextWord(rest, k, m) {
      assert forall i :: n + 1 + k < i < n + 1 + m ==> tokens[i] == rest[i - n - 1];
    }
  }

  lemma CommandShifts(tokens: seq<Token>, n: nat, k: nat)
    requires n < |tokens| && tokens[n].Semicolon?
    ensures CommandAt(tokens, n + 1 + k) <==> CommandAt(tokens[n + 1..], k)
  {
    var rest := tokens[n + 1..];
    FirstShifts(tokens, n, k);
    FirstInside(tokens, n + 1 + k);
    FirstInside(rest, k);
    hide FirstWord, Spells, SpellsEnd;
    if FirstWord(rest, k) {
      assert rest[k] == tokens[n + 1 + k];
      if m: nat :| NextWord(tokens, n + 1 + k, m) && Spells(tokens[m].text, "TRANSACTION") {
        NextShifts(tokens, n, k, m - n - 1);
        assert rest[m - n - 1] == tokens[m];
      }
      if m: nat :| NextWord(rest, k, m) && Spells(rest[m].text, "TRANSACTION") {
        NextShifts(tokens, n, k, m);
        assert rest[m] == tokens[n + 1 + m];
      }
    }
  }

  lemma FirstInside(tokens: seq<Token>, k: nat)
    ensures FirstWord(tokens, k) ==> k < |tokens| && tokens[k].Word?
  {
  }

  /** Some statement begins with a command, by its leading words. */
  ghost predicate Leads(tokens: seq<Token>)
  {
    exists w :: w in Leading(tokens) && IsControl(w)
  }

  lemma {:induction false} LeadsMeans(tokens: seq<Token>)
    ensures Leads(tokens) <==> HasCommand(tokens)
    decreases |tokens|
  {
    hide IsControl, HasCommand, Leads, WordsOf, FirstTwo;
    var n := Statement(tokens);
    LineMeans(tokens, n);
    LeadsSplit(tokens, n);
    CommandSplit(tokens, n);
    if n < |tokens| { LeadsMeans(tokens[n + 1..]); }
  }

  /** A command leads the first statement or one after it. */
  lemma LeadsSplit(tokens: seq<Token>, n: nat)
    requires n == Statement(tokens)
    ensures Leads(tokens) <==> IsControl(FirstTwo(WordsOf(tokens[..n]))) || (n < |tokens| && Leads(tokens[n + 1..]))
  {
    hide IsControl, WordsOf, FirstTwo;
    var words := FirstTwo(WordsOf(tokens[..n]));
    EmptyIsNone();
    var first := if words == [] then [] else [words];
    var rest := if n == |tokens| then [] else Leading(tokens[n + 1..]);
    assert Leading(tokens) == first + rest;
    hide Leading;
    if IsControl(words) { assert words in first && words in first + rest; }
    if w :| w in rest && IsControl(w) { assert w in first + rest; }
  }

  lemma CommandSplit(tokens: seq<Token>, n: nat)
    requires n == Statement(tokens)
    ensures HasCommand(tokens) <==> (exists k: nat :: k < n && CommandAt(tokens, k)) || (n < |tokens| && HasCommand(tokens[n + 1..]))
  {
    hide CommandAt, Statement;
    CommandInside(tokens);
    if n < |tokens| {
      NotAtSemicolon(tokens, n);
      if k: nat :| CommandAt(tokens, k) && k > n { CommandShifts(tokens, n, k - n - 1); }
      var rest := tokens[n + 1..];
      if k: nat :| CommandAt(rest, k) { CommandShifts(tokens, n, k); }
    }
  }

  lemma EmptyIsNone()
    ensures !IsControl([])
  {
  }

  lemma CommandInside(tokens: seq<Token>)
    ensures forall k: nat :: CommandAt(tokens, k) ==> k < |tokens|
  {
  }

  lemma NotAtSemicolon(tokens: seq<Token>, n: nat)
    requires n < |tokens| && tokens[n].Semicolon?
    ensures !CommandAt(tokens, n)
  {
  }

  /** A migration is refused when a statement of it begins or ends a transaction, accepted when none does,
      and refused when it is no list of tokens at all. */
  method CheckMigration(sql: string) returns (accepted: bool)
    ensures forall tokens :: WellSeparated(tokens) && Render(tokens) == sql ==> (accepted <==> !HasCommand(tokens))
    ensures accepted ==> exists tokens :: WellSeparated(tokens) && Render(tokens) == sql
  {
    hide Scan, IsControl, Leading, WellSeparated, Render, HasCommand;
    accepted := AssertNoTransactionControl(sql);
    ScanMeans(sql);
    forall tokens | WellSeparated(tokens) && Render(tokens) == sql
      ensures accepted <==> !HasCommand(tokens)
    {
      LeadsMeans(tokens);
    }
  }
}
