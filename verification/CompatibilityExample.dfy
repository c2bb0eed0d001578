/** Two documents that pass the checks although a definition behind a `oneOf` has changed. */
module CompatibilityExample {
  import opened Texts
  import opened Json
  import opened Schema
  import opened Compatibility
  import opened CompatibilityLaws
  import opened CompatibilityNeeds
  import opened SchemaTotal
  import opened CompatibilityChecks

  const OldText := JObj(map["type" := JStr("string"), "maxLength" := JNum(1.0)])
  const NewText := JObj(map["type" := JStr("string"), "maxLength" := JNum(3.0)])
  const NullNode := JObj(map["type" := JStr("null")])
  const Cursor := JObj(map["oneOf" := JArr([RefTo("A"), NullNode])])

  const Before := Doc(map["A" := OldText, "T" := Cursor])
  const After := Doc(map["A" := NewText, "T" := Cursor])

  lemma Documents()
    ensures Defs(Before) == map["A" := OldText, "T" := Cursor] && Defs(After) == map["A" := NewText, "T" := Cursor]
    ensures HasDefs(Before) && HasDefs(After) && Same(Before, After, "$id")
    ensures Resolve(After, "#/$defs/A") == Some(NewText)
  {
    DocFacts(map["A" := OldText, "T" := Cursor]);
    DocFacts(map["A" := NewText, "T" := Cursor]);
    assert "#/$defs/A"[|"#/$defs/"|..] == "A";
    hide HasDefs, Same;
  }

  lemma Forms()
    ensures FormOf(NewText) == FormOf(OldText) == FormOf(NullNode) == Plain
    ensures FormOf(RefTo("A")) == Reference("#/$defs/A") && FormOf(Cursor) == Choice([RefTo("A"), NullNode])
  {
  }

  lemma TextCompatible()
    ensures CompareOk(OldText, NewText) && Careful(OldText, NewText)
  {
    TextKeywords();
    hide Constraints, KeywordsOk;
    assert Properties(OldText) == map[] && Required(OldText) == {} && Properties(NewText) == map[] && Required(NewText) == {};
    assert NamesOk(OldText, NewText);
    hide NamesOk;
  }

  lemma TextKeywords()
    ensures Constraints(OldText) && Constraints(NewText) && KeywordsOk(OldText, NewText)
  {
  }

  lemma CursorCompatible()
    ensures CompareOk(Cursor, Cursor) && Careful(Cursor, Cursor)
  {
    hide CompareOk, Careful;
    assert Readable(Cursor) by {
      assert Constraints(Cursor) && PropertiesReadable(Cursor);
      hide Constraints, PropertiesReadable;
    }
    hide Readable;
    Reflexive(Cursor);
    CarefulSelf(Cursor);
  }

  lemma TextParts(x: Json)
    ensures Part(x, NewText) <==> x == NewText
    ensures Part(x, NullNode) <==> x == NullNode
    ensures Part(x, RefTo("A")) <==> x == RefTo("A")
  {
    Forms();
    hide FormOf;
  }

  lemma CursorParts(x: Json)
    ensures Part(x, Cursor) ==> x == Cursor || x == RefTo("A") || x == NullNode
  {
    Forms();
    TextParts(x);
    hide FormOf, RefTo;
    var list := Cursor.fields["oneOf"].items;
    assert list == [RefTo("A"), NullNode];
    assert forall i :: 0 <= i < |list| ==> list[i] == RefTo("A") || list[i] == NullNode;
  }

  lemma Nodes(x: Json)
    requires Within(x, After)
    ensures x == NewText || x == Cursor || x == RefTo("A") || x == NullNode
  {
    Documents();
    hide Defs, Part, RefTo;
    var name :| name in Defs(After) && Part(x, Defs(After)[name]);
    TextParts(x);
    CursorParts(x);
  }

  lemma Depths()
    ensures Descends(After, NewText, 0) && Descends(After, NullNode, 0) && Descends(After, NullNode, 1) && Descends(After, NewText, 1)
    ensures Descends(After, RefTo("A"), 1) && Descends(After, Cursor, 2)
  {
    Forms();
    Documents();
    hide FormOf, Resolve;
    assert Descends(After, NewText, 0) && Descends(After, NullNode, 1);
    assert Descends(After, RefTo("A"), 1);
    var branches := [RefTo("A"), NullNode];
    assert forall i :: 0 <= i < |branches| ==> Descends(After, branches[i], 1);
  }

  lemma NodesOk(h: Host)
    ensures WellFormed(h, After)
  {
    forall n | Within(n, After)
      ensures NodeOk(h, After, n)
    {
      Nodes(n);
      Depths();
      Forms();
      PlainNodesOk(h);
      hide Within, FormOf, Descends, TypesKnown, PropertiesReadable, PatternCompiles, RefTo;
    }
  }

  lemma PlainNodesOk(h: Host)
    ensures TypesKnown(NewText) && PropertiesReadable(NewText) && PatternCompiles(h, NewText)
    ensures TypesKnown(NullNode) && PropertiesReadable(NullNode) && PatternCompiles(h, NullNode)
  {
  }

  lemma Leaves(p: Json)
    ensures IsLeaf(After, RefTo("A"), 1, p) ==> p == NewText
    ensures IsLeaf(After, NullNode, 1, p) ==> p == NullNode
  {
    Forms();
    Documents();
    hide FormOf, Resolve;
  }

  lemma KindsApart()
    ensures TypesApart(NewText, NullNode) && TypesApart(NullNode, NewText)
  {
    assert TypesOf(NewText) == Some([JStr("string")]) && TypesOf(NullNode) == Some([JStr("null")]);
    assert "string"[0] != "null"[0];
  }

  lemma CursorApart()
    ensures BranchesApart(After, RefTo("A"), NullNode, 1) && BranchesApart(After, NullNode, RefTo("A"), 1)
  {
    hide Descends, IsLeaf, TypesApart, RefTo;
    Depths();
    KindsApart();
    forall p, q
      ensures IsLeaf(After, RefTo("A"), 1, p) && IsLeaf(After, NullNode, 1, q) ==> LeavesApart(After, p, q, 1) && LeavesApart(After, q, p, 1)
    {
      Leaves(p);
      Leaves(q);
    }
  }

  lemma CursorChecked()
    ensures ChoicesChecked(Before, After)
  {
    hide Unchanged, BranchesApart, RefTo;
    forall n | Within(n, After) && FormOf(n).Choice?
      ensures BranchesChecked(Before, After, FormOf(n).branches)
    {
      Nodes(n);
      Forms();
      hide Within, FormOf;
      CursorApart();
      var branches := [RefTo("A"), NullNode];
      assert branches[0] == RefTo("A") && branches[1] == NullNode;
    }
  }

  /** The text behind the cursor may be longer: the documents pass the checks, on every host. */
  lemma CheckedPair(h: Host)
    ensures Checked(h, Before, After)
  {
    hide CompareOk, Careful, WellFormed, ChoicesChecked, HasDefs, Same, Defs;
    Documents();
    TextCompatible();
    CursorCompatible();
    NodesOk(h);
    CursorChecked();
    hide RefTo;
  }
}
