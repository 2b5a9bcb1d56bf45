/**
 * get_phrase on element lists of sources from get_phrase_test (headify.c),
 * written out element by element, and an input on which the C recursion
 * never returns. Each example holds for the text and element list its
 * predicate names.
 */
module PhraseExamples {
  import opened Types
  import opened Classifier

  /** The first words of the examples. */
  lemma FirstWords()
    ensures AfterFirstToken("int") == Tokens && AfterFirstToken("x") == Tokens
    ensures AfterFirstToken("struct") == StructUnionEnum
  {
    assert "int" != "struct" && "int" != "union" && "int" != "enum" && "int" != "typedef" by {
      assert "int"[0] == 'i';
    }
    assert "x" != "struct" && "x" != "union" && "x" != "enum" && "x" != "typedef" by {
      assert |"x"| == 1;
    }
  }

  /** "*int i;X" and its elements. */
  predicate IsVarDecSource(text: string, elems: seq<Element>)
  {
    && text == "*int i;X"
    && elems == [Element(Pub, 0, 1), Element(Tok, 1, 4), Element(Whi, 4, 5), Element(Tok, 5, 6),
                 Element(Sem, 6, 7), Element(Tok, 7, 8)]
  }

  /** "*int i;X": a public variable declaration ending at the ';'. */
  lemma VarDecExample(text: string, elems: seq<Element>)
    requires IsVarDecSource(text, elems)
    ensures Spans(text, elems)
    ensures PhraseAt(text, elems, 0) == Recognized(Phrase(VarDec, true, 0, 4))
  {
    VarDecMarker(text, elems);
    VarDecFirstWord(text, elems);
    VarDecTail(text, elems);
  }

  /** f_start on the public marker goes on to f_pub. */
  lemma VarDecMarker(text: string, elems: seq<Element>)
    requires IsVarDecSource(text, elems)
    ensures Spans(text, elems) && IsPublicAt(elems, 0)
    ensures Run(text, elems, Start, 0) == Run(text, elems, Public, 1)
  {
    RunOneStep(text, elems, Start, 0);
  }

  /** f_pub on "int" goes on to f_tok. */
  lemma VarDecFirstWord(text: string, elems: seq<Element>)
    requires IsVarDecSource(text, elems)
    ensures Spans(text, elems)
    ensures Run(text, elems, Public, 1) == Run(text, elems, Tokens, 3)
  {
    assert Word(text, elems, 1) == "int";
    FirstWords();
    assert NextSignificant(elems, 3) == 3;
    assert NextInput(elems, 1) == 3;
    RunOneStep(text, elems, Public, 1);
  }

  /** f_tok on "i", then on ";". */
  lemma VarDecTail(text: string, elems: seq<Element>)
    requires IsVarDecSource(text, elems)
    ensures Spans(text, elems)
    ensures Run(text, elems, Tokens, 3) == Stopped(VarDec, 4)
  {
    RunStepPastFirst(text, elems, Tokens, 4);
    RunStepPastFirst(text, elems, Tokens, 3);
  }

  /** "struct s;X" and its elements. */
  predicate IsStructSource(text: string, elems: seq<Element>)
  {
    && text == "struct s;X"
    && elems == [Element(Tok, 0, 6), Element(Whi, 6, 7), Element(Tok, 7, 8), Element(Sem, 8, 9),
                 Element(Tok, 9, 10)]
  }

  /** "struct s;X": a struct definition, recognised by its first word. */
  lemma StructExample(text: string, elems: seq<Element>)
    requires IsStructSource(text, elems)
    ensures Spans(text, elems)
    ensures PhraseAt(text, elems, 0) == Recognized(Phrase(StructUnionEnumDef, false, 0, 3))
  {
    StructFirstWord(text, elems);
    RunStepPastFirst(text, elems, StructUnionEnum, 3);
    RunStepPastFirst(text, elems, StructUnionEnum, 2);
  }

  /** f_start on "struct" goes on to f_struct_union_enum. */
  lemma StructFirstWord(text: string, elems: seq<Element>)
    requires IsStructSource(text, elems)
    ensures Spans(text, elems)
    ensures Run(text, elems, Start, 0) == Run(text, elems, StructUnionEnum, 2)
  {
    assert Word(text, elems, 0) == "struct";
    FirstWords();
    assert NextSignificant(elems, 2) == 2;
    assert NextInput(elems, 0) == 2;
    RunOneStep(text, elems, Start, 0);
  }

  /** "x=5" and its elements: an initialised variable with no ';' after it. */
  predicate IsDivergeSource(text: string, elems: seq<Element>)
  {
    text == "x=5" && elems == [Element(Tok, 0, 1), Element(Asg, 1, 2), Element(Tok, 2, 3)]
  }

  /**
   * "x=5": f_tok_asg goes on to itself at the end of the list, where `next`
   * leaves the input NULL, so get_phrase never returns.
   */
  lemma DivergenceExample(text: string, elems: seq<Element>)
    requires IsDivergeSource(text, elems)
    ensures Spans(text, elems)
    ensures PhraseAt(text, elems, 0) == Diverged
  {
    DivergenceFromStart(text, elems);
  }

  /** f_start on "x", then f_tok on "=". */
  lemma DivergenceFromStart(text: string, elems: seq<Element>)
    requires IsDivergeSource(text, elems)
    ensures Spans(text, elems)
    ensures Run(text, elems, Start, 0) == Diverges
  {
    DivergenceFirstWord(text, elems);
    RunStepPastFirst(text, elems, Tokens, 1);
    DivergenceAfterAsg(text, elems);
  }

  /** f_start on "x" goes on to f_tok. */
  lemma DivergenceFirstWord(text: string, elems: seq<Element>)
    requires IsDivergeSource(text, elems)
    ensures Spans(text, elems)
    ensures Run(text, elems, Start, 0) == Run(text, elems, Tokens, 1)
  {
    assert Word(text, elems, 0) == "x";
    FirstWords();
    RunOneStep(text, elems, Start, 0);
  }

  /** f_tok_asg on "5" and then on NULL, calling itself again. */
  lemma DivergenceAfterAsg(text: string, elems: seq<Element>)
    requires IsDivergeSource(text, elems)
    ensures Spans(text, elems)
    ensures Run(text, elems, TokAsg, 2) == Diverges
  {
    RunStepPastFirst(text, elems, TokAsg, 3);
    RunStepPastFirst(text, elems, TokAsg, 2);
  }

  /** Classify makes the same input an error phrase reaching the end of the list. */
  lemma DivergenceClassified(text: string, elems: seq<Element>)
    requires IsDivergeSource(text, elems)
    ensures Spans(text, elems)
    ensures Classify(text, elems, 0) == Phrase(Error, false, 0, 3)
  {
    DivergenceExample(text, elems);
  }
}
