/**
 * get_elements (headify.c) on the sources of the get_phrase examples: the
 * element lists written out in PhraseExamples are the ones the lexer yields.
 */
module TokenExamples {
  import opened Types
  import opened Scanner
  import opened Lexer
  import opened PhraseExamples

  /** One step of get_elements: a scanned element heads the rest of the list. */
  lemma TokenizeCons(text: string, s: nat, indent: bool, h: Element, next: bool, rest: seq<Element>)
    requires NoNul(text) && s <= |text|
    requires Scan(text, s, indent) == Scanned(h, next, None) && h.kind != Eos && h.kind != Err
    requires TokenizeFrom(text, h.end, next) == Ok(rest)
    ensures TokenizeFrom(text, s, indent) == Ok([h] + rest)
  {
  }

  /** get_elements stops at the end of the source. */
  lemma TokenizeEnd(text: string, s: nat, indent: bool)
    requires NoNul(text) && s <= |text| && Scan(text, s, indent).elem.kind == Eos
    ensures TokenizeFrom(text, s, indent) == Ok([])
  {
  }

  /** "x=5" scans into a token, an assignment and a token. */
  lemma DivergeSourceTokens(text: string, elems: seq<Element>)
    requires IsDivergeSource(text, elems)
    ensures NoNul(text) && Tokenize(text) == Ok(elems)
  {
    DivergeSourceScans(text, elems);
    TokenizeEnd(text, 3, false);
    assert elems[3..] == [];
    TokenizeCons(text, 2, false, elems[2], false, elems[3..]);
    assert [elems[2]] + elems[3..] == elems[2..];
    TokenizeCons(text, 1, false, elems[1], false, elems[2..]);
    assert [elems[1]] + elems[2..] == elems[1..];
    TokenizeCons(text, 0, true, elems[0], false, elems[1..]);
    assert [elems[0]] + elems[1..] == elems;
  }

  /** The elements of "x=5" and the end are what scan_next reads. */
  lemma DivergeSourceScans(text: string, elems: seq<Element>)
    requires IsDivergeSource(text, elems)
    ensures NoNul(text)
    ensures Scan(text, 0, true) == Scanned(elems[0], false, None)
    ensures Scan(text, 1, false) == Scanned(elems[1], false, None)
    ensures Scan(text, 2, false) == Scanned(elems[2], false, None)
    ensures Scan(text, 3, false).elem.kind == Eos
  {
  }

  /** "*int i;X" scans into the public marker, tokens, a blank and a ';'. */
  lemma VarDecSourceTokens(text: string, elems: seq<Element>)
    requires IsVarDecSource(text, elems)
    ensures NoNul(text) && Tokenize(text) == Ok(elems)
  {
    VarDecSourceScans1(text, elems);
    VarDecSourceScans2(text, elems);
    TokenizeEnd(text, 8, false);
    assert elems[6..] == [];
    TokenizeCons(text, elems[5].begin, false, elems[5], false, elems[6..]);
    assert [elems[5]] + elems[6..] == elems[5..];
    TokenizeCons(text, elems[4].begin, false, elems[4], false, elems[5..]);
    assert [elems[4]] + elems[5..] == elems[4..];
    TokenizeCons(text, elems[3].begin, false, elems[3], false, elems[4..]);
    assert [elems[3]] + elems[4..] == elems[3..];
    TokenizeCons(text, elems[2].begin, false, elems[2], false, elems[3..]);
    assert [elems[2]] + elems[3..] == elems[2..];
    TokenizeCons(text, elems[1].begin, true, elems[1], false, elems[2..]);
    assert [elems[1]] + elems[2..] == elems[1..];
    TokenizeCons(text, elems[0].begin, true, elems[0], true, elems[1..]);
    assert [elems[0]] + elems[1..] == elems[0..];
  }

  /** Elements 0 to 2 of the list are what scan_next reads. */
  lemma VarDecSourceScans1(text: string, elems: seq<Element>)
    requires IsVarDecSource(text, elems)
    ensures NoNul(text)
    ensures Scan(text, elems[0].begin, true) == Scanned(elems[0], true, None)
    ensures Scan(text, elems[1].begin, true) == Scanned(elems[1], false, None)
    ensures Scan(text, elems[2].begin, false) == Scanned(elems[2], false, None)
  {
    assert TokEnd(text, 4) == 4;
    assert TokEnd(text, 2) == 4;
  }

  /** Elements 3 to 5 and the end of the list are what scan_next reads. */
  lemma VarDecSourceScans2(text: string, elems: seq<Element>)
    requires IsVarDecSource(text, elems)
    ensures NoNul(text)
    ensures Scan(text, elems[3].begin, false) == Scanned(elems[3], false, None)
    ensures Scan(text, elems[4].begin, false) == Scanned(elems[4], false, None)
    ensures Scan(text, elems[5].begin, false) == Scanned(elems[5], false, None)
    ensures Scan(text, 8, false).elem.kind == Eos
  {
  }

  /** "struct s;X" scans into tokens, a blank and a ';'. */
  lemma StructSourceTokens(text: string, elems: seq<Element>)
    requires IsStructSource(text, elems)
    ensures NoNul(text) && Tokenize(text) == Ok(elems)
  {
    StructSourceScans1(text, elems);
    StructSourceScans2(text, elems);
    TokenizeEnd(text, 10, false);
    assert elems[5..] == [];
    TokenizeCons(text, elems[4].begin, false, elems[4], false, elems[5..]);
    assert [elems[4]] + elems[5..] == elems[4..];
    TokenizeCons(text, elems[3].begin, false, elems[3], false, elems[4..]);
    assert [elems[3]] + elems[4..] == elems[3..];
    TokenizeCons(text, elems[2].begin, false, elems[2], false, elems[3..]);
    assert [elems[2]] + elems[3..] == elems[2..];
    TokenizeCons(text, elems[1].begin, false, elems[1], false, elems[2..]);
    assert [elems[1]] + elems[2..] == elems[1..];
    TokenizeCons(text, elems[0].begin, true, elems[0], false, elems[1..]);
    assert [elems[0]] + elems[1..] == elems[0..];
  }

  /** Elements 0 to 2 of the list are what scan_next reads. */
  lemma StructSourceScans1(text: string, elems: seq<Element>)
    requires IsStructSource(text, elems)
    ensures NoNul(text)
    ensures Scan(text, elems[0].begin, true) == Scanned(elems[0], false, None)
    ensures Scan(text, elems[1].begin, false) == Scanned(elems[1], false, None)
    ensures Scan(text, elems[2].begin, false) == Scanned(elems[2], false, None)
  {
    assert TokEnd(text, 6) == 6;
    assert TokEnd(text, 3) == 6;
    assert TokEnd(text, 1) == 6;
  }

  /** Elements 3 to 4 and the end of the list are what scan_next reads. */
  lemma StructSourceScans2(text: string, elems: seq<Element>)
    requires IsStructSource(text, elems)
    ensures NoNul(text)
    ensures Scan(text, elems[3].begin, false) == Scanned(elems[3], false, None)
    ensures Scan(text, elems[4].begin, false) == Scanned(elems[4], false, None)
    ensures Scan(text, 10, false).elem.kind == Eos
  {
  }
}
