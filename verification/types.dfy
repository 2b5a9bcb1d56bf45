/**
 * The data model of headify (headify.h): the kinds of Elements the scanner
 * produces, the Element spans themselves, the Phrase types and Phrases the
 * classifier recognises, and the classifier's State.
 *
 * The source text is a `string`; the C NUL that ends it sits at index |text|.
 * Elements and phrases refer to it by index, not by pointer.
 */
module Types {

  datatype Option<T> = None | Some(value: T)

  datatype Result<T, E> = Ok(value: T) | Fail(error: E)

  /** ElementType without the ElementTypeCount sentinel. */
  datatype Kind =
    | Err  // scan error
    | Whi  // run of blanks and tabs
    | Tok  // any other token, string and character literals included
    | Pre  // preprocessor directive
    | Lco  // line comment
    | Bco  // block comment
    | Sem  // ';'
    | Lbr  // line break
    | Par  // ( ... )
    | Bra  // [ ... ]
    | Cur  // { ... }
    | Clo  // a closing brace, only seen while scanning a group
    | Asg  // '='
    | Pub  // the public marker '*'
    | Eos  // end of source

  /** A span of the source text: begin is inclusive, end is exclusive. */
  datatype Element = Element(kind: Kind, begin: nat, end: nat)

  datatype PhraseType =
    | Unknown | Error | FunDec | FunDef | VarDec | VarDef | ArrDec | ArrDef
    | StructUnionEnumDef | TypeDef | Preproc | LineComment | BlockComment

  /**
   * A phrase covers the elements first..last of the element sequence, both
   * inclusive. last == |elements| stands for the C NULL: recognition ran off
   * the end of the list.
   */
  datatype Phrase = Phrase(ptype: PhraseType, isPublic: bool, first: nat, last: nat)

  /** The classifier's state: the current input element and the phrase so far. */
  datatype State = State(input: nat, phrase: Phrase)

  /** A C string holds no NUL before its terminator. */
  predicate NoNul(text: string)
  {
    forall i :: 0 <= i < |text| ==> text[i] != '\0'
  }

  /** The character at i, reading the terminating NUL at and past |text|. */
  function At(text: string, i: nat): char
  {
    if i < |text| then text[i] else '\0'
  }

  /** Number of line breaks in s. */
  function LineBreaks(s: string): nat
  {
    BreaksFrom(s, 0)
  }

  /** Number of line breaks in s from index i on. */
  function BreaksFrom(s: string, i: nat): nat
    requires i <= |s|
    decreases |s| - i
  {
    if i == |s| then 0 else (if s[i] == '\n' then 1 else 0) + BreaksFrom(s, i + 1)
  }

  /** LineBreaks adds up over concatenation. */
  lemma LineBreaksConcat(a: string, b: string)
    ensures LineBreaks(a + b) == LineBreaks(a) + LineBreaks(b)
  {
    BreaksFromConcat(a, b, 0);
  }

  lemma {:induction false} BreaksFromConcat(a: string, b: string, i: nat)
    requires i <= |a|
    ensures BreaksFrom(a + b, i) == BreaksFrom(a, i) + BreaksFrom(b, 0)
    decreases |a| - i
  {
    if i == |a| {
      BreaksFromSuffix(a, b, 0);
    } else {
      BreaksFromConcat(a, b, i + 1);
    }
  }

  lemma {:induction false} BreaksFromSuffix(a: string, b: string, j: nat)
    requires j <= |b|
    ensures BreaksFrom(a + b, |a| + j) == BreaksFrom(b, j)
    decreases |b| - j
  {
    if j < |b| {
      BreaksFromSuffix(a, b, j + 1);
    }
  }

  /** A string of n line breaks. */
  function Newlines(n: nat): (r: string)
    ensures |r| == n && LineBreaks(r) == n
  {
    if n == 0 then "" else
      var r := Newlines(n - 1) + "\n";
      LineBreaksConcat(Newlines(n - 1), "\n");
      r
  }

  /** Every element lies inside the text. */
  predicate Spans(text: string, elems: seq<Element>)
  {
    forall i :: 0 <= i < |elems| ==> elems[i].begin <= elems[i].end <= |text|
  }

  /** The characters of element e. */
  function Slice(text: string, e: Element): string
    requires e.begin <= e.end <= |text|
  {
    text[e.begin..e.end]
  }

  /**
   * The shape of a successful scan: non-empty elements that follow each other
   * without gap or overlap and cover the whole text, none of them an error or
   * end-of-source marker, and every public marker exactly the character '*'.
   */
  predicate Tiling(text: string, elems: seq<Element>)
  {
    && (|elems| == 0 <==> |text| == 0)
    && (|elems| > 0 ==> elems[0].begin == 0 && elems[|elems| - 1].end == |text|)
    && (forall i :: 0 <= i < |elems| ==> elems[i].begin < elems[i].end <= |text|)
    && (forall i :: 0 <= i < |elems| ==> Adjacent(elems, i))
    && (forall i :: 0 <= i < |elems| ==> elems[i].kind != Err && elems[i].kind != Eos)
    && (forall i :: 0 <= i < |elems| && elems[i].kind == Pub ==>
          elems[i].end == elems[i].begin + 1 && text[elems[i].begin] == '*')
  }

  /** A tiling lies within the text. */
  lemma TilingSpans(text: string, elems: seq<Element>)
    requires Tiling(text, elems)
    ensures Spans(text, elems)
  {
  }

  /** Element i ends where element i + 1, if there is one, begins. */
  predicate Adjacent(elems: seq<Element>, i: nat)
  {
    i + 1 < |elems| ==> elems[i].end == elems[i + 1].begin
  }

  /** In a tiling, later elements begin and end no earlier than earlier ones. */
  lemma {:induction false} TilingOrdered(text: string, elems: seq<Element>, i: nat, j: nat)
    requires Tiling(text, elems) && i <= j < |elems|
    ensures elems[i].begin <= elems[j].begin && elems[i].end <= elems[j].end
    ensures i < j ==> elems[i].end <= elems[j].begin
  {
    if i < j {
      TilingOrdered(text, elems, i, j - 1);
      assert Adjacent(elems, j - 1);
    }
  }
}
