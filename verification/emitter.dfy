/**
 * The emitters of headify.c: create_header and create_impl, with their
 * helpers xappend_string_until and fun_name.
 *
 * Both walk the element list the same way: skip whitespace, line breaks
 * and ';', recognise a phrase at the next element, and go on after its
 * last element. An error phrase stops the program with "<file>:<line>:
 * Error"; here it is an EmitError carrying the line. The growable String
 * buffers of the source are `string` values the methods reassign.
 *
 * The phrases are the ones Classify gives: where get_phrase would never
 * return, an error phrase whose last is NULL (|elems|).
 */
module Emitter {
  import opened Types
  import opened Scanner
  import opened Classifier

  /**
   * Why an emitter stopped: the line of an error phrase, or an empty element
   * list, which the emitters' not-null precondition on the list rejects.
   */
  datatype EmitError = EmitError(line: nat) | EmptyList

  /** The text of the elements i..j, both inclusive (xappend_cstring2(first->begin, last->end)). */
  function Span(text: string, elems: seq<Element>, i: nat, j: nat): (s: string)
    requires Tiling(text, elems) && i <= j < |elems|
    ensures |s| == elems[j].end - elems[i].begin > 0
  {
    TilingOrdered(text, elems, i, j);
    text[elems[i].begin..elems[j].end]
  }

  /** Appending to a string in two steps is appending the two pieces together. */
  lemma ConcatAssoc(a: string, b: string, c: string)
    ensures a + (b + c) == (a + b) + c
  {
  }

  /** ConcatAssoc for three pieces appended in turn. */
  lemma ConcatAssoc4(h: string, a: string, b: string, c: string)
    ensures h + a + b + c == h + (a + b + c)
  {
  }

  /**
   * The text from the start of element i to the start of element j: nothing
   * when they are the same element, otherwise the text of elements i..j-1.
   */
  function Gap(text: string, elems: seq<Element>, i: nat, j: nat): (s: string)
    requires Tiling(text, elems) && i <= j < |elems|
    ensures elems[i].begin <= elems[j].begin <= |text|
  {
    TilingOrdered(text, elems, i, j);
    text[elems[i].begin..elems[j].begin]
  }

  /** The gap before the same element is empty; before a later one it is the text of the elements in between. */
  lemma GapIsSpan(text: string, elems: seq<Element>, i: nat, j: nat)
    requires Tiling(text, elems) && i <= j < |elems|
    ensures |Gap(text, elems, i, j)| == elems[j].begin - elems[i].begin
    ensures i == j ==> Gap(text, elems, i, j) == ""
    ensures i < j ==> Gap(text, elems, i, j) == Span(text, elems, i, j - 1)
  {
    if i < j {
      TilingOrdered(text, elems, i, j - 1);
      assert Adjacent(elems, j - 1);
    }
  }

  /**
   * A phrase the emitters act on: neither error nor unknown, its last
   * element inside the list, and a public one starting with its marker
   * followed by at least one more element.
   */
  predicate Emittable(elems: seq<Element>, p: Phrase)
  {
    && p.first <= p.last < |elems|
    && p.ptype != Error && p.ptype != Unknown
    && (p.isPublic ==> p.first < p.last && elems[p.first].kind == Pub)
  }

  /** Every phrase Classify gives at a phrase start, error phrases apart, is Emittable. */
  lemma ClassifiedEmittable(text: string, elems: seq<Element>, s: nat)
    requires Tiling(text, elems) && s < |elems| && PhraseStart(elems[s])
    ensures Classify(text, elems, s).ptype != Error ==> Emittable(elems, Classify(text, elems, s))
  {
    assert NextSignificant(elems, s) == s;
  }

  /**
   * The line an error phrase is reported on: line breaks from the start of
   * the text to the end of its last element, or of its first element when
   * last is NULL, plus one.
   */
  function ErrorLine(text: string, elems: seq<Element>, p: Phrase): nat
    requires Tiling(text, elems) && p.first < |elems| && p.last <= |elems|
  {
    var x := if p.last < |elems| then p.last else p.first;
    LineBreaks(text[..elems[x].end]) + 1
  }

  /** The first element at or after i of kind stop; |elems| (NULL) if none. */
  function StopIndex(elems: seq<Element>, i: nat, stop: Kind): (k: nat)
    requires i <= |elems|
    ensures i <= k <= |elems| && (k < |elems| ==> elems[k].kind == stop)
    decreases |elems| - i
  {
    if i == |elems| || elems[i].kind == stop then i else StopIndex(elems, i + 1, stop)
  }

  /** No element before StopIndex is of kind stop. */
  lemma {:induction false} StopIndexFirst(elems: seq<Element>, i: nat, stop: Kind)
    requires i <= |elems|
    ensures forall m :: i <= m < StopIndex(elems, i, stop) ==> elems[m].kind != stop
    decreases |elems| - i
  {
    if i < |elems| && elems[i].kind != stop {
      StopIndexFirst(elems, i + 1, stop);
    }
  }

  /** The last element before k that is not whitespace; first when there is none. */
  function LastNonBlank(elems: seq<Element>, first: nat, k: nat): (j: nat)
    requires first < k <= |elems|
    ensures first <= j < k
    ensures first < j ==> elems[j].kind != Whi
    decreases k
  {
    if k - 1 == first || elems[k - 1].kind != Whi then k - 1 else LastNonBlank(elems, first, k - 1)
  }

  /** Only whitespace follows LastNonBlank before k. */
  lemma {:induction false} LastNonBlankTrailing(elems: seq<Element>, first: nat, k: nat)
    requires first < k <= |elems|
    ensures forall m :: LastNonBlank(elems, first, k) < m < k ==> elems[m].kind == Whi
    decreases k
  {
    if k - 1 != first && elems[k - 1].kind == Whi {
      LastNonBlankTrailing(elems, first, k - 1);
    }
  }

  /**
   * xappend_string_until: the text from element first up to the element of
   * kind stop, without it and without the whitespace elements before it;
   * nothing when first is NULL or is itself of kind stop.
   */
  function UntilStop(text: string, elems: seq<Element>, first: nat, stop: Kind): (s: string)
    requires Tiling(text, elems) && first <= |elems|
    ensures s == [] <==> first == |elems| || elems[first].kind == stop
  {
    var k := StopIndex(elems, first, stop);
    if k == first then [] else Span(text, elems, first, LastNonBlank(elems, first, k))
  }

  /**
   * What UntilStop cuts off: the text from first to the stop element is
   * the kept text followed by the text of whitespace elements only, and the
   * kept text holds no element of kind stop.
   */
  lemma UntilStopCut(text: string, elems: seq<Element>, first: nat, stop: Kind)
    requires Tiling(text, elems) && first < |elems| && elems[first].kind != stop
    ensures var k, j := StopIndex(elems, first, stop), LastNonBlank(elems, first, StopIndex(elems, first, stop));
      && (forall m :: first <= m <= j ==> elems[m].kind != stop)
      && (forall m :: j < m < k ==> elems[m].kind == Whi)
      && (k < |elems| ==>
            && elems[first].begin <= elems[j].end <= elems[k].begin
            && text[elems[first].begin..elems[k].begin]
               == UntilStop(text, elems, first, stop) + text[elems[j].end..elems[k].begin])
  {
    var k := StopIndex(elems, first, stop);
    var j := LastNonBlank(elems, first, k);
    StopIndexFirst(elems, first, stop);
    LastNonBlankTrailing(elems, first, k);
    if k < |elems| {
      TilingOrdered(text, elems, first, j);
      TilingOrdered(text, elems, j, k);
      assert text[elems[first].begin..elems[k].begin]
          == text[elems[first].begin..elems[j].end] + text[elems[j].end..elems[k].begin];
    }
  }

  /** xappend_string_until as the C loop: appends UntilStop to str. */
  method AppendUntil(str: string, text: string, elems: seq<Element>, first: nat, stop: Kind) returns (r: string)
    requires Tiling(text, elems) && first <= |elems|
    ensures r == str + UntilStop(text, elems, first, stop)
  {
    if first == |elems| || elems[first].kind == stop {
      return str;
    }
    var last := first;
    var e := first;
    while e < |elems| && elems[e].kind != stop
      invariant first <= e <= |elems|
      invariant StopIndex(elems, e, stop) == StopIndex(elems, first, stop)
      invariant e == first ==> last == first
      invariant first < e ==> last == LastNonBlank(elems, first, e)
      decreases |elems| - e
    {
      if elems[e].kind != Whi {
        last := e;
      }
      assert last == LastNonBlank(elems, first, e + 1);
      e := e + 1;
    }
    assert StopIndex(elems, e, stop) == e;
    TilingOrdered(text, elems, first, last);
    r := str + text[elems[first].begin..elems[last].end];
  }

  /** The #ifndef/#define include guard for basename; the name is used as given. */
  function Guard(basename: string): string
  {
    "#ifndef " + basename + "_h_INCLUDED\n#define " + basename + "_h_INCLUDED\n"
  }

  /**
   * What create_header appends for one phrase: nothing for a private one;
   * for a public one, its text after the marker, declarations of variables
   * and arrays prefixed by "extern ", definitions of functions cut before
   * their body, of variables and arrays cut before the '=' and prefixed by
   * "extern ", each of these with ";".
   */
  function HeaderEntry(text: string, elems: seq<Element>, p: Phrase): string
    requires Tiling(text, elems) && Emittable(elems, p)
  {
    if !p.isPublic then []
    else
      var first := p.first + 1;
      match p.ptype
      case VarDec | ArrDec => "extern " + Span(text, elems, first, p.last) + "\n"
      case FunDec | Preproc => Span(text, elems, first, p.last) + "\n"
      case FunDef => UntilStop(text, elems, first, Cur) + ";\n"
      case VarDef | ArrDef => "extern " + UntilStop(text, elems, first, Asg) + ";\n"
      case StructUnionEnumDef | TypeDef => Span(text, elems, first, p.last) + "\n"
      case LineComment | BlockComment => Span(text, elems, first, p.last) + "\n"
  }

  /**
   * A private phrase has no header entry; a public one has an entry ending
   * in a line break, "extern " in front for variables and arrays, and ";"
   * before the line break for definitions.
   */
  lemma HeaderEntryShape(text: string, elems: seq<Element>, p: Phrase)
    requires Tiling(text, elems) && Emittable(elems, p)
    ensures var s := HeaderEntry(text, elems, p);
      && (!p.isPublic <==> s == [])
      && (p.isPublic ==> s[|s| - 1] == '\n')
      && (p.isPublic && p.ptype in {VarDec, VarDef, ArrDec, ArrDef} ==> |s| >= 7 && s[..7] == "extern ")
      && (p.isPublic && p.ptype in {FunDef, VarDef, ArrDef} ==> |s| >= 2 && s[|s| - 2..] == ";\n")
  {
  }

  /** fun_name's search: the last token at or after first and before last. */
  function LastTokenIn(elems: seq<Element>, first: nat, last: nat): (r: Option<nat>)
    requires first <= last <= |elems|
    ensures r.Some? ==> first <= r.value < last && elems[r.value].kind == Tok
    decreases last
  {
    if last == first then None
    else if elems[last - 1].kind == Tok then Some(last - 1)
    else LastTokenIn(elems, first, last - 1)
  }

  /** LastTokenIn finds the last token: none follows it, and None means there is none. */
  lemma {:induction false} LastTokenInIsLast(elems: seq<Element>, first: nat, last: nat)
    requires first <= last <= |elems|
    ensures var r := LastTokenIn(elems, first, last);
      && (r.Some? ==> forall m :: r.value < m < last ==> elems[m].kind != Tok)
      && (r.None? ==> forall m :: first <= m < last ==> elems[m].kind != Tok)
    decreases last
  {
    if last > first && elems[last - 1].kind != Tok {
      LastTokenInIsLast(elems, first, last - 1);
    }
  }

  /** fun_name: for a function phrase the last token before its last element, otherwise "". */
  function FunNameOf(text: string, elems: seq<Element>, p: Phrase): string
    requires Tiling(text, elems) && p.first <= p.last <= |elems|
  {
    if p.ptype == FunDef || p.ptype == FunDec then
      match LastTokenIn(elems, p.first, p.last)
      case Some(j) => Slice(text, elems[j])
      case None => ""
    else ""
  }

  /** fun_name as the C loop. */
  method FunName(text: string, elems: seq<Element>, p: Phrase) returns (name: string)
    requires Tiling(text, elems) && p.first <= p.last <= |elems|
    ensures name == FunNameOf(text, elems, p)
  {
    if p.ptype == FunDef || p.ptype == FunDec {
      var token: Option<nat> := None;
      var e := p.first;
      while e < |elems| && e != p.last
        invariant p.first <= e <= p.last
        invariant token == LastTokenIn(elems, p.first, e)
        decreases p.last - e
      {
        if elems[e].kind == Tok {
          token := Some(e);
        }
        e := e + 1;
      }
      if token.Some? {
        return Slice(text, elems[token.value]);
      }
    }
    return "";
  }

  /**
   * A private phrase that create_impl prefixes with "static ": variables
   * and arrays, and functions other than main.
   */
  predicate MadeStatic(text: string, elems: seq<Element>, p: Phrase)
    requires Tiling(text, elems) && p.first <= p.last <= |elems|
  {
    && !p.isPublic
    && (|| p.ptype in {VarDec, VarDef, ArrDec, ArrDef}
        || (p.ptype in {FunDec, FunDef} && FunNameOf(text, elems, p) != "main"))
  }

  /** The text of a public phrase is its marker '*' followed by the rest. */
  lemma PublicSpan(text: string, elems: seq<Element>, p: Phrase)
    requires Tiling(text, elems) && Emittable(elems, p) && p.isPublic
    ensures Span(text, elems, p.first, p.last) == "*" + Span(text, elems, p.first + 1, p.last)
  {
    TilingOrdered(text, elems, p.first + 1, p.last);
    assert Adjacent(elems, p.first);
    assert text[elems[p.first].begin..elems[p.last].end]
        == text[elems[p.first].begin..elems[p.first].end] + text[elems[p.first].end..elems[p.last].end];
  }

  /**
   * What create_impl writes for one phrase: a public phrase without its
   * marker, struct/union/enum, typedef and preprocessor phrases only as
   * their line breaks; a private phrase as it is, with "static " in front
   * when MadeStatic.
   */
  function ImplEntry(text: string, elems: seq<Element>, p: Phrase): string
    requires Tiling(text, elems) && Emittable(elems, p)
  {
    if p.isPublic then
      var body := Span(text, elems, p.first + 1, p.last);
      if p.ptype in {StructUnionEnumDef, TypeDef, Preproc} then Newlines(LineBreaks(body)) else body
    else
      var body := Span(text, elems, p.first, p.last);
      if MadeStatic(text, elems, p) then "static " + body else body
  }

  /** A string without '\n' has no line breaks. */
  lemma {:induction false} NoLineBreaks(s: string, i: nat)
    requires i <= |s| && forall k :: i <= k < |s| ==> s[k] != '\n'
    ensures BreaksFrom(s, i) == 0
    decreases |s| - i
  {
    if i < |s| {
      NoLineBreaks(s, i + 1);
    }
  }

  /**
   * The entry of a phrase has exactly the line breaks of the phrase's text;
   * a private phrase's entry ends in that text, and is longer exactly when
   * MadeStatic.
   */
  lemma ImplEntryShape(text: string, elems: seq<Element>, p: Phrase)
    requires Tiling(text, elems) && Emittable(elems, p)
    ensures var s, span := ImplEntry(text, elems, p), Span(text, elems, p.first, p.last);
      && LineBreaks(s) == LineBreaks(span)
      && (!p.isPublic ==>
            && |span| <= |s|
            && s[|s| - |span|..] == span
            && (|s| > |span| <==> MadeStatic(text, elems, p)))
  {
    NoLineBreaks("*", 0);
    NoLineBreaks("static ", 0);
    if p.isPublic {
      PublicSpan(text, elems, p);
      LineBreaksConcat("*", Span(text, elems, p.first + 1, p.last));
    } else {
      LineBreaksConcat("static ", Span(text, elems, p.first, p.last));
    }
  }

  /** str followed by the result, or the error. */
  function PrependText(str: string, r: Result<string, EmitError>): Result<string, EmitError>
  {
    match r
    case Ok(s) => Ok(str + s)
    case Fail(x) => Fail(x)
  }

  lemma PrependNothing(r: Result<string, EmitError>)
    ensures PrependText([], r) == r
  {
    if r.Ok? {
      assert [] + r.value == r.value;
    }
  }

  lemma PrependTextTwice(a: string, b: string, r: Result<string, EmitError>)
    ensures PrependText(a, PrependText(b, r)) == PrependText(a + b, r)
  {
    if r.Ok? {
      assert a + (b + r.value) == (a + b) + r.value;
    }
  }

  /**
   * What create_header appends from element e on. The walk skips
   * whitespace, line breaks and ';' to the next element that can start a
   * phrase, classifies the phrase there and goes on after its last element
   * (HeaderAt, HeaderPhrase): the entry of every phrase it visits, then
   * "#endif\n"; or, at the first error phrase, the error.
   */
  function HeaderFrom(text: string, elems: seq<Element>, e: nat): Result<string, EmitError>
    requires Tiling(text, elems) && e <= |elems|
    decreases |elems| - e, 2
  {
    HeaderAt(text, elems, NextPhraseStart(elems, e))
  }

  /** HeaderFrom at s, an element that can start a phrase, or the end of the list. */
  function HeaderAt(text: string, elems: seq<Element>, s: nat): Result<string, EmitError>
    requires Tiling(text, elems) && s <= |elems| && (s < |elems| ==> PhraseStart(elems[s]))
    decreases |elems| - s, 1
  {
    if s == |elems| then Ok("#endif\n") else HeaderPhrase(text, elems, s)
  }

  /** HeaderFrom at the phrase that starts at s: its entry and the walk after it, or its error. */
  function HeaderPhrase(text: string, elems: seq<Element>, s: nat): Result<string, EmitError>
    requires Tiling(text, elems) && s < |elems| && PhraseStart(elems[s])
    decreases |elems| - s, 0
  {
    var p := Classify(text, elems, s);
    if p.ptype == Error then Fail(EmitError(ErrorLine(text, elems, p)))
    else
      ClassifiedEmittable(text, elems, s);
      PrependText(HeaderEntry(text, elems, p), HeaderFrom(text, elems, p.last + 1))
  }

  /**
   * create_header: the include guard, the entries of all phrases, "#endif\n";
   * or the first error. An empty list is refused before anything is written.
   */
  function Header(basename: string, text: string, elems: seq<Element>): Result<string, EmitError>
    requires Tiling(text, elems)
  {
    if |elems| == 0 then Fail(EmptyList)
    else PrependText(Guard(basename), HeaderFrom(text, elems, 0))
  }

  /**
   * What create_impl appends from element e on, walking as HeaderFrom does:
   * the text up to each phrase as it is and the phrase's ImplEntry, and
   * after the last phrase the rest of the text; or the first error.
   */
  function ImplFrom(text: string, elems: seq<Element>, e: nat): Result<string, EmitError>
    requires Tiling(text, elems) && e <= |elems|
    decreases |elems| - e, 2
  {
    ImplAt(text, elems, e, NextPhraseStart(elems, e))
  }

  /** ImplFrom with s, at or after e, the next element that can start a phrase, or the end of the list. */
  function ImplAt(text: string, elems: seq<Element>, e: nat, s: nat): Result<string, EmitError>
    requires Tiling(text, elems) && e <= s <= |elems| && (s < |elems| ==> PhraseStart(elems[s]))
    decreases |elems| - s, 1
  {
    if s == |elems| then Ok(if e < |elems| then text[elems[e].begin..] else [])
    else ImplPhrase(text, elems, e, s)
  }

  /** ImplFrom at e when the phrase starting at s is next: the text up to it, its entry and the walk after it, or its error. */
  function ImplPhrase(text: string, elems: seq<Element>, e: nat, s: nat): Result<string, EmitError>
    requires Tiling(text, elems) && e <= s < |elems| && PhraseStart(elems[s])
    decreases |elems| - s, 0
  {
    var p := Classify(text, elems, s);
    if p.ptype == Error then Fail(EmitError(ErrorLine(text, elems, p)))
    else
      ClassifiedEmittable(text, elems, s);
      PrependText(Gap(text, elems, e, s) + ImplEntry(text, elems, p), ImplFrom(text, elems, p.last + 1))
  }

  /**
   * create_impl: the source with public markers dropped, public
   * struct/union/enum, typedef and preprocessor phrases replaced by their
   * line breaks, and "static " before private variables, arrays and
   * functions other than main. It has as many line breaks as the source.
   * An empty list is refused, as in create_header.
   */
  function Impl(text: string, elems: seq<Element>): (r: Result<string, EmitError>)
    requires Tiling(text, elems)
    ensures r.Ok? ==> LineBreaks(r.value) == LineBreaks(text)
  {
    if |elems| == 0 then Fail(EmptyList)
    else
      ImplFromLineBreaks(text, elems, 0);
      assert text[elems[0].begin..] == text;
      ImplFrom(text, elems, 0)
  }

  /** ImplFrom keeps every line break of the text from element e on. */
  lemma {:induction false} ImplFromLineBreaks(text: string, elems: seq<Element>, e: nat)
    requires Tiling(text, elems) && e <= |elems|
    ensures ImplFrom(text, elems, e).Ok? ==>
              LineBreaks(ImplFrom(text, elems, e).value) == if e < |elems| then LineBreaks(text[elems[e].begin..]) else 0
    decreases |elems| - e, 1
  {
    var s := NextPhraseStart(elems, e);
    if s < |elems| {
      ImplPhraseLineBreaks(text, elems, e, s);
    }
  }

  /** ImplPhrase keeps every line break of the text from element e on. */
  lemma {:induction false} ImplPhraseLineBreaks(text: string, elems: seq<Element>, e: nat, s: nat)
    requires Tiling(text, elems) && e <= s < |elems| && PhraseStart(elems[s])
    ensures ImplPhrase(text, elems, e, s).Ok? ==>
              LineBreaks(ImplPhrase(text, elems, e, s).value) == LineBreaks(text[elems[e].begin..])
    decreases |elems| - s, 0
  {
    var p := Classify(text, elems, s);
    if p.ptype != Error {
      ClassifiedEmittable(text, elems, s);
      ImplFromLineBreaks(text, elems, p.last + 1);
      var rest := ImplFrom(text, elems, p.last + 1);
      if rest.Ok? {
        ImplPieceLineBreaks(text, elems, e, p, rest.value);
      }
      PrependLineBreaks(Gap(text, elems, e, s) + ImplEntry(text, elems, p), rest, LineBreaks(text[elems[e].begin..]));
    }
  }

  /** Text put in front of a result has the line breaks n it has together with the result's text. */
  lemma PrependLineBreaks(piece: string, rest: Result<string, EmitError>, n: nat)
    requires rest.Ok? ==> LineBreaks(piece + rest.value) == n
    ensures PrependText(piece, rest).Ok? ==> LineBreaks(PrependText(piece, rest).value) == n
  {
  }

  /**
   * The text up to phrase p, p's entry and a rest with the line breaks of
   * the text after p have the line breaks of the text from element e on.
   */
  lemma ImplPieceLineBreaks(text: string, elems: seq<Element>, e: nat, p: Phrase, rest: string)
    requires Tiling(text, elems) && Emittable(elems, p) && e <= p.first
    requires LineBreaks(rest) == if p.last + 1 < |elems| then LineBreaks(text[elems[p.last + 1].begin..]) else 0
    ensures LineBreaks(Gap(text, elems, e, p.first) + ImplEntry(text, elems, p) + rest) == LineBreaks(text[elems[e].begin..])
  {
    var gap := Gap(text, elems, e, p.first);
    var span := Span(text, elems, p.first, p.last);
    var after := text[elems[p.last].end..];
    assert text[elems[e].begin..] == gap + span + after;
    LineBreaksConcat(gap, span);
    LineBreaksConcat(gap + span, after);
    var entry := ImplEntry(text, elems, p);
    ImplEntryShape(text, elems, p);
    LineBreaksConcat(gap, entry);
    LineBreaksConcat(gap + entry, rest);
    if p.last + 1 < |elems| {
      assert Adjacent(elems, p.last);
    } else {
      assert after == [];
    }
  }

  /** Every header that is built ends in "#endif\n". */
  lemma {:induction false} HeaderFromEnds(text: string, elems: seq<Element>, e: nat)
    requires Tiling(text, elems) && e <= |elems|
    ensures var r := HeaderFrom(text, elems, e);
      r.Ok? ==> |r.value| >= 7 && r.value[|r.value| - 7..] == "#endif\n"
    decreases |elems| - e, 1
  {
    var s := NextPhraseStart(elems, e);
    if s < |elems| {
      HeaderPhraseEnds(text, elems, s);
    }
  }

  /** HeaderPhrase ends in "#endif\n" when it succeeds. */
  lemma {:induction false} HeaderPhraseEnds(text: string, elems: seq<Element>, s: nat)
    requires Tiling(text, elems) && s < |elems| && PhraseStart(elems[s])
    ensures var r := HeaderPhrase(text, elems, s);
      r.Ok? ==> |r.value| >= 7 && r.value[|r.value| - 7..] == "#endif\n"
    decreases |elems| - s, 0
  {
    var p := Classify(text, elems, s);
    if p.ptype != Error {
      ClassifiedEmittable(text, elems, s);
      HeaderFromEnds(text, elems, p.last + 1);
      PrependKeepsEndif(HeaderEntry(text, elems, p), HeaderFrom(text, elems, p.last + 1));
    }
  }

  /** Text put in front of a result that ends in "#endif\n" leaves it ending so. */
  lemma PrependKeepsEndif(entry: string, rest: Result<string, EmitError>)
    requires rest.Ok? ==> |rest.value| >= 7 && rest.value[|rest.value| - 7..] == "#endif\n"
    ensures var r := PrependText(entry, rest);
      r.Ok? ==> |r.value| >= 7 && r.value[|r.value| - 7..] == "#endif\n"
  {
    if rest.Ok? {
      var v := rest.value;
      assert (entry + v)[|entry + v| - 7..] == v[|v| - 7..];
    }
  }

  /**
   * The walk from e reaches the end of the list through private phrases
   * only: no error phrase and no public one on the way.
   */
  predicate PrivateFrom(text: string, elems: seq<Element>, e: nat)
    requires Tiling(text, elems) && e <= |elems|
    decreases |elems| - e, 2
  {
    PrivateAt(text, elems, NextPhraseStart(elems, e))
  }

  /** PrivateFrom at s, an element that can start a phrase, or the end of the list. */
  predicate PrivateAt(text: string, elems: seq<Element>, s: nat)
    requires Tiling(text, elems) && s <= |elems| && (s < |elems| ==> PhraseStart(elems[s]))
    decreases |elems| - s, 1
  {
    s == |elems| || PrivatePhrase(text, elems, s)
  }

  /** The phrase that starts at s is private, and so is the walk after it. */
  predicate PrivatePhrase(text: string, elems: seq<Element>, s: nat)
    requires Tiling(text, elems) && s < |elems| && PhraseStart(elems[s])
    decreases |elems| - s, 0
  {
    var p := Classify(text, elems, s);
    p.ptype != Error && !p.isPublic && PrivateFrom(text, elems, p.last + 1)
  }

  /** Nothing but "#endif\n" is appended from e exactly when the walk from e is PrivateFrom. */
  lemma {:induction false} HeaderFromPrivate(text: string, elems: seq<Element>, e: nat)
    requires Tiling(text, elems) && e <= |elems|
    ensures HeaderFrom(text, elems, e) == Ok("#endif\n") <==> PrivateFrom(text, elems, e)
    decreases |elems| - e, 1
  {
    var s := NextPhraseStart(elems, e);
    if s < |elems| {
      HeaderPhrasePrivate(text, elems, s);
    }
  }

  /** HeaderPhrase gives "#endif\n" alone exactly when PrivatePhrase holds. */
  lemma {:induction false} HeaderPhrasePrivate(text: string, elems: seq<Element>, s: nat)
    requires Tiling(text, elems) && s < |elems| && PhraseStart(elems[s])
    ensures HeaderPhrase(text, elems, s) == Ok("#endif\n") <==> PrivatePhrase(text, elems, s)
    decreases |elems| - s, 0
  {
    var p := Classify(text, elems, s);
    if p.ptype != Error {
      ClassifiedEmittable(text, elems, s);
      var rest := HeaderFrom(text, elems, p.last + 1);
      HeaderFromPrivate(text, elems, p.last + 1);
      HeaderFromEnds(text, elems, p.last + 1);
      EntryBeforeEndif(text, elems, p, rest);
      assert HeaderPhrase(text, elems, s) == PrependText(HeaderEntry(text, elems, p), rest);
      assert PrivatePhrase(text, elems, s) == (!p.isPublic && PrivateFrom(text, elems, p.last + 1));
    }
  }

  /** A phrase's entry before a walk result that ends in "#endif\n" leaves "#endif\n" alone only for a private phrase before "#endif\n". */
  lemma EntryBeforeEndif(text: string, elems: seq<Element>, p: Phrase, rest: Result<string, EmitError>)
    requires Tiling(text, elems) && Emittable(elems, p)
    requires rest.Ok? ==> |rest.value| >= 7
    ensures PrependText(HeaderEntry(text, elems, p), rest) == Ok("#endif\n") <==> !p.isPublic && rest == Ok("#endif\n")
  {
    HeaderEntryShape(text, elems, p);
    if rest.Ok? {
      OnlyEndif(HeaderEntry(text, elems, p), rest.value);
    }
  }

  /** An entry before a text ending in "#endif\n" leaves "#endif\n" alone only when both are empty and "#endif\n". */
  lemma OnlyEndif(entry: string, v: string)
    requires |v| >= 7
    ensures entry + v == "#endif\n" <==> entry == [] && v == "#endif\n"
  {
    if entry == [] {
      assert entry + v == v;
    } else {
      assert |entry + v| > 7;
    }
  }

  /** The header is the include guard and "#endif\n" alone exactly when the list is not empty and the whole walk is PrivateFrom. */
  lemma HeaderGuardOnly(basename: string, text: string, elems: seq<Element>)
    requires Tiling(text, elems)
    ensures Header(basename, text, elems) == Ok(Guard(basename) + "#endif\n") <==> |elems| > 0 && PrivateFrom(text, elems, 0)
  {
    HeaderFromPrivate(text, elems, 0);
    var r := HeaderFrom(text, elems, 0);
    if r.Ok? && Guard(basename) + r.value == Guard(basename) + "#endif\n" {
      assert r.value == (Guard(basename) + r.value)[|Guard(basename)|..];
    }
  }

  /** From any element the two walks fail together, with the same error. */
  lemma {:induction false} FailTogether(text: string, elems: seq<Element>, e: nat)
    requires Tiling(text, elems) && e <= |elems|
    ensures HeaderFrom(text, elems, e).Fail? <==> ImplFrom(text, elems, e).Fail?
    ensures HeaderFrom(text, elems, e).Fail? ==> HeaderFrom(text, elems, e).error == ImplFrom(text, elems, e).error
    decreases |elems| - e, 1
  {
    var s := NextPhraseStart(elems, e);
    if s < |elems| {
      FailTogetherPhrase(text, elems, e, s);
    }
  }

  /** HeaderPhrase and ImplPhrase fail together, with the same error. */
  lemma {:induction false} FailTogetherPhrase(text: string, elems: seq<Element>, e: nat, s: nat)
    requires Tiling(text, elems) && e <= s < |elems| && PhraseStart(elems[s])
    ensures HeaderPhrase(text, elems, s).Fail? <==> ImplPhrase(text, elems, e, s).Fail?
    ensures HeaderPhrase(text, elems, s).Fail? ==> HeaderPhrase(text, elems, s).error == ImplPhrase(text, elems, e, s).error
    decreases |elems| - s, 0
  {
    TilingSpans(text, elems);
    var p := Classify(text, elems, s);
    if p.ptype != Error {
      ClassifiedEmittable(text, elems, s);
      FailTogether(text, elems, p.last + 1);
    }
  }

  /** The header fails exactly when the implementation does, with the same error. */
  lemma EmittersFailTogether(basename: string, text: string, elems: seq<Element>)
    requires Tiling(text, elems)
    ensures Header(basename, text, elems).Fail? <==> Impl(text, elems).Fail?
    ensures Impl(text, elems).Fail? ==> Header(basename, text, elems).error == Impl(text, elems).error
  {
    FailTogether(text, elems, 0);
  }

  /** get_phrase with the end of the list ending the descent: Classify as a method. */
  method ClassifyPhrase(text: string, elems: seq<Element>, start: nat) returns (p: Phrase)
    requires Spans(text, elems) && start < |elems|
    ensures p == Classify(text, elems, start)
  {
    var r := GetPhrase(text, elems, start);
    match r
    case Recognized(q) => p := q;
    case Diverged => p := Phrase(Error, IsPublicAt(elems, start), start, |elems|);
  }

  /** The error report of both emitters: count_line_breaks up to the offending element, plus one. */
  method ReportError(text: string, elems: seq<Element>, p: Phrase) returns (err: EmitError)
    requires Tiling(text, elems) && p.first < |elems| && p.last <= |elems|
    ensures err == EmitError(ErrorLine(text, elems, p))
  {
    var e := p.first;
    if p.last < |elems| {
      e := p.last;
    }
    var breaks := CountLineBreaks(text, 0, elems[e].end);
    assert text[0..elems[e].end] == text[..elems[e].end];
    err := EmitError(breaks + 1);
  }

  /** The switch of create_header for one phrase. */
  method AppendHeaderEntry(head: string, text: string, elems: seq<Element>, p: Phrase) returns (r: string)
    requires Tiling(text, elems) && Emittable(elems, p)
    ensures r == head + HeaderEntry(text, elems, p)
  {
    r := head;
    if p.isPublic {
      var first := p.first + 1;
      TilingOrdered(text, elems, first, p.last);
      var span := text[elems[first].begin..elems[p.last].end];
      match p.ptype
      case VarDec | ArrDec =>
        r := r + "extern " + span + "\n";
        ConcatAssoc4(head, "extern ", span, "\n");
      case FunDec | Preproc =>
        r := r + span + "\n";
        ConcatAssoc(head, span, "\n");
      case FunDef =>
        r := AppendUntil(r, text, elems, first, Cur);
        ConcatAssoc(head, UntilStop(text, elems, first, Cur), ";\n");
        r := r + ";\n";
      case VarDef | ArrDef =>
        r := r + "extern ";
        r := AppendUntil(r, text, elems, first, Asg);
        ConcatAssoc4(head, "extern ", UntilStop(text, elems, first, Asg), ";\n");
        r := r + ";\n";
      case StructUnionEnumDef | TypeDef =>
        r := r + span + "\n";
        ConcatAssoc(head, span, "\n");
      case LineComment | BlockComment =>
        r := r + span + "\n";
        ConcatAssoc(head, span, "\n");
    }
  }

  /** The switch of create_impl for one phrase. */
  method AppendImplEntry(impl: string, text: string, elems: seq<Element>, p: Phrase) returns (r: string)
    requires Tiling(text, elems) && Emittable(elems, p)
    ensures r == impl + ImplEntry(text, elems, p)
  {
    if p.isPublic {
      r := AppendPublicEntry(impl, text, elems, p);
    } else {
      r := AppendPrivateEntry(impl, text, elems, p);
    }
  }

  /** The public branch of create_impl's switch: the phrase without its marker, or only its line breaks. */
  method AppendPublicEntry(impl: string, text: string, elems: seq<Element>, p: Phrase) returns (r: string)
    requires Tiling(text, elems) && Emittable(elems, p) && p.isPublic
    ensures r == impl + ImplEntry(text, elems, p)
  {
    r := impl;
    var first := p.first + 1;
    TilingOrdered(text, elems, first, p.last);
    assert Span(text, elems, first, p.last) == text[elems[first].begin..elems[p.last].end];
    match p.ptype
    case StructUnionEnumDef | TypeDef | Preproc =>
      var lines := CountLineBreaks(text, elems[first].begin, elems[p.last].end);
      for i := 0 to lines
        invariant r == impl + Newlines(i)
      {
        ConcatAssoc(impl, Newlines(i), "\n");
        r := r + "\n";
      }
    case FunDec | FunDef | VarDec | VarDef | ArrDec | ArrDef | LineComment | BlockComment =>
      r := r + text[elems[first].begin..elems[p.last].end];
  }

  /** The private branch of create_impl's switch: the phrase as it is, "static " in front when MadeStatic. */
  method AppendPrivateEntry(impl: string, text: string, elems: seq<Element>, p: Phrase) returns (r: string)
    requires Tiling(text, elems) && Emittable(elems, p) && !p.isPublic
    ensures r == impl + ImplEntry(text, elems, p)
  {
    r := impl;
    TilingOrdered(text, elems, p.first, p.last);
    var body := text[elems[p.first].begin..elems[p.last].end];
    assert ImplEntry(text, elems, p) == if MadeStatic(text, elems, p) then "static " + body else body;
    match p.ptype
    case FunDec | FunDef =>
      var name := FunName(text, elems, p);
      assert MadeStatic(text, elems, p) <==> name != "main";
      if name != "main" {
        r := r + "static ";
        ConcatAssoc(impl, "static ", body);
      }
      r := r + body;
    case VarDec | VarDef | ArrDec | ArrDef =>
      assert MadeStatic(text, elems, p);
      r := r + "static ";
      ConcatAssoc(impl, "static ", body);
      r := r + body;
    case StructUnionEnumDef | TypeDef | Preproc | LineComment | BlockComment =>
      assert !MadeStatic(text, elems, p);
      r := r + body;
  }

  /** HeaderFrom before a phrase: its error, or its entry and the walk after it. */
  lemma HeaderFromStep(text: string, elems: seq<Element>, e: nat, p: Phrase)
    requires Tiling(text, elems) && e <= |elems| && NextPhraseStart(elems, e) < |elems|
    requires p == Classify(text, elems, NextPhraseStart(elems, e))
    ensures p.ptype == Error ==> HeaderFrom(text, elems, e) == Fail(EmitError(ErrorLine(text, elems, p)))
    ensures p.ptype != Error ==>
              && Emittable(elems, p) && p.first == NextPhraseStart(elems, e)
              && HeaderFrom(text, elems, e) == PrependText(HeaderEntry(text, elems, p), HeaderFrom(text, elems, p.last + 1))
  {
    ClassifiedEmittable(text, elems, p.first);
    assert HeaderFrom(text, elems, e) == HeaderPhrase(text, elems, p.first);
  }

  /** ImplFrom before a phrase: its error, or the gap, its entry and the walk after it. */
  lemma ImplFromStep(text: string, elems: seq<Element>, e: nat, p: Phrase)
    requires Tiling(text, elems) && e <= |elems| && NextPhraseStart(elems, e) < |elems|
    requires p == Classify(text, elems, NextPhraseStart(elems, e))
    ensures p.ptype == Error ==> ImplFrom(text, elems, e) == Fail(EmitError(ErrorLine(text, elems, p)))
    ensures p.ptype != Error ==>
              && Emittable(elems, p) && e <= p.first == NextPhraseStart(elems, e)
              && ImplFrom(text, elems, e) == PrependText(Gap(text, elems, e, p.first) + ImplEntry(text, elems, p), ImplFrom(text, elems, p.last + 1))
  {
    ClassifiedEmittable(text, elems, p.first);
    assert ImplFrom(text, elems, e) == ImplPhrase(text, elems, e, p.first);
  }

  /**
   * create_header as the C loop: the guard, then for each phrase its
   * entry, then "#endif\n"; an error phrase stops it.
   */
  method CreateHeader(basename: string, text: string, elems: seq<Element>) returns (r: Result<string, EmitError>)
    requires Tiling(text, elems)
    ensures r == Header(basename, text, elems)
  {
    if |elems| == 0 {
      return Fail(EmptyList);
    }
    TilingSpans(text, elems);
    var head := Guard(basename);
    var e := 0;
    ghost var goal := Header(basename, text, elems);
    while e < |elems|
      invariant e <= |elems|
      invariant goal == PrependText(head, HeaderFrom(text, elems, e))
      decreases |elems| - e
    {
      var f := SkipWhiLbrSem(elems, e);
      if f == |elems| {
        return Ok(head + "#endif\n");
      }
      var phrase := ClassifyPhrase(text, elems, f);
      HeaderFromStep(text, elems, e, phrase);
      if phrase.ptype == Error {
        var err := ReportError(text, elems, phrase);
        return Fail(err);
      }
      PrependTextTwice(head, HeaderEntry(text, elems, phrase), HeaderFrom(text, elems, phrase.last + 1));
      head := AppendHeaderEntry(head, text, elems, phrase);
      e := phrase.last + 1;
    }
    r := Ok(head + "#endif\n");
  }

  /**
   * create_impl as the C code: an empty list is refused; otherwise the
   * loop copies the text up to each phrase, the phrase's entry, and after
   * the last phrase the rest of the text; an error phrase stops it.
   */
  method CreateImpl(text: string, elems: seq<Element>) returns (r: Result<string, EmitError>)
    requires Tiling(text, elems)
    ensures r == Impl(text, elems)
  {
    if |elems| == 0 {
      return Fail(EmptyList);
    }
    r := ImplLoop(text, elems);
  }

  /** The loop of create_impl over a list that is not empty. */
  method ImplLoop(text: string, elems: seq<Element>) returns (r: Result<string, EmitError>)
    requires Tiling(text, elems) && |elems| > 0
    ensures r == ImplFrom(text, elems, 0)
  {
    TilingSpans(text, elems);
    var impl := "";
    var e := 0;
    ghost var goal := ImplFrom(text, elems, 0);
    PrependNothing(goal);
    while e < |elems|
      invariant e <= |elems|
      invariant goal == PrependText(impl, ImplFrom(text, elems, e))
      decreases |elems| - e
    {
      var f := SkipWhiLbrSem(elems, e);
      if f == |elems| {
        impl := impl + text[elems[e].begin..];
        return Ok(impl);
      }
      var phrase := ClassifyPhrase(text, elems, f);
      ImplFromStep(text, elems, e, phrase);
      if phrase.ptype == Error {
        var err := ReportError(text, elems, phrase);
        return Fail(err);
      }
      var gap := Gap(text, elems, e, f);
      PrependTextTwice(impl, gap + ImplEntry(text, elems, phrase), ImplFrom(text, elems, phrase.last + 1));
      ConcatAssoc(impl, gap, ImplEntry(text, elems, phrase));
      impl := impl + gap;
      e := f;
      impl := AppendImplEntry(impl, text, elems, phrase);
      e := phrase.last + 1;
    }
    assert impl + [] == impl;
    r := Ok(impl);
  }
}
