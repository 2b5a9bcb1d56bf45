/**
 * get_elements (headify.c): scans the whole source text into a list of
 * elements. A scan error stops the program with "<file>:<line>: <message>";
 * here it is returned as a LexError carrying the problem and the line.
 */
module Lexer {
  import opened Types
  import opened Scanner
  import opened ElementList

  /** The reported failure: the scan problem and the 1-based line of its position. */
  datatype LexError = LexError(problem: Problem, line: nat)

  /** The line, counted from 1, of position pos. */
  function LineOf(text: string, pos: nat): nat
    requires pos <= |text|
  {
    LineBreaks(text[..pos]) + 1
  }

  function Prepend(es: seq<Element>, r: Result<seq<Element>, LexError>): Result<seq<Element>, LexError>
  {
    match r
    case Ok(rest) => Ok(es + rest)
    case Fail(x) => Fail(x)
  }

  lemma PrependNothing(r: Result<seq<Element>, LexError>)
    ensures Prepend([], r) == r
  {
    if r.Ok? {
      assert [] + r.value == r.value;
    }
  }

  lemma PrependTwice(xs: seq<Element>, ys: seq<Element>, r: Result<seq<Element>, LexError>)
    ensures Prepend(xs, Prepend(ys, r)) == Prepend(xs + ys, r)
  {
    if r.Ok? {
      assert xs + (ys + r.value) == (xs + ys) + r.value;
    }
  }

  /**
   * The elements scanned from s with indentation flag indent, up to the end
   * of the source; the first scan error instead, with its line.
   */
  function TokenizeFrom(text: string, s: nat, indent: bool): (r: Result<seq<Element>, LexError>)
    requires NoNul(text) && s <= |text|
    ensures r.Fail? ==> 1 <= r.error.line <= LineBreaks(text) + 1
    decreases |text| - s
  {
    var e := Scan(text, s, indent);
    if e.elem.kind == Eos then Ok([])
    else if e.elem.kind == Err then
      var pos := e.error.value.pos;
      LineBound(text, pos);
      Fail(LexError(e.error.value.problem, LineOf(text, pos)))
    else Prepend([e.elem], TokenizeFrom(text, e.elem.end, e.indent))
  }

  /** What TokenizeFrom returns covers the rest of the text exactly. */
  lemma {:induction false} TokenizeFromTiles(text: string, s: nat, indent: bool)
    requires NoNul(text) && s <= |text|
    ensures TokenizeFrom(text, s, indent).Ok? ==> TilesFrom(text, s, TokenizeFrom(text, s, indent).value)
    decreases |text| - s
  {
    var e := Scan(text, s, indent);
    if e.elem.kind != Eos && e.elem.kind != Err {
      var tail := TokenizeFrom(text, e.elem.end, e.indent);
      TokenizeFromTiles(text, e.elem.end, e.indent);
      if tail.Ok? {
        var es := [e.elem] + tail.value;
        assert TokenizeFrom(text, s, indent) == Ok(es);
        assert forall i :: 0 < i < |es| ==> es[i] == tail.value[i - 1];
        TilesCons(text, s, e.elem, tail.value);
      }
    }
  }

  lemma TilesCons(text: string, s: nat, h: Element, rest: seq<Element>)
    requires h.begin == s < h.end <= |text| && h.kind != Err && h.kind != Eos
    requires h.kind == Pub ==> h.end == h.begin + 1 && text[h.begin] == '*'
    requires TilesFrom(text, h.end, rest)
    ensures TilesFrom(text, s, [h] + rest)
  {
    var es := [h] + rest;
    assert forall i :: 0 < i < |es| ==> es[i] == rest[i - 1];
  }

  /** The list get_elements builds, starting with the flag set as at program start. */
  function Tokenize(text: string): (r: Result<seq<Element>, LexError>)
    requires NoNul(text)
    ensures r.Fail? ==> 1 <= r.error.line <= LineBreaks(text) + 1
  {
    TokenizeFrom(text, 0, true)
  }

  /** A successful scan tiles the whole text. */
  lemma TokenizeTiles(text: string)
    requires NoNul(text)
    ensures Tokenize(text).Ok? ==> Tiling(text, Tokenize(text).value)
  {
    TokenizeFromTiles(text, 0, true);
  }

  /**
   * The elements es cover text[s..] exactly: non-empty, contiguous, ending
   * at the end of the text, no error or end-of-source among them, every
   * public marker a single '*'.
   */
  ghost predicate TilesFrom(text: string, s: nat, es: seq<Element>)
  {
    && (|es| == 0 <==> s == |text|)
    && (|es| > 0 ==> es[0].begin == s && es[|es| - 1].end == |text|)
    && (forall i :: 0 <= i < |es| ==> es[i].begin < es[i].end <= |text|)
    && (forall i :: 0 < i < |es| ==> es[i - 1].end == es[i].begin)
    && (forall i :: 0 <= i < |es| ==> es[i].kind != Err && es[i].kind != Eos)
    && (forall i :: 0 <= i < |es| && es[i].kind == Pub ==>
          es[i].end == es[i].begin + 1 && text[es[i].begin] == '*')
  }

  lemma LineBound(text: string, pos: nat)
    requires pos <= |text|
    ensures LineBreaks(text[..pos]) <= LineBreaks(text)
  {
    assert text == text[..pos] + text[pos..];
    LineBreaksConcat(text[..pos], text[pos..]);
  }

  /** One element more in the list, one element less still to scan. */
  lemma TokenizeStep(text: string, pos: nat, ind: bool, xs: seq<Element>)
    requires NoNul(text) && pos <= |text|
    requires Scan(text, pos, ind).elem.kind != Eos && Scan(text, pos, ind).elem.kind != Err
    ensures var e := Scan(text, pos, ind);
      Prepend(xs, TokenizeFrom(text, pos, ind)) == Prepend(xs + [e.elem], TokenizeFrom(text, e.elem.end, e.indent))
  {
    var e := Scan(text, pos, ind);
    PrependTwice(xs, [e.elem], TokenizeFrom(text, e.elem.end, e.indent));
  }

  /**
   * The error report of get_elements: the scan problem and count_line_breaks
   * up to the error position, plus one. It is the error Tokenize ends with.
   */
  method ReportScanError(text: string, pos: nat, ind: bool, e: Scanned) returns (err: LexError)
    requires NoNul(text) && pos <= |text| && e == Scan(text, pos, ind) && e.elem.kind == Err
    ensures TokenizeFrom(text, pos, ind) == Fail(err)
  {
    var at := e.error.value.pos;
    var breaks := CountLineBreaks(text, 0, at);
    err := LexError(e.error.value.problem, breaks + 1);
  }

  /** new_element and elements_append: a new node carrying x goes at the end of the list. */
  method AppendElement(list: List, x: Element)
    requires list.Valid()
    modifies list, list.last
    ensures list.Valid() && list.Contents() == old(list.Contents()) + [x]
    ensures fresh(list.last)
  {
    var node := new Node(x);
    list.Append(node);
  }

  /**
   * get_elements: appends every scanned element to a new list until the end
   * of the source; stops at the first scan error. The list holds exactly the
   * elements Tokenize gives, or failure is Tokenize's error.
   */
  method GetElements(text: string) returns (list: List, failure: Option<LexError>)
    requires NoNul(text)
    ensures fresh(list) && list.Valid()
    ensures failure.None? ==> Tokenize(text) == Ok(list.Contents())
    ensures failure.Some? ==> Tokenize(text) == Fail(failure.value)
  {
    list := new List();
    var e := ScanNext(text, 0, true);
    var pos, ind := 0, true;
    PrependNothing(TokenizeFrom(text, 0, true));
    while e.elem.kind != Eos && e.elem.kind != Err
      invariant fresh(list) && list.Valid()
      invariant list.last == null || fresh(list.last)
      invariant pos <= |text| && e == Scan(text, pos, ind)
      invariant TokenizeFrom(text, 0, true) == Prepend(list.Contents(), TokenizeFrom(text, pos, ind))
      decreases |text| - pos
    {
      TokenizeStep(text, pos, ind, list.Contents());
      AppendElement(list, e.elem);
      pos, ind := e.elem.end, e.indent;
      e := ScanNext(text, e.elem.end, e.indent);
    }
    if e.elem.kind == Err {
      var err := ReportScanError(text, pos, ind, e);
      return list, Some(err);
    }
    assert list.Contents() + [] == list.Contents();
    failure := None;
  }
}
