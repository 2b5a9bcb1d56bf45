/**
 * What the phrase automaton recognises, stated as the grammar of headify.h
 * and proved in both directions: the descent from a state stops with a
 * non-error type at an element exactly when the significant elements from
 * the input up to that element have the shape the grammar gives for that
 * type.
 *
 * "Significant" elements are those that are neither whitespace nor line
 * breaks; the automaton never looks at the others, and the shapes below
 * speak only of significant elements.
 */
module PhraseShapes {
  import opened Types
  import opened Classifier

  /** The automaton may be at i: i is the end of the list or a significant element. */
  predicate SigOrEnd(elems: seq<Element>, i: nat)
  {
    i <= |elems| && (i == |elems| || Significant(elems[i]))
  }

  /** The kinds of significant element a state passes over without changing. */
  datatype Filler =
    | TokenFill     // tokens and the comments between them (f_tok)
    | CommentFill   // comments (f_tok_paren)
    | BracketFill   // further brackets and comments (f_tok_bracket)
    | NonSemicolon  // anything but ';' (the SeeksSemicolon states)

  predicate Fills(f: Filler, k: Kind)
  {
    match f
    case TokenFill => k == Tok || k == Lco || k == Bco
    case CommentFill => k == Lco || k == Bco
    case BracketFill => k == Bra || k == Lco || k == Bco
    case NonSemicolon => k != Sem
  }

  /** Every significant element in [i, j) has a kind that f fills. */
  ghost predicate AllSigIn(elems: seq<Element>, i: nat, j: nat, f: Filler)
  {
    forall k :: i <= k < j && k < |elems| && Significant(elems[k]) ==> Fills(f, elems[k].kind)
  }

  /** The first significant element at or after i whose kind f does not fill; |elems| if none. */
  ghost function FirstSigOutside(elems: seq<Element>, i: nat, f: Filler): (r: nat)
    requires i <= |elems|
    ensures i <= r <= |elems|
    ensures AllSigIn(elems, i, r, f)
    ensures r < |elems| ==> Significant(elems[r]) && !Fills(f, elems[r].kind)
    decreases |elems| - i
  {
    if i == |elems| then i
    else if Significant(elems[i]) && !Fills(f, elems[i].kind) then i
    else FirstSigOutside(elems, i + 1, f)
  }

  /** q is a state past the first token that goes to itself on every kind f fills. */
  ghost predicate Loops(q: AState, f: Filler)
  {
    q != Start && q != Public && forall k :: Fills(f, k) ==> Step(q, k, "") == Goto(q)
  }

  /**
   * A state that goes to itself on every kind f fills keeps its outcome over
   * a stretch of significant elements whose kinds f all fills.
   */
  lemma {:induction false} RunSkips(text: string, elems: seq<Element>, q: AState, f: Filler, i: nat, j: nat)
    requires Spans(text, elems) && i <= j && SigOrEnd(elems, i) && SigOrEnd(elems, j)
    requires Loops(q, f) && AllSigIn(elems, i, j, f)
    ensures Run(text, elems, q, i) == Run(text, elems, q, j)
    decreases j - i
  {
    if i < j {
      SkipOne(elems, f, i, j);
      LoopRunStep(text, elems, q, f, i);
      RunSkips(text, elems, q, f, NextInput(elems, i), j);
    }
  }

  /** The first element of a stretch f fills is filled, and the rest of the stretch follows `next`. */
  lemma SkipOne(elems: seq<Element>, f: Filler, i: nat, j: nat)
    requires i < j && SigOrEnd(elems, i) && SigOrEnd(elems, j) && AllSigIn(elems, i, j, f)
    ensures Fills(f, elems[i].kind)
    ensures var n := NextInput(elems, i); n <= j && SigOrEnd(elems, n) && AllSigIn(elems, n, j, f)
  {
    NextInputSkips(elems, i);
  }

  /** One step of a state over an element it loops on. */
  lemma LoopRunStep(text: string, elems: seq<Element>, q: AState, f: Filler, i: nat)
    requires Spans(text, elems) && i < |elems| && Significant(elems[i])
    requires Loops(q, f) && Fills(f, elems[i].kind)
    ensures Run(text, elems, q, i) == Run(text, elems, q, NextInput(elems, i))
  {
    StepIgnoresWord(q, elems[i].kind, Word(text, elems, i));
    RunOneStep(text, elems, q, i);
  }

  /** Only f_start and f_pub look at the characters of the input. */
  lemma StepIgnoresWord(q: AState, sym: Kind, word: string)
    requires q != Start && q != Public
    ensures Step(q, sym, word) == Step(q, sym, "")
  {
  }

  /** p is the first significant element at or after j whose kind f does not fill. */
  lemma FirstSigOutsideIs(elems: seq<Element>, j: nat, p: nat, f: Filler)
    requires j <= p < |elems| && Significant(elems[p]) && !Fills(f, elems[p].kind)
    requires AllSigIn(elems, j, p, f)
    ensures FirstSigOutside(elems, j, f) == p
  {
  }

  // ---------------------------------------------------------------------
  // The shapes, innermost first. j is where the automaton continues; l is
  // the element where it stops (the ';' or the '{...}').

  /** From j up to the element p of kind k, only significant elements that f fills. */
  ghost predicate Upto(elems: seq<Element>, j: nat, p: nat, f: Filler, k: Kind)
  {
    j <= p < |elems| && AllSigIn(elems, j, p, f) && elems[p].kind == k
  }

  /**
   * For a kind that f does not fill, Upto can only end at the first element
   * after j that f does not fill.
   */
  lemma UptoFirst(elems: seq<Element>, j: nat, p: nat, f: Filler, k: Kind)
    requires j <= |elems| && k != Whi && k != Lbr && !Fills(f, k)
    ensures var m := FirstSigOutside(elems, j, f);
      Upto(elems, j, p, f, k) <==> p == m && m < |elems| && elems[m].kind == k
  {
    if Upto(elems, j, p, f, k) {
      FirstSigOutsideIs(elems, j, p, f);
    }
  }

  /** Anything but ';' up to the ';' at l (after '=', and in struct/union/enum and typedef). */
  ghost predicate SeekShape(elems: seq<Element>, j: nat, l: nat)
  {
    Upto(elems, j, l, NonSemicolon, Sem)
  }

  /** After the parameter list: comments, then ';' (fun_dec) or '{...}' (fun_def). */
  ghost predicate ParenShape(elems: seq<Element>, j: nat, l: nat, t: PhraseType)
  {
    || (t == FunDec && Upto(elems, j, l, CommentFill, Sem))
    || (t == FunDef && Upto(elems, j, l, CommentFill, Cur))
  }

  /** After the first '[...]': brackets and comments, then ';' (arr_dec) or '=' ... ';' (arr_def). */
  ghost predicate BracketShape(elems: seq<Element>, j: nat, l: nat, t: PhraseType)
  {
    || (t == ArrDec && Upto(elems, j, l, BracketFill, Sem))
    || (t == ArrDef && exists a :: Upto(elems, j, a, BracketFill, Asg) && SeekShape(elems, NextInput(elems, a), l))
  }

  /**
   * After the first token: more tokens and comments, then ';' (var_dec), or
   * '(...)' and a ParenShape (fun_dec, fun_def), or '=' and a SeekShape
   * (var_def), or '[...]' and a BracketShape (arr_dec, arr_def).
   */
  ghost predicate TokensShape(elems: seq<Element>, j: nat, l: nat, t: PhraseType)
  {
    || (t == VarDec && Upto(elems, j, l, TokenFill, Sem))
    || FunctionShape(elems, j, l, t)
    || (t == VarDef && VarDefShape(elems, j, l))
    || ArrayShape(elems, j, l, t)
  }

  ghost predicate FunctionShape(elems: seq<Element>, j: nat, l: nat, t: PhraseType)
  {
    exists p :: Upto(elems, j, p, TokenFill, Par) && ParenShape(elems, NextInput(elems, p), l, t)
  }

  ghost predicate VarDefShape(elems: seq<Element>, j: nat, l: nat)
  {
    exists a :: Upto(elems, j, a, TokenFill, Asg) && SeekShape(elems, NextInput(elems, a), l)
  }

  ghost predicate ArrayShape(elems: seq<Element>, j: nat, l: nat, t: PhraseType)
  {
    exists r :: Upto(elems, j, r, TokenFill, Bra) && BracketShape(elems, NextInput(elems, r), l, t)
  }

  /**
   * A phrase body starting at the significant element b: a directive or a
   * comment on its own, or a first token followed by the shape its word
   * calls for.
   */
  ghost predicate BodyShape(text: string, elems: seq<Element>, b: nat, l: nat, t: PhraseType)
    requires Spans(text, elems)
  {
    && b < |elems|
    && match elems[b].kind
       case Pre => t == Preproc && l == b
       case Lco => t == LineComment && l == b
       case Bco => t == BlockComment && l == b
       case Tok =>
         (match AfterFirstToken(Word(text, elems, b))
          case StructUnionEnum => t == StructUnionEnumDef && SeekShape(elems, NextInput(elems, b), l)
          case Typedef => t == TypeDef && SeekShape(elems, NextInput(elems, b), l)
          case _ => TokensShape(elems, NextInput(elems, b), l, t))
       case _ => false
  }

  // ---------------------------------------------------------------------
  // Each shape decided at the first element its filler does not fill.

  lemma FunctionShapeAt(elems: seq<Element>, j: nat, l: nat, t: PhraseType)
    requires j <= |elems|
    ensures var m := FirstSigOutside(elems, j, TokenFill);
      FunctionShape(elems, j, l, t) <==>
        m < |elems| && elems[m].kind == Par && ParenShape(elems, NextInput(elems, m), l, t)
  {
    var m := FirstSigOutside(elems, j, TokenFill);
    forall p: nat { UptoFirst(elems, j, p, TokenFill, Par); }
    if m < |elems| && elems[m].kind == Par {
      assert Upto(elems, j, m, TokenFill, Par);
    }
  }

  lemma VarDefShapeAt(elems: seq<Element>, j: nat, l: nat)
    requires j <= |elems|
    ensures var m := FirstSigOutside(elems, j, TokenFill);
      VarDefShape(elems, j, l) <==>
        m < |elems| && elems[m].kind == Asg && SeekShape(elems, NextInput(elems, m), l)
  {
    var m := FirstSigOutside(elems, j, TokenFill);
    forall a: nat { UptoFirst(elems, j, a, TokenFill, Asg); }
    if m < |elems| && elems[m].kind == Asg {
      assert Upto(elems, j, m, TokenFill, Asg);
    }
  }

  lemma ArrayShapeAt(elems: seq<Element>, j: nat, l: nat, t: PhraseType)
    requires j <= |elems|
    ensures var m := FirstSigOutside(elems, j, TokenFill);
      ArrayShape(elems, j, l, t) <==>
        m < |elems| && elems[m].kind == Bra && BracketShape(elems, NextInput(elems, m), l, t)
  {
    var m := FirstSigOutside(elems, j, TokenFill);
    forall r: nat { UptoFirst(elems, j, r, TokenFill, Bra); }
    if m < |elems| && elems[m].kind == Bra {
      assert Upto(elems, j, m, TokenFill, Bra);
    }
  }

  /** BracketShape seen from its first element m that is neither a bracket nor a comment. */
  ghost predicate BracketAfter(elems: seq<Element>, m: nat, l: nat, t: PhraseType)
  {
    && m < |elems|
    && ((t == ArrDec && elems[m].kind == Sem && l == m) ||
        (t == ArrDef && elems[m].kind == Asg && SeekShape(elems, NextInput(elems, m), l)))
  }

  /** TokensShape seen from its first element m that is neither a token nor a comment. */
  ghost predicate TokensAfter(elems: seq<Element>, m: nat, l: nat, t: PhraseType)
  {
    && m < |elems|
    && match elems[m].kind
       case Sem => t == VarDec && l == m
       case Par => ParenShape(elems, NextInput(elems, m), l, t)
       case Asg => t == VarDef && SeekShape(elems, NextInput(elems, m), l)
       case Bra => BracketShape(elems, NextInput(elems, m), l, t)
       case _ => false
  }

  lemma TokensShapeAt(elems: seq<Element>, j: nat, l: nat, t: PhraseType)
    requires j <= |elems|
    ensures TokensShape(elems, j, l, t) <==> TokensAfter(elems, FirstSigOutside(elems, j, TokenFill), l, t)
  {
    UptoFirst(elems, j, l, TokenFill, Sem);
    FunctionShapeAt(elems, j, l, t);
    VarDefShapeAt(elems, j, l);
    ArrayShapeAt(elems, j, l, t);
  }

  lemma BracketShapeAt(elems: seq<Element>, j: nat, l: nat, t: PhraseType)
    requires j <= |elems|
    ensures BracketShape(elems, j, l, t) <==> BracketAfter(elems, FirstSigOutside(elems, j, BracketFill), l, t)
  {
    var m := FirstSigOutside(elems, j, BracketFill);
    UptoFirst(elems, j, l, BracketFill, Sem);
    forall a: nat { UptoFirst(elems, j, a, BracketFill, Asg); }
    if m < |elems| && elems[m].kind == Asg {
      assert Upto(elems, j, m, BracketFill, Asg);
    }
  }

  // ---------------------------------------------------------------------
  // The states, innermost first.

  /** A SeeksSemicolon state at ';' stops there; at the end of the list it goes on forever. */
  lemma SeekStep(text: string, elems: seq<Element>, q: AState, m: nat)
    requires Spans(text, elems) && SigOrEnd(elems, m) && SeeksSemicolon(q)
    requires m < |elems| ==> elems[m].kind == Sem
    ensures Run(text, elems, q, m) == if m == |elems| then Diverges else Stopped(SemicolonType(q), m)
  {
    RunOneStep(text, elems, q, m);
  }

  /** f_tok_asg, f_tok_bracket_asg, f_struct_union_enum, f_typedef. */
  lemma SeekTail(text: string, elems: seq<Element>, q: AState, j: nat, l: nat, t: PhraseType)
    requires Spans(text, elems) && SigOrEnd(elems, j) && SeeksSemicolon(q)
    ensures Run(text, elems, q, j) == Stopped(t, l) <==> t == SemicolonType(q) && SeekShape(elems, j, l)
  {
    var m := FirstSigOutside(elems, j, NonSemicolon);
    RunSkips(text, elems, q, NonSemicolon, j, m);
    SeekStep(text, elems, q, m);
    UptoFirst(elems, j, l, NonSemicolon, Sem);
  }

  /** f_tok_paren at the first element that is not a comment. */
  lemma ParenStep(text: string, elems: seq<Element>, m: nat)
    requires Spans(text, elems) && SigOrEnd(elems, m)
    requires m < |elems| ==> !Fills(CommentFill, elems[m].kind)
    ensures Run(text, elems, TokParen, m) ==
      if m < |elems| && elems[m].kind == Sem then Stopped(FunDec, m)
      else if m < |elems| && elems[m].kind == Cur then Stopped(FunDef, m)
      else Stopped(Error, m)
  {
    RunOneStep(text, elems, TokParen, m);
  }

  /** f_tok_paren. */
  lemma ParenTail(text: string, elems: seq<Element>, j: nat, l: nat, t: PhraseType)
    requires Spans(text, elems) && SigOrEnd(elems, j) && t != Error
    ensures Run(text, elems, TokParen, j) == Stopped(t, l) <==> ParenShape(elems, j, l, t)
  {
    var m := FirstSigOutside(elems, j, CommentFill);
    RunSkips(text, elems, TokParen, CommentFill, j, m);
    ParenStep(text, elems, m);
    UptoFirst(elems, j, l, CommentFill, Sem);
    UptoFirst(elems, j, l, CommentFill, Cur);
  }

  /** f_tok_bracket at the first element that is neither a bracket nor a comment. */
  lemma BracketStep(text: string, elems: seq<Element>, m: nat)
    requires Spans(text, elems) && SigOrEnd(elems, m)
    requires m < |elems| ==> !Fills(BracketFill, elems[m].kind)
    ensures Run(text, elems, TokBracket, m) ==
      if m < |elems| && elems[m].kind == Sem then Stopped(ArrDec, m)
      else if m < |elems| && elems[m].kind == Asg then Run(text, elems, TokBracketAsg, NextInput(elems, m))
      else Stopped(Error, m)
  {
    var sym := Symbol(elems, m);
    assert Step(TokBracket, sym, Word(text, elems, m)) == AfterBracket(sym);
    RunOneStep(text, elems, TokBracket, m);
  }

  /** f_tok_bracket from its first element that is neither a bracket nor a comment. */
  lemma BracketAt(text: string, elems: seq<Element>, m: nat, l: nat, t: PhraseType)
    requires Spans(text, elems) && SigOrEnd(elems, m) && t != Error
    requires m < |elems| ==> !Fills(BracketFill, elems[m].kind)
    ensures Run(text, elems, TokBracket, m) == Stopped(t, l) <==> BracketAfter(elems, m, l, t)
  {
    BracketStep(text, elems, m);
    if m < |elems| && elems[m].kind == Asg {
      SeekTail(text, elems, TokBracketAsg, NextInput(elems, m), l, t);
    }
  }

  /** f_tok_bracket. */
  lemma BracketTail(text: string, elems: seq<Element>, j: nat, l: nat, t: PhraseType)
    requires Spans(text, elems) && SigOrEnd(elems, j) && t != Error
    ensures Run(text, elems, TokBracket, j) == Stopped(t, l) <==> BracketShape(elems, j, l, t)
  {
    var m := FirstSigOutside(elems, j, BracketFill);
    RunSkips(text, elems, TokBracket, BracketFill, j, m);
    BracketShapeAt(elems, j, l, t);
    BracketAt(text, elems, m, l, t);
  }

  /** f_tok at the first element that is neither a token nor a comment. */
  lemma TokensStep(text: string, elems: seq<Element>, m: nat)
    requires Spans(text, elems) && SigOrEnd(elems, m)
    requires m < |elems| ==> !Fills(TokenFill, elems[m].kind)
    ensures Run(text, elems, Tokens, m) ==
      if m == |elems| then Stopped(Error, m)
      else match elems[m].kind
        case Sem => Stopped(VarDec, m)
        case Par => Run(text, elems, TokParen, NextInput(elems, m))
        case Bra => Run(text, elems, TokBracket, NextInput(elems, m))
        case Asg => Run(text, elems, TokAsg, NextInput(elems, m))
        case _ => Stopped(Error, m)
  {
    RunOneStep(text, elems, Tokens, m);
  }

  /** f_tok from its first element that is neither a token nor a comment. */
  lemma TokensAt(text: string, elems: seq<Element>, m: nat, l: nat, t: PhraseType)
    requires Spans(text, elems) && SigOrEnd(elems, m) && t != Error
    requires m < |elems| ==> !Fills(TokenFill, elems[m].kind)
    ensures Run(text, elems, Tokens, m) == Stopped(t, l) <==> TokensAfter(elems, m, l, t)
  {
    TokensStep(text, elems, m);
    if m < |elems| {
      var n := NextInput(elems, m);
      match elems[m].kind
      case Par => ParenTail(text, elems, n, l, t);
      case Asg => SeekTail(text, elems, TokAsg, n, l, t);
      case Bra => BracketTail(text, elems, n, l, t);
      case _ =>
    }
  }

  /** f_tok. */
  lemma TokensTail(text: string, elems: seq<Element>, j: nat, l: nat, t: PhraseType)
    requires Spans(text, elems) && SigOrEnd(elems, j) && t != Error
    ensures Run(text, elems, Tokens, j) == Stopped(t, l) <==> TokensShape(elems, j, l, t)
  {
    var m := FirstSigOutside(elems, j, TokenFill);
    RunSkips(text, elems, Tokens, TokenFill, j, m);
    TokensShapeAt(elems, j, l, t);
    TokensAt(text, elems, m, l, t);
  }

  /**
   * f_start and f_pub from the body start b (the element after any public
   * marker): the descent stops with the non-error type t at l exactly when
   * the body has the shape of t.
   */
  lemma BodyTail(text: string, elems: seq<Element>, q: AState, b: nat, l: nat, t: PhraseType)
    requires Spans(text, elems) && SigOrEnd(elems, b) && t != Error
    requires q == Start || q == Public
    requires q == Start ==> b == |elems| || elems[b].kind != Pub
    ensures Run(text, elems, q, b) == Stopped(t, l) <==> BodyShape(text, elems, b, l, t)
  {
    RunOneStep(text, elems, q, b);
    if b < |elems| && elems[b].kind == Tok {
      var n := NextInput(elems, b);
      match AfterFirstToken(Word(text, elems, b))
      case StructUnionEnum => SeekTail(text, elems, StructUnionEnum, n, l, t);
      case Typedef => SeekTail(text, elems, Typedef, n, l, t);
      case _ => TokensTail(text, elems, n, l, t);
    }
  }

  /** The body start: the first significant element, or the one after it when that is a public marker. */
  function BodyStart(elems: seq<Element>, start: nat): (b: nat)
    requires start <= |elems|
    ensures SigOrEnd(elems, b)
  {
    var f := NextSignificant(elems, start);
    if f < |elems| && elems[f].kind == Pub then NextInput(elems, f) else f
  }

  /**
   * get_phrase recognises a phrase of the non-error type t ending at l
   * exactly when the elements after the optional public marker have the
   * shape of t; the phrase is public exactly when that marker is there.
   */
  lemma PhraseShape(text: string, elems: seq<Element>, start: nat, l: nat, t: PhraseType)
    requires Spans(text, elems) && start < |elems| && t != Error
    ensures PhraseAt(text, elems, start) == Recognized(Phrase(t, IsPublicAt(elems, start), start, l))
        <==> BodyShape(text, elems, BodyStart(elems, start), l, t)
  {
    var f := NextSignificant(elems, start);
    if IsPublicAt(elems, start) {
      RunOneStep(text, elems, Start, f);
      BodyTail(text, elems, Public, NextInput(elems, f), l, t);
    } else {
      BodyTail(text, elems, Start, f, l, t);
    }
  }

  /** A second public marker after the first is an error at that marker. */
  lemma SecondMarkerIsError(text: string, elems: seq<Element>, start: nat)
    requires Spans(text, elems) && start < |elems| && IsPublicAt(elems, start)
    requires BodyStart(elems, start) < |elems| && elems[BodyStart(elems, start)].kind == Pub
    ensures PhraseAt(text, elems, start) == Recognized(Phrase(Error, true, start, BodyStart(elems, start)))
  {
    var f := NextSignificant(elems, start);
    RunOneStep(text, elems, Start, f);
    RunOneStep(text, elems, Public, NextInput(elems, f));
  }

  /** The recursion of get_phrase is endless only when no ';' follows the phrase start. */
  lemma SemicolonEndsDescent(text: string, elems: seq<Element>, start: nat, k: nat)
    requires Spans(text, elems) && start < |elems|
    requires NextSignificant(elems, start) <= k < |elems| && elems[k].kind == Sem
    ensures PhraseAt(text, elems, start).Recognized?
  {
  }
}
