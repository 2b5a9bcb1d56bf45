/**
 * The phrase classifier of headify.c: get_phrase and the f_... functions.
 *
 * The f_... functions form a recursive-descent automaton over element kinds:
 * each one looks at the current symbol and either records the phrase type
 * and returns, or advances `next` to the following significant element and
 * calls the next state. Here a state is an AState, one look at the symbol is
 * Step, and the whole descent is Run. Whitespace and line breaks are never
 * looked at: `next` skips them.
 *
 * At the end of the element list `next` leaves the input where it is (the
 * NULL input), so a state that keeps going on every symbol but `;` calls
 * itself forever there. Run makes that an explicit outcome, Diverges.
 */
module Classifier {
  import opened Types

  /** Neither whitespace nor a line break: the elements the automaton sees. */
  predicate Significant(e: Element) { e.kind != Whi && e.kind != Lbr }

  /** Neither whitespace, nor a line break, nor ';': where a new phrase can start. */
  predicate PhraseStart(e: Element) { Significant(e) && e.kind != Sem }

  /** skip_whi_lbr: the first significant element at or after i; |elems| (NULL) if none. */
  function NextSignificant(elems: seq<Element>, i: nat): (r: nat)
    requires i <= |elems|
    ensures i <= r <= |elems|
    ensures r < |elems| ==> Significant(elems[r])
    decreases |elems| - i
  {
    if i == |elems| || Significant(elems[i]) then i else NextSignificant(elems, i + 1)
  }

  /** No element NextSignificant skips is significant. */
  lemma {:induction false} NextSignificantSkips(elems: seq<Element>, i: nat)
    requires i <= |elems|
    ensures forall k :: i <= k < NextSignificant(elems, i) ==> !Significant(elems[k])
    decreases |elems| - i
  {
    if i < |elems| && !Significant(elems[i]) {
      NextSignificantSkips(elems, i + 1);
    }
  }

  /** skip_whi_lbr_sem: the first element at or after i that can start a phrase; |elems| if none. */
  function NextPhraseStart(elems: seq<Element>, i: nat): (r: nat)
    requires i <= |elems|
    ensures i <= r <= |elems|
    ensures r < |elems| ==> PhraseStart(elems[r])
    decreases |elems| - i
  {
    if i == |elems| || PhraseStart(elems[i]) then i else NextPhraseStart(elems, i + 1)
  }

  /** No element NextPhraseStart skips can start a phrase. */
  lemma {:induction false} NextPhraseStartSkips(elems: seq<Element>, i: nat)
    requires i <= |elems|
    ensures forall k :: i <= k < NextPhraseStart(elems, i) ==> !PhraseStart(elems[k])
    decreases |elems| - i
  {
    if i < |elems| && !PhraseStart(elems[i]) {
      NextPhraseStartSkips(elems, i + 1);
    }
  }

  /** skip_whi_lbr as the C loop. */
  method SkipWhiLbr(elems: seq<Element>, i: nat) returns (r: nat)
    requires i <= |elems|
    ensures r == NextSignificant(elems, i)
  {
    r := i;
    while r < |elems| && !Significant(elems[r])
      invariant i <= r <= |elems|
      invariant NextSignificant(elems, r) == NextSignificant(elems, i)
      decreases |elems| - r
    {
      r := r + 1;
    }
  }

  /** skip_whi_lbr_sem as the C loop. */
  method SkipWhiLbrSem(elems: seq<Element>, i: nat) returns (r: nat)
    requires i <= |elems|
    ensures r == NextPhraseStart(elems, i)
  {
    r := i;
    while r < |elems| && !PhraseStart(elems[r])
      invariant i <= r <= |elems|
      invariant NextPhraseStart(elems, r) == NextPhraseStart(elems, i)
      decreases |elems| - r
    {
      r := r + 1;
    }
  }

  /**
   * next: moves the input to the following significant element; at the end
   * of the list (input NULL) the input stays where it is.
   */
  function NextInput(elems: seq<Element>, i: nat): (r: nat)
    requires i <= |elems|
    ensures i == |elems| ==> r == i
    ensures i < |elems| ==> i < r
    ensures r <= |elems| && (r < |elems| ==> Significant(elems[r]))
  {
    if i == |elems| then i else NextSignificant(elems, i + 1)
  }

  /** No element strictly between i and NextInput is significant. */
  lemma NextInputSkips(elems: seq<Element>, i: nat)
    requires i <= |elems|
    ensures forall k :: i < k < NextInput(elems, i) ==> !Significant(elems[k])
  {
    if i < |elems| {
      NextSignificantSkips(elems, i + 1);
    }
  }

  /** symbol: the kind of the input element, eos at the end of the list. */
  function Symbol(elems: seq<Element>, i: nat): (k: Kind)
    requires i <= |elems|
    ensures i < |elems| ==> k == elems[i].kind
    ensures i == |elems| ==> k == Eos
  {
    if i < |elems| then elems[i].kind else Eos
  }

  /** The characters of the input element, empty at the end of the list. */
  function Word(text: string, elems: seq<Element>, i: nat): string
    requires Spans(text, elems) && i <= |elems|
  {
    if i < |elems| then Slice(text, elems[i]) else ""
  }

  /** is_struct_union_enum on the characters of a token. */
  predicate IsStructUnionEnum(word: string) { word == "struct" || word == "union" || word == "enum" }

  /** is_typedef on the characters of a token. */
  predicate IsTypedef(word: string) { word == "typedef" }

  /** The states of the automaton, one per f_... function that reads a symbol. */
  datatype AState =
    | Start            // f_start
    | Public           // f_pub
    | Tokens           // f_tok
    | TokParen         // f_tok_paren
    | TokAsg           // f_tok_asg
    | TokBracket       // f_tok_bracket
    | TokBracketAsg    // f_tok_bracket_asg
    | StructUnionEnum  // f_struct_union_enum
    | Typedef          // f_typedef

  /** One look at the symbol: go on to a state after `next`, or record a phrase type and stop. */
  datatype Move = Goto(q: AState) | Accept(ptype: PhraseType)

  /** The state a first token leads to, in f_start and f_pub. */
  function AfterFirstToken(word: string): AState
  {
    if IsStructUnionEnum(word) then StructUnionEnum
    else if IsTypedef(word) then Typedef
    else Tokens
  }

  /** The four states that go on with every symbol except ';'. */
  predicate SeeksSemicolon(q: AState)
  {
    q == TokAsg || q == TokBracketAsg || q == StructUnionEnum || q == Typedef
  }

  /** The type a SeeksSemicolon state records at ';'. */
  function SemicolonType(q: AState): PhraseType
    requires SeeksSemicolon(q)
  {
    match q
    case TokAsg => VarDef
    case TokBracketAsg => ArrDef
    case StructUnionEnum => StructUnionEnumDef
    case Typedef => TypeDef
  }

  /**
   * The switch of each f_... function. Every state stops at ';'; only the
   * four SeeksSemicolon states go on at the end of the input (eos), and they
   * go on to themselves; no state ever records `unknown`.
   */
  function Step(q: AState, sym: Kind, word: string): (m: Move)
    ensures m.Accept? ==> m.ptype != Unknown
    ensures sym == Sem ==> m.Accept?
    ensures sym == Eos && m.Goto? ==> SeeksSemicolon(q) && m.q == q
    ensures SeeksSemicolon(q) ==> m == (if sym == Sem then Accept(SemicolonType(q)) else Goto(q))
    ensures q == Start ==> (m == Goto(Public) <==> sym == Pub)
    ensures m == Goto(Public) ==> q == Start
    ensures m != Goto(Start)
  {
    match q
    case Start => if sym == Pub then Goto(Public) else FirstSymbol(sym, word)
    case Public => FirstSymbol(sym, word)
    case Tokens => AfterTokens(sym)
    case TokParen => AfterParen(sym)
    case TokBracket => AfterBracket(sym)
    case _ => if sym == Sem then Accept(SemicolonType(q)) else Goto(q)
  }

  /** f_start and f_pub apart from f_start's public marker. */
  function FirstSymbol(sym: Kind, word: string): (m: Move)
    ensures m.Accept? ==> m.ptype != Unknown
    ensures m.Goto? ==> sym == Tok && m.q == AfterFirstToken(word)
  {
    match sym
    case Tok => Goto(AfterFirstToken(word))
    case Pre => Accept(Preproc)
    case Lco => Accept(LineComment)
    case Bco => Accept(BlockComment)
    case _ => Accept(Error)
  }

  /** f_tok */
  function AfterTokens(sym: Kind): (m: Move)
    ensures m.Accept? ==> m.ptype != Unknown
    ensures m.Goto? ==> m.q in {Tokens, TokParen, TokBracket, TokAsg} && sym != Eos && sym != Sem
  {
    match sym
    case Tok => Goto(Tokens)
    case Sem => Accept(VarDec)
    case Par => Goto(TokParen)
    case Bra => Goto(TokBracket)
    case Asg => Goto(TokAsg)
    case Lco => Goto(Tokens)
    case Bco => Goto(Tokens)
    case _ => Accept(Error)
  }

  /** f_tok_paren */
  function AfterParen(sym: Kind): (m: Move)
    ensures m.Accept? ==> m.ptype != Unknown
    ensures m.Goto? ==> m.q == TokParen && sym != Eos && sym != Sem
  {
    match sym
    case Sem => Accept(FunDec)
    case Cur => Accept(FunDef)
    case Lco => Goto(TokParen)
    case Bco => Goto(TokParen)
    case _ => Accept(Error)
  }

  /** f_tok_bracket */
  function AfterBracket(sym: Kind): (m: Move)
    ensures m.Accept? ==> m.ptype != Unknown
    ensures m.Goto? ==> m.q in {TokBracket, TokBracketAsg} && sym != Eos && sym != Sem
  {
    match sym
    case Sem => Accept(ArrDec)
    case Bra => Goto(TokBracket)
    case Asg => Goto(TokBracketAsg)
    case Lco => Goto(TokBracket)
    case Bco => Goto(TokBracket)
    case _ => Accept(Error)
  }

  /** Where a descent ends: the recorded type and the input element then (|elems| for NULL), or never. */
  datatype Outcome = Stopped(ptype: PhraseType, last: nat) | Diverges

  /**
   * The descent from state q at input i. A move to a state at the end of the
   * list does not advance the input, and the only such moves are a
   * SeeksSemicolon state going to itself, so the C recursion never returns:
   * Diverges.
   */
  function Run(text: string, elems: seq<Element>, q: AState, i: nat): (r: Outcome)
    requires Spans(text, elems) && i <= |elems|
    requires i == |elems| || Significant(elems[i])
    ensures r.Stopped? ==> i <= r.last <= |elems| && r.ptype != Unknown
    ensures r.Stopped? && r.last == |elems| ==> r.ptype == Error
    ensures r.Stopped? && r.last < |elems| ==> Significant(elems[r.last])
    ensures r.Diverges? ==> NoSemicolonFrom(elems, i)
    decreases |elems| - i, 0
  {
    match Step(q, Symbol(elems, i), Word(text, elems, i))
    case Accept(t) => Stopped(t, i)
    case Goto(q') =>
      if i == |elems| then Diverges
      else
        NextSignificantSkips(elems, i + 1);
        RunFrom(text, elems, q', i + 1)
  }

  /**
   * The descent from state q at the first significant element at or after
   * i, where skip_whi_lbr and `next` leave the input.
   */
  function RunFrom(text: string, elems: seq<Element>, q: AState, i: nat): (r: Outcome)
    requires Spans(text, elems) && i <= |elems|
    ensures r.Stopped? ==> NextSignificant(elems, i) <= r.last <= |elems| && r.ptype != Unknown
    ensures r.Stopped? && r.last == |elems| ==> r.ptype == Error
    ensures r.Stopped? && r.last < |elems| ==> Significant(elems[r.last])
    ensures r.Diverges? ==> NoSemicolonFrom(elems, NextSignificant(elems, i))
    decreases |elems| - i, 1
  {
    Run(text, elems, q, NextSignificant(elems, i))
  }

  /** Run takes one step of the automaton. */
  lemma RunOneStep(text: string, elems: seq<Element>, q: AState, i: nat)
    requires Spans(text, elems) && i <= |elems|
    requires i == |elems| || Significant(elems[i])
    ensures var m := Step(q, Symbol(elems, i), Word(text, elems, i));
      Run(text, elems, q, i) ==
        if m.Accept? then Stopped(m.ptype, i)
        else if i == |elems| then Diverges
        else Run(text, elems, m.q, NextInput(elems, i))
  {
  }

  /** Past f_start and f_pub a step does not read the characters of the input. */
  lemma RunStepPastFirst(text: string, elems: seq<Element>, q: AState, i: nat)
    requires Spans(text, elems) && i <= |elems|
    requires i == |elems| || Significant(elems[i])
    requires q != Start && q != Public
    ensures var m := Step(q, Symbol(elems, i), "");
      Run(text, elems, q, i) ==
        if m.Accept? then Stopped(m.ptype, i)
        else if i == |elems| then Diverges
        else Run(text, elems, m.q, NextInput(elems, i))
  {
    assert Step(q, Symbol(elems, i), "") == Step(q, Symbol(elems, i), Word(text, elems, i));
    RunOneStep(text, elems, q, i);
  }

  /** No significant ';' at or after i. */
  ghost predicate NoSemicolonFrom(elems: seq<Element>, i: nat)
  {
    forall k :: i <= k < |elems| ==> elems[k].kind != Sem
  }

  /** The element get_phrase starts the automaton on is a public marker. */
  predicate IsPublicAt(elems: seq<Element>, start: nat)
    requires start <= |elems|
  {
    var b := NextSignificant(elems, start);
    b < |elems| && elems[b].kind == Pub
  }

  /** What get_phrase returns, or that it never returns. */
  datatype Recognition = Recognized(phrase: Phrase) | Diverged

  /**
   * get_phrase from the element at `start`: first is start itself, last the
   * input where the descent stopped (|elems| for NULL), and the phrase is
   * public when the first significant element is a public marker.
   */
  function PhraseAt(text: string, elems: seq<Element>, start: nat): (r: Recognition)
    requires Spans(text, elems) && start < |elems|
    ensures r.Recognized? ==>
              && r.phrase.first == start && start <= r.phrase.last <= |elems|
              && r.phrase.ptype != Unknown
              && (r.phrase.last == |elems| ==> r.phrase.ptype == Error)
              && r.phrase.isPublic == IsPublicAt(elems, start)
              && (r.phrase.isPublic ==> NextSignificant(elems, start) < r.phrase.last)
    ensures r.Diverged? ==> NoSemicolonFrom(elems, NextSignificant(elems, start))
  {
    RunOneStep(text, elems, Start, NextSignificant(elems, start));
    match RunFrom(text, elems, Start, start)
    case Diverges => Diverged
    case Stopped(t, last) => Recognized(Phrase(t, IsPublicAt(elems, start), start, last))
  }

  /**
   * get_phrase: a State whose input is the first significant element and
   * whose phrase starts (first) at `start`, handed to f_start.
   */
  method GetPhrase(text: string, elems: seq<Element>, start: nat) returns (r: Recognition)
    requires Spans(text, elems) && start < |elems|
    ensures r == PhraseAt(text, elems, start)
  {
    var state := State(start, Phrase(Unknown, false, start, start));
    var i := SkipWhiLbr(elems, state.input);
    state := State(i, state.phrase);
    r := Descend(text, elems, Start, state);
    assert Marked(state.phrase, Start, Symbol(elems, i)).isPublic == IsPublicAt(elems, start);
  }

  /** The phrase a finished descent leaves in the State: its type and last set, or none. */
  function Finish(o: Outcome, p: Phrase): Recognition
  {
    match o
    case Diverges => Diverged
    case Stopped(t, last) => Recognized(p.(ptype := t, last := last))
  }

  /** The phrase with is_public set when f_start reads a public marker. */
  function Marked(p: Phrase, q: AState, sym: Kind): Phrase
  {
    p.(isPublic := p.isPublic || (q == Start && sym == Pub))
  }

  /**
   * The f_... functions on a State: look at the symbol; either set the
   * phrase type and last (the input) and return, or apply `next` and call
   * the next state, f_pub setting is_public on the way. At the end of the
   * list `next` leaves the input unchanged and the C recursion never ends;
   * the result is then Diverged.
   */
  method Descend(text: string, elems: seq<Element>, q: AState, state: State) returns (r: Recognition)
    requires Spans(text, elems) && state.input <= |elems|
    requires state.input == |elems| || Significant(elems[state.input])
    ensures r == Finish(Run(text, elems, q, state.input), Marked(state.phrase, q, Symbol(elems, state.input)))
    decreases |elems| - state.input
  {
    var move := Step(q, Symbol(elems, state.input), Word(text, elems, state.input));
    if move.Accept? {
      RunOneStep(text, elems, q, state.input);
      return Recognized(state.phrase.(ptype := move.ptype, last := state.input));
    }
    if state.input == |elems| {
      RunOneStep(text, elems, q, state.input);
      return Diverged;
    }
    var phrase := state.phrase;
    if move.q == Public {
      phrase := phrase.(isPublic := true);
    }
    var n := SkipWhiLbr(elems, state.input + 1);
    DescendGoto(text, elems, q, state.input, state.phrase);
    assert n == NextInput(elems, state.input);
    assert phrase == Marked(state.phrase, q, Symbol(elems, state.input));
    r := Descend(text, elems, move.q, State(n, phrase));
  }

  /** One Goto of the descent: the same outcome from the next state at the next input. */
  lemma DescendGoto(text: string, elems: seq<Element>, q: AState, i: nat, p: Phrase)
    requires Spans(text, elems) && i < |elems| && Significant(elems[i])
    requires Step(q, Symbol(elems, i), Word(text, elems, i)).Goto?
    ensures var q', n := Step(q, Symbol(elems, i), Word(text, elems, i)).q, NextInput(elems, i);
      && q' != Start
      && Marked(p, q, Symbol(elems, i)) == p.(isPublic := p.isPublic || q' == Public)
      && Finish(Run(text, elems, q, i), Marked(p, q, Symbol(elems, i))) ==
         Finish(Run(text, elems, q', n), Marked(Marked(p, q, Symbol(elems, i)), q', Symbol(elems, n)))
  {
    RunOneStep(text, elems, q, i);
  }

  /**
   * The phrase the emitters act on: get_phrase's, and where get_phrase
   * would not return, an error phrase whose last is NULL (|elems|).
   */
  function Classify(text: string, elems: seq<Element>, start: nat): (p: Phrase)
    requires Spans(text, elems) && start < |elems|
    ensures p.first == start && start <= p.last <= |elems| && p.ptype != Unknown
    ensures p.last == |elems| ==> p.ptype == Error
    ensures p.isPublic == IsPublicAt(elems, start)
    ensures p.isPublic ==> NextSignificant(elems, start) < p.last
    ensures PhraseAt(text, elems, start).Recognized? ==> p == PhraseAt(text, elems, start).phrase
    ensures PhraseAt(text, elems, start).Diverged? ==> p.ptype == Error && p.last == |elems|
  {
    match PhraseAt(text, elems, start)
    case Recognized(p) => p
    case Diverged => Phrase(Error, IsPublicAt(elems, start), start, |elems|)
  }
}


