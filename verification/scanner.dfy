/**
 * The scanner of headify.c (scan_next and count_line_breaks). One call reads
 * the element that starts at a position of the source text.
 *
 * The C code keeps three globals: the indentation flag `indent`, which is true
 * at the start of a line until something other than blanks or block comments
 * is seen, and `error_message`/`error_pos`. Here the flag is threaded through
 * every call and returned with the element, and the error is part of the
 * result. The recursion that scans a balanced group is the mutual recursion
 * of Scan and ScanGroup; the imperative ScanNext follows the C loops and is
 * proved to compute Scan.
 */
module Scanner {
  import opened Types

  /** The five scan errors; Message gives the text error_message holds for each. */
  datatype Problem =
    | UnterminatedString | UnterminatedChar | UnterminatedComment
    | UnterminatedBraces | BracesDoNotMatch

  datatype ScanError = ScanError(problem: Problem, pos: nat)

  /** The element read, the indentation flag afterwards, and the error if the element is Err. */
  datatype Scanned = Scanned(elem: Element, indent: bool, error: Option<ScanError>)

  function Message(p: Problem): string
  {
    match p
    case UnterminatedString => "unterminated string literal"
    case UnterminatedChar => "unterminated character literal"
    case UnterminatedComment => "unterminated block comment"
    case UnterminatedBraces => "unterminated braces"
    case BracesDoNotMatch => "braces do not match"
  }

  predicate IsOpener(c: char) { c == '(' || c == '{' || c == '[' }

  predicate IsCloser(c: char) { c == ')' || c == '}' || c == ']' }

  predicate Blank(c: char) { c == ' ' || c == '\t' }

  /** braces_match: bo opens and bc closes the same kind of brace. */
  predicate BracesMatch(bo: char, bc: char)
  {
    (bo == '(' && bc == ')') || (bo == '{' && bc == '}') || (bo == '[' && bc == ']')
  }

  /** The kind of group an opening brace starts. */
  function GroupKind(c: char): Kind
    requires IsOpener(c)
  {
    if c == '(' then Par else if c == '{' then Cur else Bra
  }

  predicate IsGroup(k: Kind) { k == Par || k == Cur || k == Bra }

  /**
   * The indentation flag after an element of kind k read with flag indent: a
   * line break sets it; blanks, block comments, the public marker and the
   * end of the source keep it; everything else clears it.
   */
  function IndentAfter(k: Kind, indent: bool): bool
  {
    match k
    case Lbr => true
    case Whi | Bco | Pub | Eos => indent
    case _ => false
  }

  /** The characters that end a plain token. */
  predicate TokStop(c: char)
  {
    Blank(c) || c == '\n' || c == ';' || c == '=' || c == '/' || c == '\\'
    || c == '"' || c == '\'' || IsOpener(c) || IsCloser(c)
  }

  /** A backslash immediately followed by a line break starts at t. */
  predicate Continuation(text: string, t: nat)
  {
    t + 1 < |text| && text[t] == '\\' && text[t + 1] == '\n'
  }

  /** The two characters at k close a block comment. */
  predicate CommentEndAt(text: string, k: nat)
  {
    k + 1 < |text| && text[k] == '*' && text[k + 1] == '/'
  }

  /** Where a plain token that continues at t ends: the first stop character or the end. */
  function TokEnd(text: string, t: nat): (r: nat)
    requires t <= |text|
    ensures t <= r <= |text|
    ensures r < |text| ==> TokStop(text[r])
    ensures forall k :: t <= k < r ==> !TokStop(text[k])
    decreases |text| - t
  {
    if t == |text| || TokStop(text[t]) then t else TokEnd(text, t + 1)
  }

  /** Where a directive that continues at t ends: before a line break that is not continued. */
  function PreEnd(text: string, t: nat): (r: nat)
    requires t <= |text|
    ensures t <= r <= |text|
    ensures r < |text| ==> text[r] == '\n'
    ensures t < r < |text| ==> text[r - 1] != '\\'
    decreases |text| - t
  {
    if t == |text| then t
    else if Continuation(text, t) then PreEnd(text, t + 2)
    else if text[t] == '\n' then t
    else PreEnd(text, t + 1)
  }

  /** The character at k, in a run of blanks read from t, is a blank or half of a backslash-newline pair. */
  predicate InBlankRun(text: string, t: nat, k: nat)
    requires k < |text|
  {
    Blank(text[k]) || Continuation(text, k) || (t < k && Continuation(text, k - 1))
  }

  /** Where a run of blanks that continues at t ends; backslash-newline pairs do not end it. */
  function WhiEnd(text: string, t: nat): (r: nat)
    requires t <= |text|
    ensures t <= r <= |text|
    ensures r < |text| ==> !Blank(text[r]) && !Continuation(text, r)
    ensures forall k :: t <= k < r ==> InBlankRun(text, t, k)
    decreases |text| - t
  {
    if t == |text| then t
    else if Continuation(text, t) then
      var r := WhiEnd(text, t + 2);
      assert forall k | t + 2 <= k < r :: InBlankRun(text, t, k) by {
        forall k | t + 2 <= k < r ensures InBlankRun(text, t, k) {
          assert InBlankRun(text, t + 2, k);
        }
      }
      r
    else if !Blank(text[t]) then t
    else
      var r := WhiEnd(text, t + 1);
      assert forall k | t + 1 <= k < r :: InBlankRun(text, t, k) by {
        forall k | t + 1 <= k < r ensures InBlankRun(text, t, k) {
          assert InBlankRun(text, t + 1, k);
        }
      }
      r
  }

  /**
   * Where a string or character literal closed by delim ends (just after the
   * delimiter), scanning from t with the given escape flag; None if the text
   * ends first. A backslash toggles the escape flag, any other character
   * clears it.
   */
  function LitEnd(text: string, t: nat, delim: char, escape: bool): (r: Option<nat>)
    requires t <= |text|
    ensures r.Some? ==> t < r.value <= |text| && text[r.value - 1] == delim
    decreases |text| - t
  {
    if t == |text| then None
    else if !escape && text[t] == delim then Some(t + 1)
    else LitEnd(text, t + 1, delim, text[t] == '\\' && !escape)
  }

  /** Where a line comment that continues at t ends: before the first line break. */
  function LcoEnd(text: string, t: nat): (r: nat)
    requires t <= |text|
    ensures t <= r <= |text|
    ensures r < |text| ==> text[r] == '\n'
    ensures forall k :: t <= k < r ==> text[k] != '\n'
    decreases |text| - t
  {
    if t == |text| || text[t] == '\n' then t else LcoEnd(text, t + 1)
  }

  /** Where a block comment that continues at t ends: just after the first star-slash; None if there is none. */
  function BcoEnd(text: string, t: nat): (r: Option<nat>)
    requires t <= |text|
    ensures r.Some? ==> t + 2 <= r.value <= |text| && CommentEndAt(text, r.value - 2)
    ensures r.Some? ==> forall k :: t <= k < r.value - 2 ==> !CommentEndAt(text, k)
    ensures r.None? ==> forall k :: t <= k < |text| ==> !CommentEndAt(text, k)
    decreases |text| - t
  {
    if t == |text| then None
    else if CommentEndAt(text, t) then Some(t + 2)
    else BcoEnd(text, t + 1)
  }

  /** The error names the character found at its position. */
  predicate ErrorAt(text: string, err: ScanError)
  {
    && err.pos < |text|
    && match err.problem
       case UnterminatedString => text[err.pos] == '"'
       case UnterminatedChar => text[err.pos] == '\''
       case UnterminatedComment => text[err.pos] == '/' && At(text, err.pos + 1) == '*'
       case UnterminatedBraces => IsOpener(text[err.pos])
       case BracesDoNotMatch => IsCloser(text[err.pos])
  }

  /** A string or character literal opened at s; an error at s if it is not closed. */
  function ScanLiteral(text: string, s: nat): (r: Scanned)
    requires s < |text| && (text[s] == '"' || text[s] == '\'')
    ensures r.elem.kind == Tok || r.elem.kind == Err
    ensures r.elem.kind == Tok ==> r.error.None? && r.elem.begin == s && s < r.elem.end <= |text|
    ensures r.elem.kind == Err ==> r.elem == Element(Err, s, |text|) && r.error.Some? && ErrorAt(text, r.error.value) && r.error.value.pos == s
    ensures !r.indent
  {
    match LitEnd(text, s + 1, text[s], false)
    case Some(j) => Scanned(Element(Tok, s, j), false, None)
    case None =>
      var msg := if text[s] == '"' then UnterminatedString else UnterminatedChar;
      Scanned(Element(Err, s, |text|), false, Some(ScanError(msg, s)))
  }

  /** What starts with '/' at s: a line comment, a block comment (an error at s if it is not closed) or a one-character token. */
  function ScanSlash(text: string, s: nat, indent: bool): (r: Scanned)
    requires s < |text| && text[s] == '/'
    ensures r.elem.kind in {Lco, Bco, Tok, Err}
    ensures r.elem.kind != Err ==> r.error.None? && r.elem.begin == s && s < r.elem.end <= |text|
    ensures r.elem.kind == Err ==> r.elem == Element(Err, s, |text|) && r.error.Some? && ErrorAt(text, r.error.value) && r.error.value.pos == s
    ensures r.elem.kind in {Bco, Err} ==> r.indent == indent
    ensures r.elem.kind in {Lco, Tok} ==> !r.indent
  {
    var d := At(text, s + 1);
    if d == '/' then Scanned(Element(Lco, s, LcoEnd(text, s + 2)), false, None)
    else if d == '*' then
      match BcoEnd(text, s + 2)
      case Some(j) => Scanned(Element(Bco, s, j), indent, None)
      case None => Scanned(Element(Err, s, |text|), indent, Some(ScanError(UnterminatedComment, s)))
    else Scanned(Element(Tok, s, s + 1), false, None)
  }

  /**
   * scan_next: the element that starts at s, given the indentation flag.
   * Every element but end-of-source is non-empty and starts at s (an error
   * from inside a group is passed up unchanged and starts there); the flag is
   * set by a line break, kept by blanks, block comments and the public
   * marker, and cleared by everything else.
   */
  function Scan(text: string, s: nat, indent: bool): (r: Scanned)
    requires NoNul(text) && s <= |text|
    ensures r.elem.begin <= r.elem.end <= |text|
    ensures r.elem.kind == Eos <==> s == |text|
    ensures r.elem.kind == Eos ==> r.elem == Element(Eos, s, s) && r.indent == indent
    ensures r.elem.kind == Err <==> r.error.Some?
    ensures r.elem.kind != Err ==> r.elem.begin == s
    ensures r.elem.kind != Err && r.elem.kind != Eos ==> s < r.elem.end
    ensures r.error.Some? ==> s <= r.error.value.pos && ErrorAt(text, r.error.value)
    ensures r.elem.kind == Clo ==> r.elem.end == s + 1 && IsCloser(text[s])
    ensures r.elem.kind == Pub ==> r.elem.end == s + 1 && text[s] == '*'
    ensures IsGroup(r.elem.kind) ==>
              IsOpener(text[s]) && r.elem.kind == GroupKind(text[s]) && BracesMatch(text[s], text[r.elem.end - 1])
    ensures r.elem.kind != Err ==> r.indent == IndentAfter(r.elem.kind, indent)
    decreases |text| - s, 1
  {
    if s == |text| then Scanned(Element(Eos, s, s), indent, None)
    else ScanAt(text, s, indent)
  }

  /** The element that starts at the character at s: a group or a plain element. */
  function ScanAt(text: string, s: nat, indent: bool): (r: Scanned)
    requires NoNul(text) && s < |text|
    ensures r.elem.begin <= r.elem.end <= |text| && r.elem.kind != Eos
    ensures r.elem.kind == Err <==> r.error.Some?
    ensures r.elem.kind != Err ==> r.elem.begin == s < r.elem.end
    ensures r.error.Some? ==> s <= r.error.value.pos && ErrorAt(text, r.error.value)
    ensures r.elem.kind == Clo ==> r.elem.end == s + 1 && IsCloser(text[s])
    ensures r.elem.kind == Pub ==> r.elem.end == s + 1 && text[s] == '*'
    ensures IsGroup(r.elem.kind) ==>
              IsOpener(text[s]) && r.elem.kind == GroupKind(text[s]) && BracesMatch(text[s], text[r.elem.end - 1])
    ensures r.elem.kind != Err ==> r.indent == IndentAfter(r.elem.kind, indent)
    decreases |text| - s, 0
  {
    if IsOpener(text[s]) then ScanGroup(text, s, s + 1, false)
    else ScanPlain(text, s, indent)
  }

  /** Every element that does not start with an opening brace. */
  function ScanPlain(text: string, s: nat, indent: bool): (r: Scanned)
    requires NoNul(text) && s < |text| && !IsOpener(text[s])
    ensures r.elem.kind != Eos && !IsGroup(r.elem.kind)
    ensures r.elem.kind != Err ==> r.error.None? && r.elem.begin == s && s < r.elem.end <= |text|
    ensures r.elem.kind == Err ==> r.elem == Element(Err, s, |text|) && r.error.Some? && ErrorAt(text, r.error.value) && r.error.value.pos == s
    ensures r.elem.kind == Clo ==> r.elem.end == s + 1 && IsCloser(text[s])
    ensures r.elem.kind == Pub ==> r.elem.end == s + 1 && text[s] == '*'
    ensures r.elem.kind != Err ==> r.indent == IndentAfter(r.elem.kind, indent)
  {
    var c := text[s];
    if c == '\n' then Scanned(Element(Lbr, s, s + 1), true, None)
    else if c == '*' then Scanned(Element(if indent then Pub else Tok, s, s + 1), indent, None)
    else if c == ';' then Scanned(Element(Sem, s, s + 1), false, None)
    else if c == '=' then Scanned(Element(Asg, s, s + 1), false, None)
    else if c == '#' then
      if !indent then Scanned(Element(Tok, s, s + 1), indent, None)
      else Scanned(Element(Pre, s, PreEnd(text, s + 1)), false, None)
    else if Blank(c) then Scanned(Element(Whi, s, WhiEnd(text, s + 1)), indent, None)
    else if c == '"' || c == '\'' then ScanLiteral(text, s)
    else if c == '/' then ScanSlash(text, s, indent)
    else if IsCloser(c) then Scanned(Element(Clo, s, s + 1), false, None)
    else Scanned(Element(Tok, s, TokEnd(text, s + 1)), false, None)
  }

  /**
   * Scanning whole elements from t, threading the indentation flag, lands
   * exactly on c without meeting a closing brace, an error or the end of
   * the text on the way.
   */
  ghost predicate Interior(text: string, t: nat, ind: bool, c: nat)
    requires NoNul(text) && t <= c <= |text|
    decreases |text| - t, 4
  {
    t == c || InteriorAfter(text, t, c, Scan(text, t, ind))
  }

  /** The interior from t to c goes on with the element e read at t. */
  ghost predicate InteriorAfter(text: string, t: nat, c: nat, e: Scanned)
    requires NoNul(text) && t < c <= |text|
    decreases |text| - t, 2
  {
    && e.elem.kind != Clo && e.elem.kind != Err && e.elem.kind != Eos
    && t < e.elem.end <= c
    && Interior(text, e.elem.end, e.indent, c)
  }

  /**
   * The loop of scan_next that reads the inside of the group opened at
   * `open`, continuing at t with indentation flag ind. A closing brace ends
   * the group: a matching one gives the group element from the opener
   * through the closer, another one the error "braces do not match" at the
   * closer. The end of the text gives "unterminated braces" at the opener.
   * The closer is the first one at the group's own level: the elements read
   * one after another from t land on it without meeting another closer.
   */
  function ScanGroup(text: string, open: nat, t: nat, ind: bool): (r: Scanned)
    requires NoNul(text) && open < t <= |text| && IsOpener(text[open])
    ensures r.elem.begin <= r.elem.end <= |text|
    ensures r.elem.kind == Err <==> r.error.Some?
    ensures r.elem.kind != Err ==>
              && r.elem.kind == GroupKind(text[open]) && r.elem.begin == open && t < r.elem.end
              && BracesMatch(text[open], text[r.elem.end - 1]) && !r.indent
    ensures r.error.Some? ==> open <= r.error.value.pos && ErrorAt(text, r.error.value)
    ensures r.elem.kind != Err ==> Interior(text, t, ind, r.elem.end - 1)
    decreases |text| - t, 5
  {
    if t == |text| then Scanned(Element(Err, open, t), ind, Some(ScanError(UnterminatedBraces, open)))
    else GroupGoesOn(text, open, t, Scan(text, t, ind))
  }

  /**
   * The group opened at `open` after the element e read at t; an error read
   * inside the group is passed up unchanged.
   */
  function GroupGoesOn(text: string, open: nat, t: nat, e: Scanned): (r: Scanned)
    requires NoNul(text) && open < t < |text| && IsOpener(text[open])
    requires e.elem.begin <= e.elem.end <= |text|
    requires e.elem.kind == Err <==> e.error.Some?
    requires e.elem.kind != Err ==> e.elem.kind != Eos && e.elem.begin == t < e.elem.end
    requires e.error.Some? ==> t <= e.error.value.pos && ErrorAt(text, e.error.value)
    requires e.elem.kind == Clo ==> e.elem.end == t + 1 && IsCloser(text[t]) && !e.indent
    ensures r.elem.begin <= r.elem.end <= |text|
    ensures r.elem.kind == Err <==> r.error.Some?
    ensures r.elem.kind != Err ==>
              && r.elem.kind == GroupKind(text[open]) && r.elem.begin == open && t < r.elem.end
              && BracesMatch(text[open], text[r.elem.end - 1]) && !r.indent
    ensures r.error.Some? ==> open <= r.error.value.pos && ErrorAt(text, r.error.value)
    ensures e.elem.kind == Err ==> r == e
    ensures r.elem.kind != Err && e.elem.kind != Clo ==> t < r.elem.end - 1 && InteriorAfter(text, t, r.elem.end - 1, e)
    decreases |text| - t, 3
  {
    if e.elem.kind == Err then e
    else if e.elem.kind == Clo then CloseGroup(text, open, e)
    else ScanGroup(text, open, e.elem.end, e.indent)
  }

  /** The group opened at `open` meets the closing brace e. */
  function CloseGroup(text: string, open: nat, e: Scanned): (r: Scanned)
    requires open < e.elem.begin && e.elem.end == e.elem.begin + 1 <= |text|
    requires IsOpener(text[open]) && IsCloser(text[e.elem.begin]) && !e.indent
    ensures r.elem.begin == open && r.elem.end == e.elem.end && !r.indent
    ensures r.elem.kind == Err <==> r.error.Some?
    ensures r.elem.kind != Err ==> r.elem.kind == GroupKind(text[open]) && BracesMatch(text[open], text[r.elem.end - 1])
    ensures r.error.Some? ==> r.error.value == ScanError(BracesDoNotMatch, e.elem.begin) && ErrorAt(text, r.error.value)
  {
    if BracesMatch(text[open], text[e.elem.begin]) then
      Scanned(Element(GroupKind(text[open]), open, e.elem.end), e.indent, None)
    else
      Scanned(Element(Err, open, e.elem.end), e.indent, Some(ScanError(BracesDoNotMatch, e.elem.begin)))
  }

  /** scan_next, with the C loops; the indentation flag comes in and goes out with the result. */
  method ScanNext(text: string, s: nat, indent: bool) returns (r: Scanned)
    requires NoNul(text) && s <= |text|
    ensures r == Scan(text, s, indent)
    decreases |text| - s, 1
  {
    if s == |text| {
      return Scanned(Element(Eos, s, s), indent, None);
    }
    var c := text[s];
    if c == '(' || c == '{' || c == '[' {
      r := ScanGroupLoop(text, s);
      return;
    }
    var t := s + 1;
    if c == '\n' {
      r := Scanned(Element(Lbr, s, t), true, None);
    } else if c == '*' {
      r := Scanned(Element(if indent then Pub else Tok, s, t), indent, None);
    } else if c == ';' {
      r := Scanned(Element(Sem, s, t), false, None);
    } else if c == '=' {
      r := Scanned(Element(Asg, s, t), false, None);
    } else if c == '#' {
      if !indent {
        r := Scanned(Element(Tok, s, t), indent, None);
      } else {
        t := SkipDirective(text, t);
        r := Scanned(Element(Pre, s, t), false, None);
      }
    } else if c == ' ' || c == '\t' {
      t := SkipBlanks(text, t);
      r := Scanned(Element(Whi, s, t), indent, None);
    } else if c == '"' || c == '\'' {
      var closed := SkipLiteral(text, t, c);
      if closed.Some? {
        r := Scanned(Element(Tok, s, closed.value), false, None);
      } else {
        var problem := if c == '"' then UnterminatedString else UnterminatedChar;
        r := Scanned(Element(Err, s, |text|), false, Some(ScanError(problem, s)));
      }
    } else if c == '/' {
      var d := At(text, t);
      if d == '/' {
        t := SkipLineComment(text, t + 1);
        r := Scanned(Element(Lco, s, t), false, None);
      } else if d == '*' {
        var closed := SkipBlockComment(text, t + 1);
        if closed.Some? {
          r := Scanned(Element(Bco, s, closed.value), indent, None);
        } else {
          r := Scanned(Element(Err, s, |text|), indent, Some(ScanError(UnterminatedComment, s)));
        }
      } else {
        r := Scanned(Element(Tok, s, t), false, None);
      }
    } else if c == ')' || c == '}' || c == ']' {
      r := Scanned(Element(Clo, s, t), false, None);
    } else {
      t := SkipToken(text, t);
      r := Scanned(Element(Tok, s, t), false, None);
    }
  }

  /** The directive loop: up to a line break that is not continued by a backslash. */
  method SkipDirective(text: string, t0: nat) returns (t: nat)
    requires t0 <= |text|
    ensures t == PreEnd(text, t0)
  {
    t := t0;
    while t < |text|
      invariant t0 <= t <= |text|
      invariant PreEnd(text, t) == PreEnd(text, t0)
      decreases |text| - t
    {
      if text[t] == '\\' && At(text, t + 1) == '\n' {
        t := t + 2;
      } else if text[t] == '\n' {
        break;
      } else {
        t := t + 1;
      }
    }
  }

  /** The whitespace loop: blanks, tabs and backslash-newline pairs. */
  method SkipBlanks(text: string, t0: nat) returns (t: nat)
    requires t0 <= |text|
    ensures t == WhiEnd(text, t0)
  {
    t := t0;
    while t < |text|
      invariant t0 <= t <= |text|
      invariant WhiEnd(text, t) == WhiEnd(text, t0)
      decreases |text| - t
    {
      if text[t] == '\\' && At(text, t + 1) == '\n' {
        t := t + 2;
      } else if text[t] != ' ' && text[t] != '\t' {
        break;
      } else {
        t := t + 1;
      }
    }
  }

  /** The literal loop, with its escape flag; None when the text ends before the closing delimiter. */
  method SkipLiteral(text: string, t0: nat, delim: char) returns (closed: Option<nat>)
    requires t0 <= |text|
    ensures closed == LitEnd(text, t0, delim, false)
  {
    var t := t0;
    var escape := false;
    while t < |text|
      invariant t0 <= t <= |text|
      invariant LitEnd(text, t, delim, escape) == LitEnd(text, t0, delim, false)
      decreases |text| - t
    {
      if !escape && text[t] == delim {
        return Some(t + 1);
      }
      escape := if text[t] == '\\' then !escape else false;
      t := t + 1;
    }
    closed := None;
  }

  /** The line comment loop: up to the next line break. */
  method SkipLineComment(text: string, t0: nat) returns (t: nat)
    requires t0 <= |text|
    ensures t == LcoEnd(text, t0)
  {
    t := t0;
    while t < |text| && text[t] != '\n'
      invariant t0 <= t <= |text|
      invariant LcoEnd(text, t) == LcoEnd(text, t0)
      decreases |text| - t
    {
      t := t + 1;
    }
  }

  /** The block comment loop: just past the first star-slash, or None at the end of the text. */
  method SkipBlockComment(text: string, t0: nat) returns (closed: Option<nat>)
    requires t0 <= |text|
    ensures closed == BcoEnd(text, t0)
  {
    var t := t0;
    while t < |text|
      invariant t0 <= t <= |text|
      invariant BcoEnd(text, t) == BcoEnd(text, t0)
      decreases |text| - t
    {
      if text[t] == '*' && At(text, t + 1) == '/' {
        return Some(t + 2);
      }
      t := t + 1;
    }
    closed := None;
  }

  /** The plain token loop: up to the next stop character. */
  method SkipToken(text: string, t0: nat) returns (t: nat)
    requires t0 <= |text|
    ensures t == TokEnd(text, t0)
  {
    t := t0;
    while t < |text| && !TokStop(text[t])
      invariant t0 <= t <= |text|
      invariant TokEnd(text, t) == TokEnd(text, t0)
      decreases |text| - t
    {
      t := t + 1;
    }
  }

  /** The group loop: scans elements after the opener at s until a closing brace, an error or the end. */
  method ScanGroupLoop(text: string, s: nat) returns (r: Scanned)
    requires NoNul(text) && s < |text| && IsOpener(text[s])
    ensures r == ScanGroup(text, s, s + 1, false)
    decreases |text| - s, 0
  {
    var t := s + 1;
    var ind := false;
    while t < |text|
      invariant s < t <= |text|
      invariant ScanGroup(text, s, t, ind) == ScanGroup(text, s, s + 1, false)
      decreases |text| - t
    {
      var e := ScanNext(text, t, ind);
      if e.elem.kind == Err {
        return e;
      }
      if e.elem.kind == Clo {
        if BracesMatch(text[s], text[e.elem.begin]) {
          return Scanned(Element(GroupKind(text[s]), s, e.elem.end), e.indent, None);
        }
        return Scanned(Element(Err, s, e.elem.end), e.indent, Some(ScanError(BracesDoNotMatch, e.elem.begin)));
      }
      t, ind := e.elem.end, e.indent;
    }
    r := Scanned(Element(Err, s, t), ind, Some(ScanError(UnterminatedBraces, s)));
  }

  /** count_line_breaks: the number of line breaks from s (inclusive) to t (exclusive). */
  method CountLineBreaks(text: string, s: nat, t: nat) returns (n: nat)
    requires s <= t <= |text|
    ensures n == LineBreaks(text[s..t])
  {
    n := 0;
    var i := s;
    while i < t
      invariant s <= i <= t
      invariant n == LineBreaks(text[s..i])
    {
      assert text[s..i + 1] == text[s..i] + [text[i]];
      LineBreaksConcat(text[s..i], [text[i]]);
      assert BreaksFrom([text[i]], 1) == 0;
      if text[i] == '\n' {
        n := n + 1;
      }
      i := i + 1;
    }
  }

  // ---------------------------------------------------------------------
  // Properties of the scanner

  /** The number of backslashes immediately before k, not looking before lo. */
  function BackslashesBefore(text: string, lo: nat, k: nat): nat
    requires k <= |text|
    decreases k
  {
    if k > lo && text[k - 1] == '\\' then 1 + BackslashesBefore(text, lo, k - 1) else 0
  }

  /**
   * A literal ends at the first delimiter that is preceded by an even number
   * of backslashes (counting only inside the literal); every delimiter
   * before it is preceded by an odd number.
   */
  lemma {:induction false} LitEndFirstUnescaped(text: string, lo: nat, t: nat, delim: char, escape: bool)
    requires lo <= t <= |text| && delim != '\\'
    requires escape == (BackslashesBefore(text, lo, t) % 2 == 1)
    ensures var r := LitEnd(text, t, delim, escape);
      && (r.Some? ==> BackslashesBefore(text, lo, r.value - 1) % 2 == 0)
      && (forall k :: t <= k < (if r.Some? then r.value - 1 else |text|) && text[k] == delim ==>
            BackslashesBefore(text, lo, k) % 2 == 1)
    decreases |text| - t
  {
    if t < |text| && !(!escape && text[t] == delim) {
      LitEndFirstUnescaped(text, lo, t + 1, delim, text[t] == '\\' && !escape);
    }
  }

  /** An opening brace starts the group loop just after it, with the flag cleared. */
  lemma {:induction false} OpenerScansGroup(text: string, s: nat, ind: bool)
    requires NoNul(text) && s < |text| && IsOpener(text[s])
    ensures Scan(text, s, ind) == ScanGroup(text, s, s + 1, false)
  {
    assert Scan(text, s, ind) == ScanAt(text, s, ind);
  }

  /** A closing brace scans as a one-character closer whatever the flag, and clears it. */
  lemma {:induction false} CloserScans(text: string, c: nat, f: bool)
    requires NoNul(text) && c < |text| && IsCloser(text[c])
    ensures Scan(text, c, f) == Scanned(Element(Clo, c, c + 1), false, None)
  {
    assert Scan(text, c, f) == ScanAt(text, c, f) == ScanPlain(text, c, f);
  }

  /** The group loop that reaches a closer through the interior closes there. */
  lemma {:induction false} InteriorReachesCloser(text: string, open: nat, t: nat, ind: bool, c: nat)
    requires NoNul(text) && open < t <= c < |text| && IsOpener(text[open]) && IsCloser(text[c])
    requires Interior(text, t, ind, c)
    ensures var r := ScanGroup(text, open, t, ind);
      && r.elem == Element(if BracesMatch(text[open], text[c]) then GroupKind(text[open]) else Err, open, c + 1)
      && (r.elem.kind == Err ==> r.error == Some(ScanError(BracesDoNotMatch, c)))
    decreases c - t
  {
    var e := Scan(text, t, ind);
    assert ScanGroup(text, open, t, ind) == GroupGoesOn(text, open, t, e);
    if t < c {
      InteriorReachesCloser(text, open, e.elem.end, e.indent, c);
    } else {
      CloserScans(text, c, ind);
    }
  }

  /**
   * Conversely, the first closer at the opener's level decides the group:
   * it ends there, as a group when the braces match and as the error "braces
   * do not match" at that closer when they do not.
   */
  lemma {:induction false} FirstCloserEndsGroup(text: string, s: nat, ind: bool, c: nat)
    requires NoNul(text) && s < c < |text| && IsOpener(text[s]) && IsCloser(text[c])
    requires Interior(text, s + 1, false, c)
    ensures var g := Scan(text, s, ind);
      && g.elem.end == c + 1
      && (IsGroup(g.elem.kind) <==> BracesMatch(text[s], text[c]))
      && (!IsGroup(g.elem.kind) ==> g.error == Some(ScanError(BracesDoNotMatch, c)))
  {
    InteriorReachesCloser(text, s, s + 1, false, c);
  }

  /**
   * A group whose interior runs to the end of the text is unterminated: the
   * error is reported at its own opener.
   */
  lemma {:induction false} InteriorReachesEnd(text: string, open: nat, t: nat, ind: bool)
    requires NoNul(text) && open < t <= |text| && IsOpener(text[open])
    requires Interior(text, t, ind, |text|)
    ensures ScanGroup(text, open, t, ind).error == Some(ScanError(UnterminatedBraces, open))
    decreases |text| - t
  {
    if t < |text| {
      var e := Scan(text, t, ind);
      assert ScanGroup(text, open, t, ind) == GroupGoesOn(text, open, t, e);
      InteriorReachesEnd(text, open, e.elem.end, e.indent);
    }
  }

  /**
   * Conversely, "unterminated braces" at an opener means the elements after
   * it run to the end of the text without a closer at its level: the
   * innermost unclosed opener is the one reported, since an error from
   * inside the group is passed up with its own, later position.
   */
  lemma {:induction false} UnterminatedRunsToEnd(text: string, open: nat, t: nat, ind: bool)
    requires NoNul(text) && open < t <= |text| && IsOpener(text[open])
    requires ScanGroup(text, open, t, ind).error == Some(ScanError(UnterminatedBraces, open))
    ensures Interior(text, t, ind, |text|)
    decreases |text| - t
  {
    if t < |text| {
      var e := Scan(text, t, ind);
      assert ScanGroup(text, open, t, ind) == GroupGoesOn(text, open, t, e);
      UnterminatedRunsToEnd(text, open, e.elem.end, e.indent);
    }
  }

  /**
   * A directive ends before the first line break that does not follow a
   * backslash; every line break inside it follows one.
   */
  lemma {:induction false} PreEndStopsAtPlainNewline(text: string, t: nat)
    requires 1 <= t <= |text|
    requires !(t < |text| && text[t] == '\n' && text[t - 1] == '\\')
    ensures var r := PreEnd(text, t);
      && (r < |text| ==> text[r - 1] != '\\')
      && (forall k :: t <= k < r && text[k] == '\n' ==> text[k - 1] == '\\')
    decreases |text| - t
  {
    if t < |text| {
      if Continuation(text, t) {
        PreEndStopsAtPlainNewline(text, t + 2);
      } else if text[t] != '\n' {
        PreEndStopsAtPlainNewline(text, t + 1);
      }
    }
  }

  /** A scanned directive: '#' in the indentation region, up to a line break that is not continued. */
  lemma DirectiveSpan(text: string, s: nat, indent: bool)
    requires NoNul(text) && s < |text|
    ensures var r := Scan(text, s, indent);
      r.elem.kind == Pre ==>
        && text[s] == '#' && indent
        && (r.elem.end < |text| ==> text[r.elem.end] == '\n' && text[r.elem.end - 1] != '\\')
        && (forall k :: s < k < r.elem.end && text[k] == '\n' ==> text[k - 1] == '\\')
  {
    if text[s] == '#' && indent {
      PreEndStopsAtPlainNewline(text, s + 1);
      assert Scan(text, s, indent).elem == Element(Pre, s, PreEnd(text, s + 1));
    } else {
      MarkerRules(text, s, indent);
    }
  }

  /**
   * The public marker and the directive depend on the indentation flag: '*'
   * gives Pub exactly when the flag is set, and '#' gives Pre exactly then;
   * otherwise each is a one-character token.
   */
  lemma MarkerRules(text: string, s: nat, indent: bool)
    requires NoNul(text) && s < |text|
    ensures Scan(text, s, indent).elem.kind == Pub <==> text[s] == '*' && indent
    ensures Scan(text, s, indent).elem.kind == Pre <==> text[s] == '#' && indent
    ensures text[s] == '*' && !indent ==> Scan(text, s, indent).elem == Element(Tok, s, s + 1)
    ensures text[s] == '#' && !indent ==> Scan(text, s, indent).elem == Element(Tok, s, s + 1)
  {
  }

  /** Test vectors of scan_next_test (headify.c:283-433): the end and single characters. */
  lemma ScanExamplesSimple()
    ensures Scan("", 0, true).elem == Element(Eos, 0, 0)
    ensures Scan("\nabc", 0, false) == Scanned(Element(Lbr, 0, 1), true, None)
    ensures Scan("*abc", 0, true).elem == Element(Pub, 0, 1)
    ensures Scan("*abc", 0, false).elem == Element(Tok, 0, 1)
  {
  }

  /** Test vectors of scan_next_test: a token and a continued directive. */
  lemma ScanExamplesRuns()
    ensures Scan("abc*", 0, false).elem == Element(Tok, 0, 4)
    ensures Scan("#a\\\nb\nc", 0, true).elem == Element(Pre, 0, 5)
  {
  }

  /** Test vectors of scan_next_test: literals. */
  lemma ScanExamplesLiterals()
    ensures Scan("\"a\"x", 0, false).elem == Element(Tok, 0, 3)
    ensures Scan("\"ab", 0, false) == Scanned(Element(Err, 0, 3), false, Some(ScanError(UnterminatedString, 0)))
  {
  }

  /** Test vectors of scan_next_test: comments. */
  lemma ScanExamplesComments()
    ensures Scan("//\na", 0, false).elem == Element(Lco, 0, 2)
    ensures Scan("/*abc*/x", 0, false).elem == Element(Bco, 0, 7)
  {
  }

  /** A group is the opener through its matching closer (scan_next_test). */
  lemma ScanExampleGroup()
    ensures Scan("(a)x", 0, false).elem == Element(Par, 0, 3)
  {
    var t := "(a)x";
    assert Scan(t, 1, false) == Scanned(Element(Tok, 1, 2), false, None);
    assert Scan(t, 2, false) == Scanned(Element(Clo, 2, 3), false, None);
    assert ScanGroup(t, 0, 2, false) == Scanned(Element(Par, 0, 3), false, None);
  }

  /**
   * A mismatched closer inside a group: the error element runs from the
   * inner opener through the closer (scan_next_test).
   */
  lemma ScanExampleMismatch()
    ensures Scan("([abc)x", 0, false) == Scanned(Element(Err, 1, 6), false, Some(ScanError(BracesDoNotMatch, 5)))
  {
    var t := "([abc)x";
    assert Scan(t, 2, false) == Scanned(Element(Tok, 2, 5), false, None);
    assert Scan(t, 5, false) == Scanned(Element(Clo, 5, 6), false, None);
    var err := Scanned(Element(Err, 1, 6), false, Some(ScanError(BracesDoNotMatch, 5)));
    assert ScanGroup(t, 1, 5, false) == err;
    assert ScanGroup(t, 1, 2, false) == err;
    assert Scan(t, 1, false) == err;
    assert ScanGroup(t, 0, 1, false) == err;
  }
}
