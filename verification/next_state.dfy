/**
 * examples/next_state.c: a table-driven lexical state machine. The current
 * state and two successive characters give the next state; the characters
 * are first reduced to one of eight input classes.
 *
 * States, as the table's rows suggest: 0 code, 1 in a string literal,
 * 2 after a backslash in a string, 3 in a line comment, 4 in a block comment,
 * 5 and 7 sinks, 6 in a character literal.
 */
module NextState {

  /** The read-only 8x8 transition table, indexed [state][input class]. */
  const States: seq<seq<nat>> := [
    [1, 6, 0, 3, 4, 0, 5, 0],
    [0, 1, 2, 1, 1, 1, 1, 1],
    [1, 1, 1, 1, 1, 1, 1, 1],
    [3, 3, 3, 3, 3, 3, 3, 3],
    [4, 4, 4, 4, 4, 0, 4, 4],
    [5, 5, 5, 5, 5, 5, 5, 5],
    [6, 0, 7, 6, 6, 6, 6, 6],
    [6, 6, 6, 6, 6, 6, 6, 6]
  ]

  /**
   * The input class of character c followed by d: 0 a double quote, 1 an
   * apostrophe, 2 a backslash before anything but a line break or the end,
   * 3 "//", 4 a slash before a star, 5 "*" "/", 6 a backslash before a line break or the end,
   * 7 anything else.
   */
  function InputClass(c: char, d: char): (input: nat)
    ensures input < 8
    ensures input == 0 <==> c == '"'
    ensures input == 1 <==> c == '\''
    ensures input == 2 <==> c == '\\' && d != '\n' && d != '\0'
    ensures input == 6 <==> c == '\\' && (d == '\n' || d == '\0')
    ensures input == 3 <==> c == '/' && d == '/'
    ensures input == 4 <==> c == '/' && d == '*'
    ensures input == 5 <==> c == '*' && d == '/'
  {
    match c
    case '"' => 0
    case '\'' => 1
    case '\\' => if d == '\n' || d == '\0' then 6 else 2
    case '/' => if d == '/' then 3 else if d == '*' then 4 else 7
    case '*' => if d == '/' then 5 else 7
    case _ => 7
  }

  /** next_state: the table entry for the state and the input class of (c, d). */
  function NextState(state: int, c: char, d: char): (r: int)
    requires 0 <= state < 8
    ensures 0 <= r < 8
  {
    States[state][InputClass(c, d)]
  }

  /** Every entry of the table is a valid state, so the machine is closed. */
  lemma TableClosed(state: nat, input: nat)
    requires state < 8 && input < 8
    ensures |States| == 8 && |States[state]| == 8 && States[state][input] < 8
  {
  }

  /** Opening and closing a string literal, and an escape inside one. */
  lemma StringLiteral(c: char, d: char)
    ensures NextState(0, '"', d) == 1
    ensures NextState(1, '"', d) == 0
    ensures NextState(1, '\\', 'y') == 2
    ensures c != '"' && c != '\\' ==> NextState(1, c, d) == 1
  {
  }

  /** Opening and closing a character literal. */
  lemma CharLiteral(d: char)
    ensures NextState(0, '\'', d) == 6
    ensures NextState(6, '\'', d) == 0
  {
  }

  /** Comments: "//" and a slash before a star leave code; only "*" "/" leaves a block comment. */
  lemma Comments(c: char, d: char)
    ensures NextState(0, '/', '/') == 3
    ensures NextState(0, '/', '*') == 4
    ensures NextState(4, c, d) == 0 <==> c == '*' && d == '/'
    ensures NextState(4, c, d) != 0 ==> NextState(4, c, d) == 4
  {
  }

  /** States 3 and 5 never change again. */
  lemma Absorbing(c: char, d: char)
    ensures NextState(3, c, d) == 3
    ensures NextState(5, c, d) == 5
  {
  }

  /** The table's test vectors (next_state_test). */
  lemma TestVectors()
    ensures NextState(0, '\\', 'y') == 0
    ensures NextState(0, '*', '/') == 0
    ensures NextState(0, 'x', 'y') == 0
    ensures NextState(1, '\'', 'y') == 1
    ensures NextState(1, '/', '/') == 1
    ensures NextState(1, '/', '*') == 1
    ensures NextState(1, '*', '/') == 1
    ensures NextState(1, 'x', 'y') == 1
    ensures NextState(0, '\\', '\0') == 5
  {
  }
}
