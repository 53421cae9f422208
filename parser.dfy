/** The parser of src/parser.rs: a token sequence and a cursor, read by
    recursive descent with precedence climbing for binary operators.

    The functions `Primary`, `Parens`, `BinaryOp`, `Expr` and `TopLevel` give,
    for a token sequence and a cursor, the outcome of the corresponding
    parsing routine and the cursor it leaves behind; the methods of class
    `Parser` are the routines themselves, advancing the cursor through `Eat`
    as the source does, and each is proved to agree with its function.
    Every `panic!`, `todo!` and out-of-range `get_next` is a `Fail`. */
module Parsing {
  import opened Lexing

  /** The syntax tree of src/parser.rs.  FOR and IF are declared there but no
      parsing routine builds them.  A NUMBER carries the literal's text. */
  datatype Expression =
    | NUMBER(literal: string)
    | VARIABLE(name: string)
    | BINARY(left: Expression, op: char, right: Expression)
    | FOR(variable: string, from: Expression, to: Expression, body: Expression)
    | IF(condition: Expression, body: Expression)

  /** Why a parse aborts. */
  datatype ParseError =
    | IndexOutOfBounds            // `get_next` with the cursor at or past the end
    | Unimplemented(tok: Token)   // the `todo!` for IF and FOR in primary position
    | InvalidPrimary(tok: Token)  // the `panic!` for any other non-primary token
    | MissingOperator(tok: Token) // the `panic!` when a binary operator is not a CHARACTER

  datatype Parsed<T> = Ok(value: T) | Fail(error: ParseError)

  /** A parsed expression and the cursor just past the tokens it consumed. */
  datatype Consumed = Consumed(expr: Expression, next: nat)

  /** The five characters `token_precedence` ranks above zero. */
  predicate IsOperator(c: char)
  {
    c == '<' || c == '+' || c == '-' || c == '*' || c == '='
  }

  /** `token_precedence`.  Every precedence is at most 50, so the source's
      `tok_prec + 1` never overflows its `u8`. */
  function TokenPrecedence(c: char): (p: nat)
    ensures p > 0 <==> IsOperator(c)
    ensures p <= 50
  {
    match c
    case '<' => 10
    case '+' => 20
    case '-' => 20
    case '*' => 40
    case '=' => 50
    case _ => 0
  }

  /** The precedence `get_next_prec` gives a token: only a CHARACTER ranks. */
  function Precedence(t: Token): (p: nat)
    ensures !t.CHARACTER? ==> p == 0
    ensures p > 0 ==> t.CHARACTER? && IsOperator(t.c)
  {
    match t
    case CHARACTER(c) => TokenPrecedence(c)
    case _ => 0
  }

  /** `get_next`: the token under cursor `i`; indexing past the end panics. */
  function GetNext(toks: seq<Token>, i: nat): (r: Parsed<Token>)
    ensures r.Ok? <==> i < |toks|
    ensures r.Ok? ==> r.value == toks[i]
    ensures r.Fail? ==> r.error == IndexOutOfBounds
  {
    if i < |toks| then Ok(toks[i]) else Fail(IndexOutOfBounds)
  }

  /** `get_next_prec`. */
  function GetNextPrec(toks: seq<Token>, i: nat): (r: Parsed<nat>)
    ensures r.Ok? <==> i < |toks|
    ensures r.Ok? ==> r.value == Precedence(toks[i])
    ensures r.Fail? ==> r.error == IndexOutOfBounds
  {
    match GetNext(toks, i)
    case Fail(e) => Fail(e)
    case Ok(t) => Ok(Precedence(t))
  }

  /** Every operator stored in a BINARY node is one `token_precedence` ranks. */
  predicate OperatorsValid(e: Expression)
  {
    match e
    case NUMBER(_) => true
    case VARIABLE(_) => true
    case BINARY(l, op, r) => IsOperator(op) && OperatorsValid(l) && OperatorsValid(r)
    case FOR(_, a, b, body) => OperatorsValid(a) && OperatorsValid(b) && OperatorsValid(body)
    case IF(c, body) => OperatorsValid(c) && OperatorsValid(body)
  }

  /** `parse_primary` from cursor `i`: one IDENTIFIER or NUMBER token, or a
      parenthesised expression followed by one more token, which is eaten
      whatever it is. */
  function Primary(toks: seq<Token>, i: nat): (r: Parsed<Consumed>)
    ensures r.Ok? ==> i < r.value.next <= |toks|
    ensures r.Ok? ==> OperatorsValid(r.value.expr)
    ensures r.Fail? ==> !r.error.MissingOperator?
    decreases |toks| - i, 1
  {
    match GetNext(toks, i)
    case Fail(e) => Fail(e)
    case Ok(t) =>
      match t
      case IDENTIFIER(v) => Ok(Consumed(VARIABLE(v), i + 1))
      case NUMBER(d) => Ok(Consumed(Expression.NUMBER(d), i + 1))
      case FOR => Fail(Unimplemented(t))
      case IF => Fail(Unimplemented(t))
      case CHARACTER(c) =>
        if c == '(' then
          match Parens(toks, i)
          case Fail(e) => Fail(e)
          case Ok(inner) => Ok(Consumed(inner.expr, inner.next + 1))
        else Fail(InvalidPrimary(t))
      case _ => Fail(InvalidPrimary(t))
  }

  /** `parse_parens` with the `(` at cursor `i`: skip it, then a primary and
      the binary operators above precedence zero; no grouping node. */
  function Parens(toks: seq<Token>, i: nat): (r: Parsed<Consumed>)
    requires i < |toks|
    ensures r.Ok? ==> i < r.value.next < |toks| && Precedence(toks[r.value.next]) == 0
    ensures r.Ok? ==> OperatorsValid(r.value.expr)
    ensures r.Fail? ==> !r.error.MissingOperator?
    decreases |toks| - i, 0
  {
    match Primary(toks, i + 1)
    case Fail(e) => Fail(e)
    case Ok(lhs) => BinaryOp(toks, lhs.next, 1, lhs.expr)
  }

  /** `parse_binary_op(prec, lhs)` from cursor `i`.  The loop of the source is
      the tail call at the end.  It succeeds only on a token of precedence
      below `prec`. */
  function BinaryOp(toks: seq<Token>, i: nat, prec: nat, lhs: Expression): (r: Parsed<Consumed>)
    ensures r.Ok? ==> i <= r.value.next < |toks| && Precedence(toks[r.value.next]) < prec
    ensures prec >= 1 && OperatorsValid(lhs) && r.Ok? ==> OperatorsValid(r.value.expr)
    ensures prec >= 1 && r.Fail? ==> !r.error.MissingOperator?
    decreases |toks| - i, 0
  {
    match GetNextPrec(toks, i)
    case Fail(e) => Fail(e)
    case Ok(tokPrec) =>
      if tokPrec < prec then Ok(Consumed(lhs, i))
      else if !toks[i].CHARACTER? then Fail(MissingOperator(toks[i]))
      else
        match RightOperand(toks, i + 1, tokPrec)
        case Fail(e) => Fail(e)
        case Ok(rhs) => BinaryOp(toks, rhs.next, prec, BINARY(lhs, toks[i].c, rhs.expr))
  }

  /** The body of the loop of `parse_binary_op` after the operator of
      precedence `tokPrec`, from cursor `j` just past it: a primary, handed to
      a recursive call at `tokPrec + 1` when the operator after it binds
      tighter. */
  function RightOperand(toks: seq<Token>, j: nat, tokPrec: nat): (r: Parsed<Consumed>)
    ensures r.Ok? ==> j < r.value.next < |toks|
    ensures tokPrec >= 1 && r.Ok? ==> Precedence(toks[r.value.next]) <= tokPrec
    ensures r.Ok? ==> OperatorsValid(r.value.expr)
    ensures r.Fail? ==> !r.error.MissingOperator?
    decreases |toks| - j, 2
  {
    match Primary(toks, j)
    case Fail(e) => Fail(e)
    case Ok(rhs) =>
      match GetNextPrec(toks, rhs.next)
      case Fail(e) => Fail(e)
      case Ok(nextPrec) =>
        if tokPrec < nextPrec then BinaryOp(toks, rhs.next, tokPrec + 1, rhs.expr) else Ok(rhs)
  }

  /** `parse_expression`: a primary, then the binary operators above zero. */
  function Expr(toks: seq<Token>, i: nat): (r: Parsed<Consumed>)
    ensures r.Ok? ==> i < r.value.next < |toks| && Precedence(toks[r.value.next]) == 0
    ensures r.Ok? ==> OperatorsValid(r.value.expr)
    ensures r.Fail? ==> !r.error.MissingOperator?
  {
    match Primary(toks, i)
    case Fail(e) => Fail(e)
    case Ok(lhs) => BinaryOp(toks, lhs.next, 1, lhs.expr)
  }

  /** `parse`: one leading `;` is skipped, then an expression. */
  function TopLevel(toks: seq<Token>, i: nat): (r: Parsed<Consumed>)
    ensures r.Ok? ==> i < r.value.next < |toks| && Precedence(toks[r.value.next]) == 0
    ensures r.Ok? ==> OperatorsValid(r.value.expr)
    ensures r.Fail? ==> !r.error.MissingOperator?
  {
    match GetNext(toks, i)
    case Fail(e) => Fail(e)
    case Ok(t) => Expr(toks, if t == CHARACTER(';') then i + 1 else i)
  }

  /** A routine's result `r` and final cursor `idx` are those `spec` gives. */
  predicate Agrees(r: Parsed<Expression>, idx: nat, spec: Parsed<Consumed>)
  {
    match spec
    case Ok(c) => r == Ok(c.expr) && idx == c.next
    case Fail(e) => r == Fail(e)
  }

  /** `Parser` of src/parser.rs: the tokens never change, the cursor `idx`
      only moves forward. */
  class Parser {
    const input: seq<Token>
    var idx: nat

    ghost predicate Valid()
      reads this
    {
      idx <= |input|
    }

    constructor (input: seq<Token>)
      ensures this.input == input && idx == 0
      ensures Valid()
    {
      this.input := input;
      idx := 0;
    }

    /** `finished`: the cursor is at the end, so `get_next` would panic. */
    function Finished(): (b: bool)
      reads this
      ensures b <==> idx == |input|
      ensures b ==> GetNext(input, idx).Fail?
    {
      idx == |input|
    }

    /** `eat`: one token further; reports whether that was the last. */
    method Eat() returns (done: bool)
      modifies this
      ensures idx == old(idx) + 1
      ensures done == Finished()
    {
      idx := idx + 1;
      done := Finished();
    }

    method Parse() returns (r: Parsed<Expression>)
      requires Valid()
      modifies this
      ensures Valid()
      ensures Agrees(r, idx, TopLevel(input, old(idx)))
    {
      var next := GetNext(input, idx);
      if next.Fail? {
        return Fail(next.error);
      }
      if next.value == CHARACTER(';') {
        var done := Eat();
      }
      r := ParseExpression();
    }

    method ParseExpression() returns (r: Parsed<Expression>)
      requires Valid()
      modifies this
      ensures Valid()
      ensures Agrees(r, idx, Expr(input, old(idx)))
    {
      var lhs := ParsePrimary();
      if lhs.Fail? {
        return Fail(lhs.error);
      }
      r := ParseBinaryOp(1, lhs.value);
    }

    method ParsePrimary() returns (r: Parsed<Expression>)
      requires Valid()
      modifies this
      ensures Valid()
      ensures Agrees(r, idx, Primary(input, old(idx)))
      decreases |input| - idx, 1
    {
      var next := GetNext(input, idx);
      if next.Fail? {
        return Fail(next.error);
      }
      var exp: Expression;
      match next.value {
        case IDENTIFIER(v) =>
          exp := VARIABLE(v);
        case NUMBER(d) =>
          exp := Expression.NUMBER(d);
        case CHARACTER(c) =>
          if c == '(' {
            var inner := ParseParens();
            if inner.Fail? {
              return Fail(inner.error);
            }
            exp := inner.value;
          } else {
            return Fail(InvalidPrimary(next.value));
          }
        case FOR =>
          return Fail(Unimplemented(next.value));
        case IF =>
          return Fail(Unimplemented(next.value));
        case _ =>
          return Fail(InvalidPrimary(next.value));
      }
      var done := Eat();
      return Ok(exp);
    }

    method ParseParens() returns (r: Parsed<Expression>)
      requires Valid() && idx < |input|
      modifies this
      ensures Valid()
      ensures Agrees(r, idx, Parens(input, old(idx)))
      decreases |input| - idx, 0
    {
      var done := Eat();
      var lhs := ParsePrimary();
      if lhs.Fail? {
        return Fail(lhs.error);
      }
      r := ParseBinaryOp(1, lhs.value);
    }

    method ParseBinaryOp(prec: nat, lhs: Expression) returns (r: Parsed<Expression>)
      requires Valid()
      modifies this
      ensures Valid()
      ensures Agrees(r, idx, BinaryOp(input, old(idx), prec, lhs))
      decreases |input| - idx, 0
    {
      var comb := lhs;
      while true
        invariant Valid() && old(idx) <= idx
        invariant BinaryOp(input, idx, prec, comb) == BinaryOp(input, old(idx), prec, lhs)
        decreases |input| - idx
      {
        var tokPrec := GetNextPrec(input, idx);
        if tokPrec.Fail? {
          return Fail(tokPrec.error);
        }
        if tokPrec.value < prec {
          return Ok(comb);
        }

        var op: char;
        var next := GetNext(input, idx).value;
        if next.CHARACTER? {
          op := next.c;
        } else {
          return Fail(MissingOperator(next));
        }

        var done := Eat();
        var rhs := ParsePrimary();
        if rhs.Fail? {
          return Fail(rhs.error);
        }
        var right := rhs.value;

        var nextPrec := GetNextPrec(input, idx);
        if nextPrec.Fail? {
          return Fail(nextPrec.error);
        }
        if tokPrec.value < nextPrec.value {
          var absorbed := ParseBinaryOp(tokPrec.value + 1, right);
          if absorbed.Fail? {
            return Fail(absorbed.error);
          }
          right := absorbed.value;
        }

        comb := BINARY(comb, op, right);
      }
    }
  }
}
