/** What the parsing routines promise, stated on the functions of `Parsing`:
    the primary cases, parentheses without a grouping node, the stopping rule
    of precedence climbing, left folding of equal operators, absorption of a
    right operand by a tighter operator, the in-order round trip of the tree,
    and the top-level `;`. */
module ParserProperties {
  import opened Lexing
  import opened Parsing

  /** The tokens `parse_primary` turns into a leaf by themselves. */
  predicate IsLeaf(t: Token)
  {
    t.IDENTIFIER? || t.NUMBER?
  }

  function Leaf(t: Token): Expression
    requires IsLeaf(t)
  {
    if t.IDENTIFIER? then VARIABLE(t.name) else Expression.NUMBER(t.literal)
  }

  /** The primary cases: an IDENTIFIER or NUMBER is one token; IF and FOR hit
      `todo!`; every other token except `(` is an invalid primary; past the
      end, `get_next` panics. */
  lemma PrimaryCases(toks: seq<Token>, i: nat)
    ensures i >= |toks| ==> Primary(toks, i) == Fail(IndexOutOfBounds)
    ensures i < |toks| && IsLeaf(toks[i]) ==> Primary(toks, i) == Ok(Consumed(Leaf(toks[i]), i + 1))
    ensures i < |toks| && (toks[i] == Token.IF || toks[i] == Token.FOR) ==>
      Primary(toks, i) == Fail(Unimplemented(toks[i]))
    ensures i < |toks| && !IsLeaf(toks[i]) && toks[i] != Token.IF && toks[i] != Token.FOR
              && toks[i] != CHARACTER('(')
            ==> Primary(toks, i) == Fail(InvalidPrimary(toks[i]))
  {
  }

  /** A parenthesis yields the inner expression itself, with no wrapper, and
      the token after it is eaten unchecked: it only has precedence zero. */
  lemma ParensYieldInner(toks: seq<Token>, i: nat)
    requires i < |toks| && toks[i] == CHARACTER('(')
    ensures Primary(toks, i) ==
      match Expr(toks, i + 1)
      case Fail(e) => Fail(e)
      case Ok(inner) => Ok(Consumed(inner.expr, inner.next + 1))
    ensures Primary(toks, i).Ok? ==> Precedence(toks[Primary(toks, i).value.next - 1]) == 0
  {
  }

  /** "( x y": the identifier y closes the parenthesis. */
  lemma ClosingTokenUnchecked()
    ensures Primary([CHARACTER('('), IDENTIFIER("x"), IDENTIFIER("y"), EOF], 0)
         == Ok(Consumed(VARIABLE("x"), 3))
  {
    var toks := [CHARACTER('('), IDENTIFIER("x"), IDENTIFIER("y"), EOF];
    assert Primary(toks, 1) == Ok(Consumed(VARIABLE("x"), 2));
    assert BinaryOp(toks, 2, 1, VARIABLE("x")) == Ok(Consumed(VARIABLE("x"), 2));
  }

  /** If the token under the cursor ranks below `prec` on entry,
      `parse_binary_op` returns `lhs` and consumes nothing. */
  lemma BinaryOpStopsBelow(toks: seq<Token>, i: nat, prec: nat, lhs: Expression)
    requires i < |toks| && Precedence(toks[i]) < prec
    ensures BinaryOp(toks, i, prec, lhs) == Ok(Consumed(lhs, i))
  {
  }

  /** A leaf followed by an operator that binds no tighter than `tokPrec`
      is a right operand by itself. */
  lemma LeafOperand(toks: seq<Token>, j: nat, tokPrec: nat)
    requires j + 1 < |toks| && IsLeaf(toks[j]) && Precedence(toks[j + 1]) <= tokPrec
    ensures RightOperand(toks, j, tokPrec) == Ok(Consumed(Leaf(toks[j]), j + 1))
  {
    assert Primary(toks, j) == Ok(Consumed(Leaf(toks[j]), j + 1));
  }

  /** One round of the loop of `parse_binary_op`, from the operator's side:
      an operator ranked at least `prec` and its right operand extend `lhs`,
      and the loop continues after them. */
  lemma BinaryOpRound(toks: seq<Token>, i: nat, prec: nat, lhs: Expression, right: Consumed)
    requires i < |toks| && toks[i].CHARACTER? && prec <= Precedence(toks[i])
    requires RightOperand(toks, i + 1, Precedence(toks[i])) == Ok(right)
    ensures BinaryOp(toks, i, prec, lhs) == BinaryOp(toks, right.next, prec, BINARY(lhs, toks[i].c, right.expr))
  {
  }

  /** Conversely, a successful `parse_binary_op` whose first token ranks at
      least `prec` went through one round of its loop. */
  lemma BinaryOpStep(toks: seq<Token>, i: nat, prec: nat, lhs: Expression) returns (right: Consumed)
    requires BinaryOp(toks, i, prec, lhs).Ok?
    requires Precedence(toks[i]) >= prec
    ensures toks[i].CHARACTER? && RightOperand(toks, i + 1, Precedence(toks[i])) == Ok(right)
    ensures BinaryOp(toks, i, prec, lhs) == BinaryOp(toks, right.next, prec, BINARY(lhs, toks[i].c, right.expr))
  {
    right := RightOperand(toks, i + 1, Precedence(toks[i])).value;
  }

  /** The operator-operand pairs `op0 x0 op1 x1 ...` as tokens. */
  function Chain(ops: seq<char>, operands: seq<Token>): (r: seq<Token>)
    requires |ops| == |operands|
    ensures |r| == 2 * |ops|
  {
    if ops == [] then [] else [CHARACTER(ops[0]), operands[0]] + Chain(ops[1..], operands[1..])
  }

  /** `((lhs op0 x0) op1 x1) ...`. */
  function FoldLeft(lhs: Expression, ops: seq<char>, operands: seq<Token>): Expression
    requires |ops| == |operands|
    requires forall k :: 0 <= k < |operands| ==> IsLeaf(operands[k])
    decreases |ops|
  {
    if ops == [] then lhs
    else FoldLeft(BINARY(lhs, ops[0], Leaf(operands[0])), ops[1..], operands[1..])
  }

  /** Operators of one precedence fold to the left: after `lhs`, a chain of
      operators all of precedence `p` (at least `prec`) between leaves,
      ended by a token ranked below `prec`, gives the left fold. */
  lemma {:induction false} EqualPrecedenceFoldsLeft(
    toks: seq<Token>, i: nat, prec: nat, lhs: Expression, p: nat, ops: seq<char>, operands: seq<Token>)
    requires |ops| == |operands|
    requires forall k :: 0 <= k < |operands| ==> IsLeaf(operands[k])
    requires forall k :: 0 <= k < |ops| ==> TokenPrecedence(ops[k]) == p
    requires prec <= p
    requires i + 2 * |ops| < |toks|
    requires toks[i..i + 2 * |ops|] == Chain(ops, operands)
    requires Precedence(toks[i + 2 * |ops|]) < prec
    ensures BinaryOp(toks, i, prec, lhs) == Ok(Consumed(FoldLeft(lhs, ops, operands), i + 2 * |ops|))
    decreases |ops|
  {
    if ops != [] {
      var n := |ops|;
      var chain := toks[i..i + 2 * n];
      assert toks[i] == chain[0] == CHARACTER(ops[0]);
      assert toks[i + 1] == chain[1] == operands[0];
      assert toks[i + 2..i + 2 * n] == chain[2..] == Chain(ops[1..], operands[1..]);
      if n > 1 {
        assert toks[i + 2] == chain[2] == CHARACTER(ops[1]);
      }
      var lhs' := BINARY(lhs, ops[0], Leaf(operands[0]));
      EqualPrecedenceFoldsLeft(toks, i + 2, prec, lhs', p, ops[1..], operands[1..]);
      LeafOperand(toks, i + 1, p);
      BinaryOpRound(toks, i, prec, lhs, Consumed(Leaf(operands[0]), i + 2));
    }
  }

  /** "1 - 2 - 3" parses as ((1 - 2) - 3). */
  lemma SubtractionFoldsLeft()
    ensures Expr([Token.NUMBER("1"), CHARACTER('-'), Token.NUMBER("2"), CHARACTER('-'), Token.NUMBER("3"), EOF], 0)
         == Ok(Consumed(BINARY(BINARY(Expression.NUMBER("1"), '-', Expression.NUMBER("2")), '-',
                               Expression.NUMBER("3")), 5))
  {
    var toks := [Token.NUMBER("1"), CHARACTER('-'), Token.NUMBER("2"), CHARACTER('-'), Token.NUMBER("3"), EOF];
    var ops, operands := ['-', '-'], [Token.NUMBER("2"), Token.NUMBER("3")];
    assert toks[1..5] == Chain(ops, operands);
    EqualPrecedenceFoldsLeft(toks, 1, 1, Expression.NUMBER("1"), 20, ops, operands);
  }

  /** Three leaves and two operators: a tighter second operator takes the
      middle operand into a right sub-tree; otherwise the first pair folds
      first. */
  lemma ThreeOperands(toks: seq<Token>, i: nat, op1: char, op2: char)
    requires i + 5 < |toks|
    requires IsLeaf(toks[i]) && IsLeaf(toks[i + 2]) && IsLeaf(toks[i + 4])
    requires toks[i + 1] == CHARACTER(op1) && toks[i + 3] == CHARACTER(op2)
    requires IsOperator(op1) && IsOperator(op2)
    requires Precedence(toks[i + 5]) == 0
    ensures Expr(toks, i) == Ok(Consumed(
      if TokenPrecedence(op1) < TokenPrecedence(op2)
      then BINARY(Leaf(toks[i]), op1, BINARY(Leaf(toks[i + 2]), op2, Leaf(toks[i + 4])))
      else BINARY(BINARY(Leaf(toks[i]), op1, Leaf(toks[i + 2])), op2, Leaf(toks[i + 4])), i + 5))
  {
    assert Primary(toks, i) == Ok(Consumed(Leaf(toks[i]), i + 1));
    if TokenPrecedence(op1) < TokenPrecedence(op2) {
      TighterSecondOperator(toks, i + 1, Leaf(toks[i]), op1, op2);
    } else {
      LooserSecondOperator(toks, i + 1, Leaf(toks[i]), op1, op2);
    }
  }

  /** After `A`, "op1 b op2 c" with op2 tighter: b and c go right. */
  lemma TighterSecondOperator(toks: seq<Token>, i: nat, A: Expression, op1: char, op2: char)
    requires i + 4 < |toks|
    requires IsLeaf(toks[i + 1]) && IsLeaf(toks[i + 3])
    requires toks[i] == CHARACTER(op1) && toks[i + 2] == CHARACTER(op2)
    requires 0 < TokenPrecedence(op1) < TokenPrecedence(op2)
    requires Precedence(toks[i + 4]) == 0
    ensures BinaryOp(toks, i, 1, A)
         == Ok(Consumed(BINARY(A, op1, BINARY(Leaf(toks[i + 1]), op2, Leaf(toks[i + 3]))), i + 4))
  {
    var B, C := Leaf(toks[i + 1]), Leaf(toks[i + 3]);
    var p1, p2 := TokenPrecedence(op1), TokenPrecedence(op2);
    var BC := BINARY(B, op2, C);
    LeafOperand(toks, i + 3, p2);
    BinaryOpRound(toks, i + 2, p1 + 1, B, Consumed(C, i + 4));
    BinaryOpStopsBelow(toks, i + 4, p1 + 1, BC);
    assert RightOperand(toks, i + 1, p1) == Ok(Consumed(BC, i + 4));
    BinaryOpRound(toks, i, 1, A, Consumed(BC, i + 4));
    BinaryOpStopsBelow(toks, i + 4, 1, BINARY(A, op1, BC));
  }

  /** After `A`, "op1 b op2 c" with op2 no tighter: A and b go first. */
  lemma LooserSecondOperator(toks: seq<Token>, i: nat, A: Expression, op1: char, op2: char)
    requires i + 4 < |toks|
    requires IsLeaf(toks[i + 1]) && IsLeaf(toks[i + 3])
    requires toks[i] == CHARACTER(op1) && toks[i + 2] == CHARACTER(op2)
    requires 0 < TokenPrecedence(op2) <= TokenPrecedence(op1)
    requires Precedence(toks[i + 4]) == 0
    ensures BinaryOp(toks, i, 1, A)
         == Ok(Consumed(BINARY(BINARY(A, op1, Leaf(toks[i + 1])), op2, Leaf(toks[i + 3])), i + 4))
  {
    var B, C := Leaf(toks[i + 1]), Leaf(toks[i + 3]);
    var AB := BINARY(A, op1, B);
    LeafOperand(toks, i + 1, TokenPrecedence(op1));
    BinaryOpRound(toks, i, 1, A, Consumed(B, i + 2));
    LeafOperand(toks, i + 3, TokenPrecedence(op2));
    BinaryOpRound(toks, i + 2, 1, AB, Consumed(C, i + 4));
    BinaryOpStopsBelow(toks, i + 4, 1, BINARY(AB, op2, C));
  }

  /** "1 + 2 * 3" parses as (1 + (2 * 3)). */
  lemma MultiplicationBindsTighter()
    ensures Expr([Token.NUMBER("1"), CHARACTER('+'), Token.NUMBER("2"), CHARACTER('*'), Token.NUMBER("3"), EOF], 0)
         == Ok(Consumed(BINARY(Expression.NUMBER("1"), '+',
                               BINARY(Expression.NUMBER("2"), '*', Expression.NUMBER("3"))), 5))
  {
    var toks := [Token.NUMBER("1"), CHARACTER('+'), Token.NUMBER("2"), CHARACTER('*'), Token.NUMBER("3"), EOF];
    ThreeOperands(toks, 0, '+', '*');
  }

  /** "(a op1 b) op2 c" parses as ((a op1 b) op2 c) whatever the two
      precedences: the parenthesis groups although no node records it. */
  lemma ParenthesesGroup(toks: seq<Token>, i: nat, op1: char, op2: char)
    requires i + 7 < |toks|
    requires toks[i] == CHARACTER('(') && toks[i + 2] == CHARACTER(op1) && toks[i + 5] == CHARACTER(op2)
    requires IsLeaf(toks[i + 1]) && IsLeaf(toks[i + 3]) && IsLeaf(toks[i + 6])
    requires IsOperator(op1) && IsOperator(op2)
    requires Precedence(toks[i + 4]) == 0 && Precedence(toks[i + 7]) == 0
    ensures Expr(toks, i) == Ok(Consumed(
      BINARY(BINARY(Leaf(toks[i + 1]), op1, Leaf(toks[i + 3])), op2, Leaf(toks[i + 6])), i + 7))
  {
    var A, B, C := Leaf(toks[i + 1]), Leaf(toks[i + 3]), Leaf(toks[i + 6]);
    var AB := BINARY(A, op1, B);
    assert Primary(toks, i + 1) == Ok(Consumed(A, i + 2));
    LeafOperand(toks, i + 3, TokenPrecedence(op1));
    BinaryOpRound(toks, i + 2, 1, A, Consumed(B, i + 4));
    BinaryOpStopsBelow(toks, i + 4, 1, AB);
    assert Primary(toks, i) == Ok(Consumed(AB, i + 5));
    LeafOperand(toks, i + 6, TokenPrecedence(op2));
    BinaryOpRound(toks, i + 5, 1, AB, Consumed(C, i + 7));
    BinaryOpStopsBelow(toks, i + 7, 1, BINARY(AB, op2, C));
  }

  /** "(1 + 2) * 3" parses as ((1 + 2) * 3), against the precedence. */
  lemma ParenthesesOverridePrecedence()
    ensures Expr([CHARACTER('('), Token.NUMBER("1"), CHARACTER('+'), Token.NUMBER("2"), CHARACTER(')'),
                  CHARACTER('*'), Token.NUMBER("3"), EOF], 0)
         == Ok(Consumed(BINARY(BINARY(Expression.NUMBER("1"), '+', Expression.NUMBER("2")), '*',
                               Expression.NUMBER("3")), 7))
  {
    var toks := [CHARACTER('('), Token.NUMBER("1"), CHARACTER('+'), Token.NUMBER("2"), CHARACTER(')'),
                 CHARACTER('*'), Token.NUMBER("3"), EOF];
    ParenthesesGroup(toks, 0, '+', '*');
  }

  /** "1 + ;": a missing right operand aborts. */
  lemma MissingOperandAborts()
    ensures Expr([Token.NUMBER("1"), CHARACTER('+'), CHARACTER(';'), EOF], 0)
         == Fail(InvalidPrimary(CHARACTER(';')))
  {
  }

  /** The tokens an expression is read back from, in order.  FOR and IF are
      never built by the parser; they are spelled keyword first. */
  function Yield(e: Expression): seq<Token>
  {
    match e
    case NUMBER(t) => [Token.NUMBER(t)]
    case VARIABLE(n) => [IDENTIFIER(n)]
    case BINARY(l, op, r) => Yield(l) + [CHARACTER(op)] + Yield(r)
    case FOR(v, a, b, body) => [Token.FOR, IDENTIFIER(v)] + Yield(a) + Yield(b) + Yield(body)
    case IF(c, body) => [Token.IF] + Yield(c) + Yield(body)
  }

  /** No `(` among the tokens `[i, j)`. */
  predicate NoOpenParen(toks: seq<Token>, i: nat, j: nat)
    requires i <= j <= |toks|
  {
    forall m :: i <= m < j ==> toks[m] != CHARACTER('(')
  }

  lemma PrimaryYield(toks: seq<Token>, i: nat)
    requires Primary(toks, i).Ok?
    requires NoOpenParen(toks, i, Primary(toks, i).value.next)
    ensures Yield(Primary(toks, i).value.expr) == toks[i..Primary(toks, i).value.next]
  {
    assert toks[i] != CHARACTER('(');
  }

  /** Reading the result of `parse_binary_op` back in order gives `lhs`
      followed by exactly the tokens consumed, when none is a `(`. */
  lemma {:induction false} BinaryOpYield(toks: seq<Token>, i: nat, prec: nat, lhs: Expression)
    requires BinaryOp(toks, i, prec, lhs).Ok?
    requires NoOpenParen(toks, i, BinaryOp(toks, i, prec, lhs).value.next)
    ensures Yield(BinaryOp(toks, i, prec, lhs).value.expr) == Yield(lhs) + toks[i..BinaryOp(toks, i, prec, lhs).value.next]
    decreases |toks| - i, 1
  {
    var r := BinaryOp(toks, i, prec, lhs).value;
    var tokPrec := Precedence(toks[i]);
    if tokPrec < prec {
      assert toks[i..r.next] == [];
    } else {
      var right := BinaryOpStep(toks, i, prec, lhs);
      RightOperandYield(toks, i + 1, tokPrec);
      var combined := BINARY(lhs, toks[i].c, right.expr);
      BinaryOpYield(toks, right.next, prec, combined);
      assert Yield(combined) == Yield(lhs) + [toks[i]] + toks[i + 1..right.next];
      SplitSlice(toks, i, right.next, r.next, Yield(lhs));
    }
  }

  /** Slicing arithmetic for the round trip, kept apart from the parser's
      definitions so that the solver does not unfold them here. */
  lemma SplitSlice(toks: seq<Token>, i: nat, m: nat, n: nat, prefix: seq<Token>)
    requires i < m <= n <= |toks|
    ensures prefix + [toks[i]] + toks[i + 1..m] + toks[m..n] == prefix + toks[i..n]
  {
    assert toks[i..n] == [toks[i]] + toks[i + 1..m] + toks[m..n];
  }

  /** The same round trip for the right operand of one round. */
  lemma {:induction false} RightOperandYield(toks: seq<Token>, j: nat, tokPrec: nat)
    requires RightOperand(toks, j, tokPrec).Ok?
    requires NoOpenParen(toks, j, RightOperand(toks, j, tokPrec).value.next)
    ensures Yield(RightOperand(toks, j, tokPrec).value.expr) == toks[j..RightOperand(toks, j, tokPrec).value.next]
    decreases |toks| - j, 2
  {
    var rhs := Primary(toks, j).value;
    var r := RightOperand(toks, j, tokPrec).value;
    if tokPrec < Precedence(toks[rhs.next]) {
      assert RightOperand(toks, j, tokPrec) == BinaryOp(toks, rhs.next, tokPrec + 1, rhs.expr);
      PrimaryYield(toks, j);
      BinaryOpYield(toks, rhs.next, tokPrec + 1, rhs.expr);
      JoinSlices(toks, j, rhs.next, r.next);
    } else {
      PrimaryYield(toks, j);
    }
  }

  lemma JoinSlices(toks: seq<Token>, i: nat, m: nat, n: nat)
    requires i <= m <= n <= |toks|
    ensures toks[i..m] + toks[m..n] == toks[i..n]
  {
  }

  /** The rank of an expression's top: its operator's precedence, or 100
      (above every operator) for a leaf. */
  function TopPrec(e: Expression): nat
  {
    if e.BINARY? then TokenPrecedence(e.op) else 100
  }

  /** The bracketing precedence climbing produces: every BINARY node binds
      no tighter than its left operand's top and strictly looser than its
      right operand's top, so equal operators nest to the left and tighter
      ones sit below looser ones. */
  predicate WellPrec(e: Expression)
  {
    match e
    case NUMBER(_) => true
    case VARIABLE(_) => true
    case BINARY(l, op, r) =>
      TokenPrecedence(op) <= TopPrec(l) && TokenPrecedence(op) < TopPrec(r) && WellPrec(l) && WellPrec(r)
    case FOR(_, _, _, _) => false
    case IF(_, _) => false
  }

  /** Without parentheses, the operator loop keeps the bracketing: from a
      well-bracketed `lhs` whose top binds no looser than the next operator,
      the result is well bracketed, and it is `lhs` itself or is topped by an
      operator of rank at least `prec`. */
  lemma {:induction false} BinaryOpPrec(toks: seq<Token>, i: nat, prec: nat, lhs: Expression)
    requires prec >= 1
    requires BinaryOp(toks, i, prec, lhs).Ok?
    requires NoOpenParen(toks, i, BinaryOp(toks, i, prec, lhs).value.next)
    requires WellPrec(lhs) && Precedence(toks[i]) <= TopPrec(lhs)
    ensures WellPrec(BinaryOp(toks, i, prec, lhs).value.expr)
    ensures BinaryOp(toks, i, prec, lhs).value.expr == lhs || TopPrec(BinaryOp(toks, i, prec, lhs).value.expr) >= prec
    decreases |toks| - i, 1
  {
    var tokPrec := Precedence(toks[i]);
    if tokPrec >= prec {
      var right := BinaryOpStep(toks, i, prec, lhs);
      RightOperandPrec(toks, i + 1, tokPrec);
      var combined := BINARY(lhs, toks[i].c, right.expr);
      BinaryOpPrec(toks, right.next, prec, combined);
    }
  }

  /** Without parentheses, a right operand is well bracketed and its top
      binds strictly tighter than the operator before it. */
  lemma {:induction false} RightOperandPrec(toks: seq<Token>, j: nat, tokPrec: nat)
    requires tokPrec <= 50
    requires RightOperand(toks, j, tokPrec).Ok?
    requires NoOpenParen(toks, j, RightOperand(toks, j, tokPrec).value.next)
    ensures WellPrec(RightOperand(toks, j, tokPrec).value.expr)
    ensures TopPrec(RightOperand(toks, j, tokPrec).value.expr) > tokPrec
    decreases |toks| - j, 2
  {
    var rhs := Primary(toks, j).value;
    assert toks[j] != CHARACTER('(');
    assert WellPrec(rhs.expr) && TopPrec(rhs.expr) == 100;
    if tokPrec < Precedence(toks[rhs.next]) {
      assert RightOperand(toks, j, tokPrec) == BinaryOp(toks, rhs.next, tokPrec + 1, rhs.expr);
      BinaryOpPrec(toks, rhs.next, tokPrec + 1, rhs.expr);
    }
  }

  /** Without parentheses, `parse_expression` yields a well-bracketed tree;
      with `ExprYield`, its in-order reading is the tokens consumed. */
  lemma ExprPrec(toks: seq<Token>, i: nat)
    requires Expr(toks, i).Ok?
    requires NoOpenParen(toks, i, Expr(toks, i).value.next)
    ensures WellPrec(Expr(toks, i).value.expr)
  {
    var lhs := Primary(toks, i).value;
    assert toks[i] != CHARACTER('(');
    assert Expr(toks, i) == BinaryOp(toks, lhs.next, 1, lhs.expr);
    BinaryOpPrec(toks, lhs.next, 1, lhs.expr);
  }

  /** The round trip of `parse_expression`: without parentheses, the tree
      read back in order is exactly the token run it consumed. */
  lemma ExprYield(toks: seq<Token>, i: nat)
    requires Expr(toks, i).Ok?
    requires NoOpenParen(toks, i, Expr(toks, i).value.next)
    ensures Yield(Expr(toks, i).value.expr) == toks[i..Expr(toks, i).value.next]
  {
    var lhs := Primary(toks, i).value;
    var r := Expr(toks, i).value;
    assert Expr(toks, i) == BinaryOp(toks, lhs.next, 1, lhs.expr);
    PrimaryYield(toks, i);
    BinaryOpYield(toks, lhs.next, 1, lhs.expr);
    JoinSlices(toks, i, lhs.next, r.next);
  }

  /** `parse` skips one leading `;` and no more. */
  lemma TopLevelSkipsOneSemicolon(toks: seq<Token>, i: nat)
    requires i < |toks|
    ensures toks[i] == CHARACTER(';') ==> TopLevel(toks, i) == Expr(toks, i + 1)
    ensures toks[i] != CHARACTER(';') ==> TopLevel(toks, i) == Expr(toks, i)
    ensures toks[i] == CHARACTER(';') && i + 1 < |toks| && toks[i + 1] == CHARACTER(';') ==>
      TopLevel(toks, i) == Fail(InvalidPrimary(CHARACTER(';')))
  {
  }

  /** How a caller's loop of `parse` calls, guarded by `finished`, ends:
      the expressions parsed, and the abort that stopped it, if any. */
  datatype Run = Run(exprs: seq<Expression>, aborted: Option<ParseError>)

  /** The loop `while !finished() { parse() }` from cursor `i`. */
  function ParseAll(toks: seq<Token>, i: nat): Run
    requires i <= |toks|
    decreases |toks| - i
  {
    if i == |toks| then Run([], None)
    else
      match TopLevel(toks, i)
      case Fail(e) => Run([], Some(e))
      case Ok(c) =>
        var rest := ParseAll(toks, c.next);
        Run([c.expr] + rest.exprs, rest.aborted)
  }

  /** A successful `parse` always stops on a token it has read, so `finished`
      never becomes true after one: a loop guarded by `finished` that starts
      before the end always ends in an abort.  On an EOF-terminated stream
      whose expressions all parse, that abort is the invalid primary EOF. */
  lemma {:induction false} ParseAllEndsInAbort(toks: seq<Token>, i: nat)
    requires i < |toks|
    ensures ParseAll(toks, i).aborted.Some?
    ensures toks[|toks| - 1] == EOF && TopLevel(toks, |toks| - 1) != Fail(IndexOutOfBounds) ==>
      TopLevel(toks, |toks| - 1) == Fail(InvalidPrimary(EOF))
    decreases |toks| - i
  {
    match TopLevel(toks, i)
    case Fail(_) =>
    case Ok(c) =>
      ParseAllEndsInAbort(toks, c.next);
  }
}
