/** The unary node of the syntax tree: an operator token, the operator text
    and an operand that the parser attaches after construction. */
module Ast {
  import opened Tokens

  /** A prefix node, or any other expression, which is known here only by
      its anchoring token and the text its `toString` produces. */
  datatype Expression =
    | Prefix(token: Token, operator: string, right: Option<Expression>)
    | Leaf(token: Token, image: string)

  /** A fresh node holds the token and operator as given and no operand. */
  function NewPrefix(token: Token, operator: string): (e: Expression)
    ensures e.Prefix? && e.token == token && e.operator == operator
    ensures e.right.None?
  {
    Prefix(token, operator, None)
  }

  /** Attaching the operand changes nothing else in the node. */
  function SetRight(e: Expression, right: Expression): (r: Expression)
    requires e.Prefix?
    ensures r.Prefix? && r.token == e.token && r.operator == e.operator
    ensures r.right == Some(right)
  {
    e.(right := Some(right))
  }

  /** The literal of the anchoring token, unchanged. */
  function TokenLiteral(e: Expression): (lit: Literal)
    ensures lit == e.token.literal
  {
    e.token.literal
  }

  /** The fully parenthesised rendering; an operand that was never attached
      renders as the text `undefined`. */
  function Render(e: Expression): (r: string)
  {
    match e
    case Leaf(_, image) => image
    case Prefix(_, operator, right) =>
      "(" + operator + (if right.None? then "undefined" else Render(right.value)) + ")"
  }

  /** A prefix node always renders inside one pair of parentheses, and
      any other expression renders as its own text. */
  lemma RenderParenthesised(e: Expression)
    ensures var r := Render(e);
      (e.Prefix? ==> 2 <= |r| && r[0] == '(' && r[|r| - 1] == ')') &&
      (e.Leaf? ==> r == e.image)
  {
  }

  /** Rendering a node with an operand wraps the operator and the operand's
      own rendering, so the operand's text appears unchanged inside. */
  lemma RenderWithOperand(e: Expression, right: Expression)
    requires e.Prefix?
    ensures var r := Render(SetRight(e, right));
      r == "(" + e.operator + Render(right) + ")" &&
      r[1 + |e.operator|..|r| - 1] == Render(right)
  {
    var r := Render(SetRight(e, right));
    assert r[1 + |e.operator|..|r| - 1] == Render(right);
  }

  /** A node whose operand was never attached renders without failing. */
  lemma RenderUnset(token: Token, operator: string)
    ensures Render(NewPrefix(token, operator)) == "(" + operator + "undefined" + ")"
  {
  }

  /** `-5`: the MINUS operator applied to the integer 5. */
  lemma MinusFive()
    ensures var five := Leaf(Token(Int, Text("5")), "5");
      Render(SetRight(NewPrefix(Token(Minus, Text("-")), "-"), five)) == "(-5)"
  {
  }

  /** The number of occurrences of `c` in `s`. */
  function Occurrences(s: string, c: char): nat
  {
    multiset(s)[c]
  }

  /** Every operator and every other expression in the tree is free of
      parentheses. */
  predicate ParenFree(e: Expression)
  {
    match e
    case Leaf(_, image) => '(' !in image && ')' !in image
    case Prefix(_, operator, right) =>
      '(' !in operator && ')' !in operator &&
      (right.Some? ==> ParenFree(right.value))
  }

  /** Wrapping text that holds no parenthesis of its own, together with
      an inner part, in one pair of parentheses adds one of each. */
  lemma WrapCounts(operator: string, inner: string)
    requires '(' !in operator && ')' !in operator
    ensures var w := "(" + operator + inner + ")";
      Occurrences(w, '(') == 1 + Occurrences(inner, '(') &&
      Occurrences(w, ')') == Occurrences(inner, ')') + 1
  {
    assert multiset(operator)['('] == 0 && multiset(operator)[')'] == 0;
    assert multiset("(" + operator + inner + ")") ==
      multiset("(") + multiset(operator) + multiset(inner) + multiset(")");
  }

  /** Text without parentheses has none to count. */
  lemma NoParenCounts(s: string)
    requires '(' !in s && ')' !in s
    ensures Occurrences(s, '(') == 0 && Occurrences(s, ')') == 0
  {
  }

  /** A node with a balanced rendering as operand, under an operator
      without parentheses, renders balanced. */
  lemma WrapBalanced(token: Token, operator: string, right: Expression)
    requires '(' !in operator && ')' !in operator
    requires Occurrences(Render(right), '(') == Occurrences(Render(right), ')')
    ensures var r := Render(Prefix(token, operator, Some(right)));
      Occurrences(r, '(') == Occurrences(r, ')')
  {
    WrapCounts(operator, Render(right));
  }

  /** So does a node whose operand was never attached. */
  lemma UnsetBalanced(token: Token, operator: string)
    requires '(' !in operator && ')' !in operator
    ensures var r := Render(Prefix(token, operator, None));
      Occurrences(r, '(') == Occurrences(r, ')')
  {
    NoParenCounts("undefined");
    WrapCounts(operator, "undefined");
  }

  /** Every prefix node contributes one opening and one closing parenthesis,
      so a tree without other parentheses renders balanced. */
  lemma {:induction false} RenderBalanced(e: Expression)
    requires ParenFree(e)
    ensures Occurrences(Render(e), '(') == Occurrences(Render(e), ')')
  {
    match e
    case Leaf(_, image) =>
      NoParenCounts(image);
    case Prefix(token, operator, None) =>
      UnsetBalanced(token, operator);
    case Prefix(token, operator, Some(right)) =>
      RenderBalanced(right);
      WrapBalanced(token, operator, right);
  }

  /** A chain of prefix operators `ops[0] ops[1] ... ` applied to `leaf`. */
  function Nest(ops: seq<string>, token: Token, leaf: Expression): (e: Expression)
    ensures |ops| > 0 ==> e.Prefix? && e.operator == ops[0]
    ensures |ops| == 0 ==> e == leaf
  {
    if |ops| == 0 then leaf
    else SetRight(NewPrefix(token, ops[0]), Nest(ops[1..], token, leaf))
  }

  /** The opening parts of a rendered chain: each operator after its `(`. */
  function Openers(ops: seq<string>): string
  {
    if |ops| == 0 then "" else "(" + ops[0] + Openers(ops[1..])
  }

  function Closers(n: nat): string
  {
    if n == 0 then "" else ")" + Closers(n - 1)
  }

  /** Rendering is compositional: a chain of prefix operators renders as
      the operators each after an opening parenthesis, then the operand,
      then one closing parenthesis per operator. */
  lemma {:induction false} RenderNest(ops: seq<string>, token: Token, leaf: Expression)
    ensures Render(Nest(ops, token, leaf)) == Openers(ops) + Render(leaf) + Closers(|ops|)
    decreases |ops|
  {
    if |ops| > 0 {
      var rest := Nest(ops[1..], token, leaf);
      RenderNest(ops[1..], token, leaf);
      ClosersSnoc(|ops| - 1);
      assert Nest(ops, token, leaf) == Prefix(token, ops[0], Some(rest));
      Regroup("(" + ops[0], Openers(ops[1..]), Render(leaf), Closers(|ops| - 1));
    }
  }

  lemma Regroup(p: string, a: string, l: string, c: string)
    ensures p + (a + l + c) + ")" == (p + a) + l + (c + ")")
  {
  }

  lemma {:induction false} ClosersSnoc(n: nat)
    ensures Closers(n + 1) == Closers(n) + ")"
  {
    if n > 0 {
      ClosersSnoc(n - 1);
    }
  }
}
