/** The expression grammar of ECMA-262: trees of the operand grammar modelled
    here, their tokens, and which nonterminal derives which tree. */
module ExpressionGrammar {
  import opened Syntax

  /** Operators in infix position. */
  datatype Infix = Plain(op: BinOp) | Logic(logic: LogicalOp)

  datatype Prefix = PrefixOp(un: Syntax.UnaryOp) | Delete

  datatype Tree =
    | Atom(name: string)
    | Parens(inner: Tree)
    | Prefixed(prefix: Prefix, arg: Tree)
    | Updated(up: UpdateOp, arg: Tree)
    | Infixed(infix: Infix, left: Tree, right: Tree)
    | Ternary(test: Tree, cons: Tree, alt: Tree)

  /** `+` and `-` are one token in prefix and in infix position. */
  datatype Token =
    | Name(name: string)
    | InfixToken(infix: Infix)
    | PrefixToken(prefix: Prefix)
    | UpdateToken(up: UpdateOp)
    | LParen | RParen | Question | Colon

  // ----- printing -----

  function PrefixTokens(p: Prefix): Token {
    match p
    case PrefixOp(Pos) => InfixToken(Plain(Add))
    case PrefixOp(Neg) => InfixToken(Plain(Sub))
    case _ => PrefixToken(p)
  }

  function Flatten(t: Tree): seq<Token> {
    match t
    case Atom(n) => [Name(n)]
    case Parens(inner) => [LParen] + Flatten(inner) + [RParen]
    case Prefixed(p, arg) => [PrefixTokens(p)] + Flatten(arg)
    case Updated(up, arg) => [UpdateToken(up)] + Flatten(arg)
    case Infixed(o, l, r) => Flatten(l) + [InfixToken(o)] + Flatten(r)
    case Ternary(c, a, b) => Flatten(c) + [Question] + Flatten(a) + [Colon] + Flatten(b)
  }

  // ----- spelling -----

  function InfixText(o: Infix): string {
    match o
    case Logic(NullishCoal) => "??"
    case Logic(Or) => "||"
    case Logic(And) => "&&"
    case Plain(b) =>
      match b
      case BitOr => "|"
      case BitXor => "^"
      case BitAnd => "&"
      case Eq => "=="
      case NotEq => "!="
      case StrictEq => "==="
      case StrictNotEq => "!=="
      case Lt => "<"
      case Gt => ">"
      case Le => "<="
      case Ge => ">="
      case Instanceof => "instanceof"
      case In => "in"
      case Shl => "<<"
      case Shr => ">>"
      case Ushr => ">>>"
      case Add => "+"
      case Sub => "-"
      case Mul => "*"
      case Div => "/"
      case Mod => "%"
      case Exp => "**"
  }

  function PrefixText(p: Prefix): string {
    match p
    case Delete => "delete"
    case PrefixOp(Neg) => "-"
    case PrefixOp(Pos) => "+"
    case PrefixOp(Not) => "!"
    case PrefixOp(BitNot) => "~"
    case PrefixOp(Typeof) => "typeof"
    case PrefixOp(Void) => "void"
  }

  function UpdateText(up: UpdateOp): string {
    if up == Inc then "++" else "--"
  }

  function TokenText(k: Token): string {
    match k
    case Name(name) => name
    case InfixToken(o) => InfixText(o)
    case PrefixToken(p) => PrefixText(p)
    case UpdateToken(up) => UpdateText(up)
    case LParen => "("
    case RParen => ")"
    case Question => "?"
    case Colon => ":"
  }

  /** The words of a tree, as a reader would write it. */
  function Words(t: Tree): seq<string> {
    match t
    case Atom(name) => [name]
    case Parens(inner) => ["("] + Words(inner) + [")"]
    case Prefixed(p, arg) => [PrefixText(p)] + Words(arg)
    case Updated(up, arg) => [UpdateText(up)] + Words(arg)
    case Infixed(o, l, r) => Words(l) + [InfixText(o)] + Words(r)
    case Ternary(c, a, b) => Words(c) + ["?"] + Words(a) + [":"] + Words(b)
  }

  function TokenTexts(ts: seq<Token>): seq<string> {
    seq(|ts|, i requires 0 <= i < |ts| => TokenText(ts[i]))
  }

  lemma TextsCat(a: seq<Token>, b: seq<Token>)
    ensures TokenTexts(a + b) == TokenTexts(a) + TokenTexts(b)
  {
  }

  /** The tokens of a tree spell its words. */
  lemma {:induction false} TokensSpell(t: Tree)
    ensures TokenTexts(Flatten(t)) == Words(t)
    decreases t
  {
    hide TokenTexts, InfixText;
    TextOne();
    match t
    case Atom(_) =>
    case Parens(inner) =>
      TokensSpell(inner);
      TextsCat([LParen], Flatten(inner));
      TextsCat([LParen] + Flatten(inner), [RParen]);
    case Prefixed(p, arg) =>
      TokensSpell(arg);
      PrefixSpelled(p);
      TextsCat([PrefixTokens(p)], Flatten(arg));
    case Updated(up, arg) =>
      TokensSpell(arg);
      TextsCat([UpdateToken(up)], Flatten(arg));
    case Infixed(o, l, r) =>
      TokensSpell(l);
      TokensSpell(r);
      TextsCat(Flatten(l), [InfixToken(o)]);
      TextsCat(Flatten(l) + [InfixToken(o)], Flatten(r));
    case Ternary(c, a, b) =>
      TokensSpell(c);
      TokensSpell(a);
      TokensSpell(b);
      TextsCat(Flatten(c), [Question]);
      TextsCat(Flatten(c) + [Question], Flatten(a));
      TextsCat(Flatten(c) + [Question] + Flatten(a), [Colon]);
      TextsCat(Flatten(c) + [Question] + Flatten(a) + [Colon], Flatten(b));
  }

  lemma TextOne()
    ensures forall k: Token :: TokenTexts([k]) == [TokenText(k)]
  {
  }

  lemma PrefixSpelled(p: Prefix)
    ensures TokenText(PrefixTokens(p)) == PrefixText(p)
  {
  }

  // ----- the grammar -----

  datatype Nonterminal =
    | ConditionalExpression | ShortCircuitExpression | CoalesceExpression
    | LogicalORExpression | LogicalANDExpression
    | BitwiseORExpression | BitwiseXORExpression | BitwiseANDExpression
    | EqualityExpression | RelationalExpression | ShiftExpression
    | AdditiveExpression | MultiplicativeExpression | ExponentiationExpression
    | UnaryExpression | UpdateExpression | LeftHandSideExpression

  /** How far a nonterminal is from the operands. */
  function Height(n: Nonterminal): nat {
    match n
    case ConditionalExpression => 16
    case ShortCircuitExpression => 15
    case CoalesceExpression => 14
    case LogicalORExpression => 13
    case LogicalANDExpression => 12
    case BitwiseORExpression => 11
    case BitwiseXORExpression => 10
    case BitwiseANDExpression => 9
    case EqualityExpression => 8
    case RelationalExpression => 7
    case ShiftExpression => 6
    case AdditiveExpression => 5
    case MultiplicativeExpression => 4
    case ExponentiationExpression => 3
    case UnaryExpression => 2
    case UpdateExpression => 1
    case LeftHandSideExpression => 0
  }

  /** A production `left op right` with one of these operators. */
  predicate Joins(t: Tree, left: Nonterminal, ops: set<Infix>, right: Nonterminal, inOk: bool)
    decreases t, 0
  {
    t.Infixed? && t.infix in ops && Derives(left, t.left, inOk) && Derives(right, t.right, inOk)
  }

  /** The productions of ECMA-262, sections 13.4 to 13.14; `inOk` is the grammar
      parameter [In]. */
  predicate Derives(n: Nonterminal, t: Tree, inOk: bool)
    decreases t, Height(n) + 1
  {
    match n
    case ConditionalExpression =>
      || Derives(ShortCircuitExpression, t, inOk)
      || (t.Ternary? && Derives(ShortCircuitExpression, t.test, inOk)
          && Derives(ConditionalExpression, t.cons, true) && Derives(ConditionalExpression, t.alt, inOk))
    case ShortCircuitExpression =>
      Derives(LogicalORExpression, t, inOk) || Derives(CoalesceExpression, t, inOk)
    case CoalesceExpression =>
      || Joins(t, CoalesceExpression, {Logic(NullishCoal)}, BitwiseORExpression, inOk)
      || Joins(t, BitwiseORExpression, {Logic(NullishCoal)}, BitwiseORExpression, inOk)
    case LogicalORExpression =>
      || Derives(LogicalANDExpression, t, inOk)
      || Joins(t, LogicalORExpression, {Logic(Or)}, LogicalANDExpression, inOk)
    case LogicalANDExpression =>
      || Derives(BitwiseORExpression, t, inOk)
      || Joins(t, LogicalANDExpression, {Logic(And)}, BitwiseORExpression, inOk)
    case BitwiseORExpression =>
      || Derives(BitwiseXORExpression, t, inOk)
      || Joins(t, BitwiseORExpression, {Plain(BitOr)}, BitwiseXORExpression, inOk)
    case BitwiseXORExpression =>
      || Derives(BitwiseANDExpression, t, inOk)
      || Joins(t, BitwiseXORExpression, {Plain(BitXor)}, BitwiseANDExpression, inOk)
    case BitwiseANDExpression =>
      || Derives(EqualityExpression, t, inOk)
      || Joins(t, BitwiseANDExpression, {Plain(BitAnd)}, EqualityExpression, inOk)
    case EqualityExpression =>
      || Derives(RelationalExpression, t, inOk)
      || Joins(t, EqualityExpression, {Plain(Eq), Plain(NotEq), Plain(StrictEq), Plain(StrictNotEq)},
               RelationalExpression, inOk)
    case RelationalExpression =>
      || Derives(ShiftExpression, t, inOk)
      || Joins(t, RelationalExpression,
               {Plain(Lt), Plain(Gt), Plain(Le), Plain(Ge), Plain(Instanceof)} + (if inOk then {Plain(In)} else {}),
               ShiftExpression, inOk)
    case ShiftExpression =>
      || Derives(AdditiveExpression, t, inOk)
      || Joins(t, ShiftExpression, {Plain(Shl), Plain(Shr), Plain(Ushr)}, AdditiveExpression, inOk)
    case AdditiveExpression =>
      || Derives(MultiplicativeExpression, t, inOk)
      || Joins(t, AdditiveExpression, {Plain(Add), Plain(Sub)}, MultiplicativeExpression, inOk)
    case MultiplicativeExpression =>
      || Derives(ExponentiationExpression, t, inOk)
      || Joins(t, MultiplicativeExpression, {Plain(Mul), Plain(Div), Plain(Mod)}, ExponentiationExpression, inOk)
    case ExponentiationExpression =>
      || Derives(UnaryExpression, t, inOk)
      || Joins(t, UpdateExpression, {Plain(Exp)}, ExponentiationExpression, inOk)
    case UnaryExpression =>
      Derives(UpdateExpression, t, inOk) || (t.Prefixed? && Derives(UnaryExpression, t.arg, inOk))
    case UpdateExpression =>
      Derives(LeftHandSideExpression, t, inOk) || (t.Updated? && Derives(UnaryExpression, t.arg, inOk))
    case LeftHandSideExpression =>
      t.Atom? || (t.Parens? && Derives(ConditionalExpression, t.inner, true))
  }
}
