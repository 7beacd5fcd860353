/** Expression parsing by precedence climbing, and its inverse, printing. */
module Pratt {
  import opened Syntax
  import opened ExpressionGrammar

  // ----- binding powers -----

  function LeftPower(o: Infix): nat {
    match o
    case Logic(NullishCoal) => 1
    case Logic(Or) => 1
    case Logic(And) => 3
    case Plain(b) =>
      match b
      case BitOr => 5
      case BitXor => 7
      case BitAnd => 9
      case Eq => 11
      case NotEq => 11
      case StrictEq => 11
      case StrictNotEq => 11
      case Lt => 13
      case Gt => 13
      case Le => 13
      case Ge => 13
      case Instanceof => 13
      case In => 13
      case Shl => 15
      case Shr => 15
      case Ushr => 15
      case Add => 17
      case Sub => 17
      case Mul => 19
      case Div => 19
      case Mod => 19
      case Exp => 23
  }

  /** One more than the left power, or one less for right association. */
  function RightPower(o: Infix): nat {
    if o == Plain(Exp) then 22 else LeftPower(o) + 1
  }

  /** `??` next to an unparenthesized `&&` or `||`. */
  predicate ForbiddenMix(o: Infix, t: Tree) {
    o.Logic? && t.Infixed? && t.infix.Logic? && (o.logic == NullishCoal) != (t.infix.logic == NullishCoal)
  }

  predicate UnaryBase(o: Infix, t: Tree) {
    o == Plain(Exp) && t.Prefixed?
  }

  // ----- well-formed trees -----

  /** An operator of left power `p` after `t` binds to the whole of it: every
      operator on its right spine binds tighter on its right. */
  predicate Ends(t: Tree, p: nat) {
    t.Infixed? ==> p < RightPower(t.infix) && Ends(t.right, p)
  }

  predicate UnaryOk(t: Tree)
    decreases t, 0
  {
    match t
    case Atom(_) => true
    case Parens(inner) => TernaryOk(inner, true)
    case Prefixed(_, arg) => UnaryOk(arg)
    case Updated(_, arg) => UnaryOk(arg)
    case _ => false
  }

  /** Precedence, association, the rule for `??` and the rule for `**`. */
  predicate InfixOk(t: Tree, min: nat, inOk: bool)
    decreases t, 1
  {
    match t
    case Infixed(o, l, r) =>
      && min <= LeftPower(o) && (o == Plain(In) ==> inOk)
      && !ForbiddenMix(o, l) && !ForbiddenMix(o, r) && !UnaryBase(o, l)
      && InfixOk(l, min, inOk) && Ends(l, LeftPower(o)) && InfixOk(r, RightPower(o), inOk)
    case _ => UnaryOk(t)
  }

  predicate TernaryOk(t: Tree, inOk: bool)
    decreases t, 2
  {
    match t
    case Ternary(c, a, b) => InfixOk(c, 0, inOk) && TernaryOk(a, true) && TernaryOk(b, inOk)
    case _ => InfixOk(t, 0, inOk)
  }

  // ----- well-formed trees are those that the grammar derives -----

  /** Nothing on the left spine can bind less tightly than the operator at the
      root, so the bound may be moved up to it. */
  lemma {:induction false} Rebase(t: Tree, a: nat, b: nat, inOk: bool)
    requires t.Infixed? ==> a <= LeftPower(t.infix) && b <= LeftPower(t.infix)
    ensures InfixOk(t, a, inOk) <==> InfixOk(t, b, inOk)
    decreases t
  {
    hide ForbiddenMix, UnaryBase, UnaryOk;
    if t.Infixed? && Ends(t.left, LeftPower(t.infix)) {
      if t.left.Infixed? {
        PowersAbove(t);
      }
      Rebase(t.left, a, b, inOk);
    }
  }

  lemma PowersAbove(t: Tree)
    requires t.Infixed? && Ends(t.left, LeftPower(t.infix)) && t.left.Infixed?
    ensures LeftPower(t.infix) <= LeftPower(t.left.infix)
  {
    hide Ends;
    EndsRoot(t.left, LeftPower(t.infix));
  }

  lemma EndsRoot(t: Tree, p: nat)
    requires Ends(t, p) && t.Infixed?
    ensures p < RightPower(t.infix)
  {
  }

  /** A tree whose operators all bind at least as tightly as `p` is closed
      against an operator of left power `p`. */
  lemma {:induction false} EndsFree(t: Tree, p: nat, inOk: bool)
    requires InfixOk(t, p, inOk) && p <= 19
    ensures Ends(t, p)
    decreases t
  {
    hide ForbiddenMix, UnaryBase, UnaryOk;
    if t.Infixed? {
      Rebase(t.right, RightPower(t.infix), p, inOk);
      EndsFree(t.right, p, inOk);
    }
  }

  /** The nonterminals of the operators that associate to the left and do not
      mix with others, with their powers. */
  function Power(n: Nonterminal): nat {
    match n
    case LogicalANDExpression => 3
    case BitwiseORExpression => 5
    case BitwiseXORExpression => 7
    case BitwiseANDExpression => 9
    case EqualityExpression => 11
    case RelationalExpression => 13
    case ShiftExpression => 15
    case AdditiveExpression => 17
    case MultiplicativeExpression => 19
    case ExponentiationExpression => 21
    case UnaryExpression => 25
    case _ => 0
  }

  predicate IsLevel(n: Nonterminal) {
    3 <= Power(n) <= 19
  }

  function Tighter(n: Nonterminal): Nonterminal
    requires IsLevel(n)
  {
    match n
    case LogicalANDExpression => BitwiseORExpression
    case BitwiseORExpression => BitwiseXORExpression
    case BitwiseXORExpression => BitwiseANDExpression
    case BitwiseANDExpression => EqualityExpression
    case EqualityExpression => RelationalExpression
    case RelationalExpression => ShiftExpression
    case ShiftExpression => AdditiveExpression
    case AdditiveExpression => MultiplicativeExpression
    case MultiplicativeExpression => ExponentiationExpression
  }

  /** The production of one such nonterminal. */
  ghost predicate Produces(n: Nonterminal, t: Tree, inOk: bool)
    requires IsLevel(n)
  {
    Derives(n, t, inOk)
    <==> Derives(Tighter(n), t, inOk)
         || (t.Infixed? && LeftPower(t.infix) == Power(n) && (t.infix == Plain(In) ==> inOk)
             && Derives(n, t.left, inOk) && Derives(Tighter(n), t.right, inOk))
  }

  lemma LogicBitwiseProduction(n: Nonterminal, t: Tree, inOk: bool)
    requires IsLevel(n) && Power(n) <= 9
    ensures Produces(n, t, inOk)
  {
  }

  lemma ArithmeticProduction(n: Nonterminal, t: Tree, inOk: bool)
    requires IsLevel(n) && Power(n) > 9
    ensures Produces(n, t, inOk)
  {
  }

  lemma {:induction false} LevelDerives(n: Nonterminal, t: Tree, inOk: bool)
    requires IsLevel(n)
    ensures Derives(n, t, inOk) <==> InfixOk(t, Power(n), inOk)
    decreases t, Height(n) + 1
  {
    hide Derives, UnaryOk, Ends;
    if Power(n) <= 9 {
      LogicBitwiseProduction(n, t, inOk);
    } else {
      ArithmeticProduction(n, t, inOk);
    }
    var m := Tighter(n);
    if IsLevel(m) {
      LevelDerives(m, t, inOk);
    } else {
      PowerDerives(t, inOk);
    }
    if t.Infixed? {
      if LeftPower(t.infix) == Power(n) {
        LevelDerives(n, t.left, inOk);
        if IsLevel(m) {
          LevelDerives(m, t.right, inOk);
        } else {
          PowerDerives(t.right, inOk);
        }
        NextPower(n, t, inOk);
      } else if LeftPower(t.infix) > Power(n) {
        Rebase(t, Power(n), Power(m), inOk);
      }
    }
  }

  /** A production of a level, in terms of powers. */
  lemma NextPower(n: Nonterminal, t: Tree, inOk: bool)
    requires IsLevel(n) && t.Infixed? && LeftPower(t.infix) == Power(n)
    ensures InfixOk(t, Power(n), inOk)
            <==> (t.infix == Plain(In) ==> inOk) && InfixOk(t.left, Power(n), inOk)
                 && InfixOk(t.right, Power(Tighter(n)), inOk)
  {
    hide UnaryOk, Ends;
    if InfixOk(t.left, Power(n), inOk) {
      EndsFree(t.left, Power(n), inOk);
    }
    RightOf(t.infix, t.right, Power(Tighter(n)), inOk);
  }

  /** No operator has the power between two levels. */
  lemma RightOf(o: Infix, r: Tree, p: nat, inOk: bool)
    requires p % 2 == 1 && p >= 3 && RightPower(o) == p - 1
    ensures InfixOk(r, RightPower(o), inOk) <==> InfixOk(r, p, inOk)
  {
    hide UnaryOk, Ends, ForbiddenMix;
    if r.Infixed? {
      OddPower(r.infix);
      if LeftPower(r.infix) >= p {
        Rebase(r, RightPower(o), p, inOk);
      }
    }
  }

  lemma OddPower(o: Infix)
    ensures LeftPower(o) % 2 == 1
  {
  }

  lemma {:induction false} PowerDerives(t: Tree, inOk: bool)
    ensures Derives(ExponentiationExpression, t, inOk) <==> InfixOk(t, 21, inOk)
    decreases t, 4
  {
    UnaryDerives(t, inOk);
    if t.Infixed? {
      UnaryDerives(t.left, inOk);
      if t.infix == Plain(Exp) {
        PowerDerives(t.right, inOk);
        RightOfPower(t.right, inOk);
        BaseOfPower(t.left, inOk);
      }
    }
  }

  lemma RightOfPower(r: Tree, inOk: bool)
    ensures InfixOk(r, 22, inOk) <==> InfixOk(r, 21, inOk)
  {
    hide UnaryOk, Ends, ForbiddenMix;
    if r.Infixed? && LeftPower(r.infix) >= 22 {
      Rebase(r, 22, 21, inOk);
    }
  }

  /** The left operand of `**` has no infix operator of its own. */
  lemma BaseOfPower(l: Tree, inOk: bool)
    ensures InfixOk(l, 21, inOk) && Ends(l, 23) <==> UnaryOk(l)
  {
  }

  lemma UnaryProductions(t: Tree, inOk: bool)
    ensures Derives(UpdateExpression, t, inOk)
            <==> t.Atom? || (t.Parens? && Derives(ConditionalExpression, t.inner, true))
                 || (t.Updated? && Derives(UnaryExpression, t.arg, inOk))
    ensures Derives(UnaryExpression, t, inOk)
            <==> Derives(UpdateExpression, t, inOk) || (t.Prefixed? && Derives(UnaryExpression, t.arg, inOk))
  {
    assert Derives(LeftHandSideExpression, t, inOk)
           <==> t.Atom? || (t.Parens? && Derives(ConditionalExpression, t.inner, true));
    assert Derives(UpdateExpression, t, inOk)
           <==> Derives(LeftHandSideExpression, t, inOk) || (t.Updated? && Derives(UnaryExpression, t.arg, inOk));
  }

  lemma {:induction false} UnaryDerives(t: Tree, inOk: bool)
    ensures Derives(UnaryExpression, t, inOk) <==> UnaryOk(t)
    ensures Derives(UpdateExpression, t, inOk) <==> UnaryOk(t) && !t.Prefixed?
    decreases t, 3
  {
    hide Derives, TernaryOk;
    UnaryProductions(t, inOk);
    match t
    case Parens(inner) => TreeDerives(inner, true);
    case Prefixed(_, arg) => UnaryDerives(arg, inOk);
    case Updated(_, arg) => UnaryDerives(arg, inOk);
    case _ =>
  }

  predicate IsCoalesce(t: Tree) {
    t.Infixed? && t.infix == Logic(NullishCoal)
  }

  lemma {:induction false} OrDerives(t: Tree, inOk: bool)
    ensures Derives(LogicalORExpression, t, inOk) <==> InfixOk(t, 1, inOk) && !IsCoalesce(t)
    decreases t, 14
  {
    hide UnaryOk, Ends;
    LevelDerives(LogicalANDExpression, t, inOk);
    if t.Infixed? {
      if t.infix == Logic(Or) {
        OrDerives(t.left, inOk);
        LevelDerives(LogicalANDExpression, t.right, inOk);
        RightOf(t.infix, t.right, 3, inOk);
        if InfixOk(t.left, 1, inOk) {
          EndsFree(t.left, 1, inOk);
        }
      } else if !IsCoalesce(t) {
        Rebase(t, 1, 3, inOk);
      }
    }
  }

  lemma {:induction false} CoalesceDerives(t: Tree, inOk: bool)
    ensures Derives(CoalesceExpression, t, inOk) <==> InfixOk(t, 1, inOk) && IsCoalesce(t)
    decreases t, 15
  {
    hide UnaryOk, Ends;
    if IsCoalesce(t) {
      CoalesceDerives(t.left, inOk);
      LevelDerives(BitwiseORExpression, t.left, inOk);
      LevelDerives(BitwiseORExpression, t.right, inOk);
      NoLogic(t.left, 1, inOk);
      NoLogic(t.right, 2, inOk);
      if InfixOk(t.left, 1, inOk) {
        EndsFree(t.left, 1, inOk);
      }
    }
  }

  /** Without a logical operator at the root. */
  lemma NoLogic(t: Tree, p: nat, inOk: bool)
    requires p == 1 || p == 2
    ensures InfixOk(t, 5, inOk) <==> InfixOk(t, p, inOk) && !(t.Infixed? && t.infix.Logic?)
  {
    hide UnaryOk, Ends;
    if t.Infixed? && !t.infix.Logic? {
      Rebase(t, p, 5, inOk);
    }
  }

  /** A tree is well formed exactly when the grammar derives it. */
  lemma {:induction false} TreeDerives(t: Tree, inOk: bool)
    ensures Derives(ConditionalExpression, t, inOk) <==> TernaryOk(t, inOk)
    decreases t, 17
  {
    hide UnaryOk, Ends;
    ShortCircuitDerives(t, inOk);
    if t.Ternary? {
      ShortCircuitDerives(t.test, inOk);
      TreeDerives(t.cons, true);
      TreeDerives(t.alt, inOk);
      NoTernary(t, inOk);
    }
  }

  lemma {:induction false} ShortCircuitDerives(t: Tree, inOk: bool)
    ensures Derives(ShortCircuitExpression, t, inOk) <==> InfixOk(t, 0, inOk)
    decreases t, 16
  {
    hide UnaryOk, Ends;
    OrDerives(t, inOk);
    CoalesceDerives(t, inOk);
    if t.Infixed? {
      Rebase(t, 0, 1, inOk);
    }
  }

  lemma NoTernary(t: Tree, inOk: bool)
    requires t.Ternary?
    ensures !InfixOk(t, 0, inOk)
  {
  }

  // ----- the parser, as functions of the remaining tokens -----

  datatype Parsed = Ok(tree: Tree, rest: seq<Token>) | Fail

  /** The operator at the front; `in` is none where it is not allowed. */
  function InfixAt(ts: seq<Token>, inOk: bool): Option<Infix> {
    if ts != [] && ts[0].InfixToken? && (ts[0].infix == Plain(In) ==> inOk) then Some(ts[0].infix) else None
  }

  function PrefixAt(ts: seq<Token>): Option<Prefix> {
    if ts == [] then None
    else
      match ts[0]
      case InfixToken(Plain(Add)) => Some(PrefixOp(Pos))
      case InfixToken(Plain(Sub)) => Some(PrefixOp(Neg))
      case PrefixToken(p) => if p == PrefixOp(Pos) || p == PrefixOp(Neg) then None else Some(p)
      case _ => None
  }

  function ParseUnary(ts: seq<Token>): (r: Parsed)
    ensures r.Ok? ==> |r.rest| < |ts|
    decreases |ts|, 0
  {
    if ts == [] then Fail
    else if PrefixAt(ts).Some? then
      match ParseUnary(ts[1..])
      case Fail => Fail
      case Ok(t, rest) => Ok(Prefixed(PrefixAt(ts).value, t), rest)
    else
      match ts[0]
      case UpdateToken(up) =>
        (match ParseUnary(ts[1..])
         case Fail => Fail
         case Ok(t, rest) => Ok(Updated(up, t), rest))
      case Name(n) => Ok(Atom(n), ts[1..])
      case LParen =>
        (match ParseTernary(ts[1..], true)
         case Fail => Fail
         case Ok(t, rest) => if rest != [] && rest[0] == RParen then Ok(Parens(t), rest[1..]) else Fail)
      case _ => Fail
  }

  function ParseInfix(ts: seq<Token>, min: nat, inOk: bool): (r: Parsed)
    ensures r.Ok? ==> |r.rest| < |ts|
    decreases |ts|, 2
  {
    match ParseUnary(ts)
    case Fail => Fail
    case Ok(t, rest) => Climb(t, rest, min, inOk)
  }

  /** The loop over operators that bind at least as tightly as `min`. */
  function Climb(lhs: Tree, ts: seq<Token>, min: nat, inOk: bool): (r: Parsed)
    ensures r.Ok? ==> |r.rest| <= |ts|
    decreases |ts|, 1
  {
    match InfixAt(ts, inOk)
    case None => Ok(lhs, ts)
    case Some(o) =>
      if LeftPower(o) < min then Ok(lhs, ts)
      else if ForbiddenMix(o, lhs) || UnaryBase(o, lhs) then Fail
      else
        match ParseInfix(ts[1..], RightPower(o), inOk)
        case Fail => Fail
        case Ok(rhs, rest) => if ForbiddenMix(o, rhs) then Fail else Climb(Infixed(o, lhs, rhs), rest, min, inOk)
  }

  function ParseTernary(ts: seq<Token>, inOk: bool): (r: Parsed)
    ensures r.Ok? ==> |r.rest| < |ts|
    decreases |ts|, 3
  {
    match ParseInfix(ts, 0, inOk)
    case Fail => Fail
    case Ok(c, rest) =>
      if rest == [] || rest[0] != Question then Ok(c, rest)
      else
        match ParseTernary(rest[1..], true)
        case Fail => Fail
        case Ok(a, rest1) =>
          if rest1 == [] || rest1[0] != Colon then Fail
          else
            match ParseTernary(rest1[1..], inOk)
            case Fail => Fail
            case Ok(b, rest2) => Ok(Ternary(c, a, b), rest2)
  }

  // ----- what is parsed is well formed and prints as what was read -----

  /** No operator that could have been taken follows. */
  ghost predicate Stopped(t: Tree, rest: seq<Token>, inOk: bool) {
    InfixAt(rest, inOk).Some? ==> Ends(t, LeftPower(InfixAt(rest, inOk).value))
  }

  lemma {:induction false} UnarySound(ts: seq<Token>)
    requires ParseUnary(ts).Ok?
    ensures var r := ParseUnary(ts); UnaryOk(r.tree) && ts == Flatten(r.tree) + r.rest && !r.tree.Infixed?
    decreases |ts|, 0
  {
    hide LeftPower, RightPower, InfixOk, TernaryOk, ParseInfix, ParseTernary, Climb;
    assert ts == [ts[0]] + ts[1..];
    if PrefixAt(ts).Some? || ts[0].UpdateToken? {
      UnarySound(ts[1..]);
    } else if ts[0] == LParen {
      TernarySound(ts[1..], true);
      var q := ParseTernary(ts[1..], true);
      assert q.rest == [RParen] + q.rest[1..];
      assert ts == [LParen] + Flatten(q.tree) + [RParen] + q.rest[1..];
    }
  }

  lemma {:induction false} InfixSound(ts: seq<Token>, min: nat, inOk: bool)
    requires ParseInfix(ts, min, inOk).Ok?
    ensures var r := ParseInfix(ts, min, inOk);
            && InfixOk(r.tree, min, inOk) && ts == Flatten(r.tree) + r.rest && Stopped(r.tree, r.rest, inOk)
            && (InfixAt(r.rest, inOk).Some? ==> LeftPower(InfixAt(r.rest, inOk).value) < min)
    decreases |ts|, 2
  {
    UnarySound(ts);
    var u := ParseUnary(ts);
    ClimbSound(u.tree, u.rest, min, inOk);
  }

  lemma {:induction false} ClimbSound(lhs: Tree, ts: seq<Token>, min: nat, inOk: bool)
    requires Climb(lhs, ts, min, inOk).Ok? && InfixOk(lhs, min, inOk) && Stopped(lhs, ts, inOk)
    ensures var r := Climb(lhs, ts, min, inOk);
            && InfixOk(r.tree, min, inOk) && Flatten(lhs) + ts == Flatten(r.tree) + r.rest
            && Stopped(r.tree, r.rest, inOk)
            && (InfixAt(r.rest, inOk).Some? ==> LeftPower(InfixAt(r.rest, inOk).value) < min)
    decreases |ts|, 1
  {
    hide LeftPower, ForbiddenMix, UnaryBase, ParseUnary;
    match InfixAt(ts, inOk)
    case None =>
    case Some(o) =>
      if LeftPower(o) >= min {
        var q := ParseInfix(ts[1..], RightPower(o), inOk);
        InfixSound(ts[1..], RightPower(o), inOk);
        var t := Infixed(o, lhs, q.tree);
        Joined(lhs, o, q.tree, q.rest, min, inOk);
        ClimbSound(t, q.rest, min, inOk);
        JoinInfix(Flatten(lhs), o, Flatten(q.tree), q.rest, ts);
      }
  }

  lemma JoinInfix(l: seq<Token>, o: Infix, r: seq<Token>, rest: seq<Token>, ts: seq<Token>)
    requires ts != [] && ts[0] == InfixToken(o) && ts[1..] == r + rest
    ensures l + ts == l + [InfixToken(o)] + r + rest
  {
    assert ts == [ts[0]] + ts[1..];
  }

  /** One operator more keeps the tree well formed and its end closed. */
  lemma Joined(l: Tree, o: Infix, r: Tree, rest: seq<Token>, min: nat, inOk: bool)
    requires InfixOk(l, min, inOk) && Ends(l, LeftPower(o)) && min <= LeftPower(o) && (o == Plain(In) ==> inOk)
    requires !ForbiddenMix(o, l) && !ForbiddenMix(o, r) && !UnaryBase(o, l)
    requires InfixOk(r, RightPower(o), inOk) && Stopped(r, rest, inOk)
    requires InfixAt(rest, inOk).Some? ==> LeftPower(InfixAt(rest, inOk).value) < RightPower(o)
    ensures InfixOk(Infixed(o, l, r), min, inOk) && Stopped(Infixed(o, l, r), rest, inOk)
  {
    hide LeftPower, RightPower, ForbiddenMix, UnaryBase;
  }

  lemma {:induction false} TernarySound(ts: seq<Token>, inOk: bool)
    requires ParseTernary(ts, inOk).Ok?
    ensures var r := ParseTernary(ts, inOk); TernaryOk(r.tree, inOk) && ts == Flatten(r.tree) + r.rest
    decreases |ts|, 3
  {
    var c := ParseInfix(ts, 0, inOk);
    InfixSound(ts, 0, inOk);
    NotTernary(c.tree, 0, inOk);
    if c.rest != [] && c.rest[0] == Question {
      var a := ParseTernary(c.rest[1..], true);
      TernarySound(c.rest[1..], true);
      var b := ParseTernary(a.rest[1..], inOk);
      TernarySound(a.rest[1..], inOk);
      assert c.rest == [Question] + c.rest[1..] && a.rest == [Colon] + a.rest[1..];
      JoinTernary(Flatten(c.tree), Flatten(a.tree), Flatten(b.tree), b.rest);
    }
  }

  lemma NotTernary(t: Tree, min: nat, inOk: bool)
    requires InfixOk(t, min, inOk)
    ensures !t.Ternary?
  {
  }

  lemma JoinTernary(c: seq<Token>, a: seq<Token>, b: seq<Token>, rest: seq<Token>)
    ensures c + ([Question] + (a + ([Colon] + (b + rest)))) == c + [Question] + a + [Colon] + b + rest
  {
  }

  // ----- what is well formed parses back -----

  lemma {:induction false} UnaryComplete(t: Tree, rest: seq<Token>)
    requires UnaryOk(t)
    ensures ParseUnary(Flatten(t) + rest) == Ok(t, rest)
    decreases t, 0
  {
    hide LeftPower, RightPower, InfixOk, TernaryOk, ParseInfix, ParseTernary, Climb, Ends, PrefixTokens;
    var ts := Flatten(t) + rest;
    match t
    case Atom(_) =>
    case Parens(inner) =>
      TernaryComplete(inner, [RParen] + rest, true);
      ParensTokens(Flatten(inner), rest);
    case Prefixed(p, arg) =>
      UnaryComplete(arg, rest);
      PrefixFirst(p, Flatten(arg), rest);
    case Updated(_, arg) =>
      UnaryComplete(arg, rest);
      assert ts[1..] == Flatten(arg) + rest;
  }

  lemma ParensTokens(inner: seq<Token>, rest: seq<Token>)
    ensures var ts := [LParen] + inner + [RParen] + rest;
            ts[1..] == inner + ([RParen] + rest) && ts[0] == LParen
    ensures ([RParen] + rest)[1..] == rest && ([RParen] + rest)[0] == RParen
  {
  }

  lemma PrefixFirst(p: Prefix, arg: seq<Token>, rest: seq<Token>)
    ensures var ts := [PrefixTokens(p)] + arg + rest;
            PrefixAt(ts) == Some(p) && ts[1..] == arg + rest && ts[0] == PrefixTokens(p)
  {
  }

  /** Parsing a printed tree continues after it with the tree in hand. */
  lemma {:induction false} InfixComplete(t: Tree, rest: seq<Token>, min: nat, inOk: bool)
    requires InfixOk(t, min, inOk) && Stopped(t, rest, inOk)
    ensures ParseInfix(Flatten(t) + rest, min, inOk) == Climb(t, rest, min, inOk)
    decreases t, 1
  {
    if t.Infixed? {
      var more := [InfixToken(t.infix)] + (Flatten(t.right) + rest);
      assert Flatten(t) + rest == Flatten(t.left) + more;
      InfixComplete(t.left, more, min, inOk);
      assert more[1..] == Flatten(t.right) + rest;
      InfixComplete(t.right, rest, RightPower(t.infix), inOk);
    } else {
      UnaryComplete(t, rest);
    }
  }

  /** Where an expression may end. */
  ghost predicate Closed(rest: seq<Token>, inOk: bool) {
    InfixAt(rest, inOk).None? && (rest != [] ==> rest[0] != Question)
  }

  lemma {:induction false} TernaryComplete(t: Tree, rest: seq<Token>, inOk: bool)
    requires TernaryOk(t, inOk) && Closed(rest, inOk)
    ensures ParseTernary(Flatten(t) + rest, inOk) == Ok(t, rest)
    decreases t, 2
  {
    match t
    case Ternary(c, a, b) =>
      var afterA := [Colon] + (Flatten(b) + rest);
      var afterC := [Question] + (Flatten(a) + afterA);
      JoinTernary(Flatten(c), Flatten(a), Flatten(b), rest);
      InfixComplete(c, afterC, 0, inOk);
      assert afterC[1..] == Flatten(a) + afterA && afterA[1..] == Flatten(b) + rest;
      TernaryComplete(a, afterA, true);
      TernaryComplete(b, rest, inOk);
    case _ => InfixComplete(t, rest, 0, inOk);
  }

  /** Parsing and printing are inverse to each other on the trees that the
      grammar derives, and nothing else is parsed. */
  lemma ParsesExactly(ts: seq<Token>, t: Tree, inOk: bool)
    ensures ParseTernary(ts, inOk) == Ok(t, []) <==> Derives(ConditionalExpression, t, inOk) && Flatten(t) == ts
  {
    hide Derives, TernaryOk;
    TreeDerives(t, inOk);
    if ParseTernary(ts, inOk) == Ok(t, []) {
      TernarySound(ts, inOk);
      assert Flatten(t) + [] == Flatten(t);
    }
    if TernaryOk(t, inOk) && Flatten(t) == ts {
      TernaryComplete(t, [], inOk);
      assert Flatten(t) + [] == Flatten(t);
    }
  }

  /** Derivable trees are told apart by their tokens. */
  lemma Unambiguous(a: Tree, b: Tree, inOk: bool)
    requires Derives(ConditionalExpression, a, inOk) && Derives(ConditionalExpression, b, inOk)
    requires Flatten(a) == Flatten(b)
    ensures a == b
  {
    hide Derives;
    ParsesExactly(Flatten(a), a, inOk);
    ParsesExactly(Flatten(b), b, inOk);
  }

  // ----- the parser over a token stream -----

  class TokenStream {
    const tokens: seq<Token>
    var pos: nat

    constructor (tokens: seq<Token>)
      ensures this.tokens == tokens && pos == 0
    {
      this.tokens, pos := tokens, 0;
    }

    ghost predicate Valid()
      reads this
    {
      pos <= |tokens|
    }

    function Remaining(): seq<Token>
      requires Valid()
      reads this
    {
      tokens[pos..]
    }

    /** The method did what the parser function does. */
    ghost predicate Did(p: Parsed, r: Option<Tree>)
      reads this
    {
      && Valid() && (r.Some? <==> p.Ok?)
      && (p.Ok? ==> r == Some(p.tree) && Remaining() == p.rest)
    }

    function Peek(): Option<Token>
      requires Valid()
      reads this
    {
      if pos < |tokens| then Some(tokens[pos]) else None
    }

    method Bump()
      requires Valid() && pos < |tokens|
      modifies this
      ensures Valid() && Remaining() == old(Remaining())[1..]
    {
      pos := pos + 1;
    }

    method ParseUnaryExpr() returns (r: Option<Tree>)
      requires Valid()
      modifies this
      ensures Did(ParseUnary(old(Remaining())), r)
      decreases |tokens| - pos, 0
    {
      var prefix := PrefixAt(Remaining());
      if prefix.Some? {
        Bump();
        var arg := ParseUnaryExpr();
        return if arg.Some? then Some(Prefixed(prefix.value, arg.value)) else None;
      }
      match Peek()
      case Some(UpdateToken(up)) =>
        Bump();
        var arg := ParseUnaryExpr();
        return if arg.Some? then Some(Updated(up, arg.value)) else None;
      case Some(Name(n)) =>
        Bump();
        return Some(Atom(n));
      case Some(LParen) =>
        Bump();
        var inner := ParseConditional(true);
        if inner.None? || Peek() != Some(RParen) {
          return None;
        }
        Bump();
        return Some(Parens(inner.value));
      case _ =>
        return None;
    }

    method ParseBinary(min: nat, inOk: bool) returns (r: Option<Tree>)
      requires Valid()
      modifies this
      ensures Did(ParseInfix(old(Remaining()), min, inOk), r)
      decreases |tokens| - pos, 2
    {
      var first := ParseUnaryExpr();
      if first.None? {
        return None;
      }
      var lhs := first.value;
      ghost var start := old(Remaining());
      while true
        invariant Valid() && |Remaining()| < |start|
        invariant Climb(lhs, Remaining(), min, inOk) == ParseInfix(start, min, inOk)
        decreases |tokens| - pos
      {
        var op := InfixAt(Remaining(), inOk);
        if op.None? || LeftPower(op.value) < min {
          return Some(lhs);
        }
        if ForbiddenMix(op.value, lhs) || UnaryBase(op.value, lhs) {
          return None;
        }
        Bump();
        var rhs := ParseBinary(RightPower(op.value), inOk);
        if rhs.None? || ForbiddenMix(op.value, rhs.value) {
          return None;
        }
        lhs := Infixed(op.value, lhs, rhs.value);
      }
    }

    method ParseConditional(inOk: bool) returns (r: Option<Tree>)
      requires Valid()
      modifies this
      ensures Did(ParseTernary(old(Remaining()), inOk), r)
      decreases |tokens| - pos, 3
    {
      var test := ParseBinary(0, inOk);
      if test.None? || Peek() != Some(Question) {
        return test;
      }
      Bump();
      var cons := ParseConditional(true);
      if cons.None? || Peek() != Some(Colon) {
        return None;
      }
      Bump();
      var alt := ParseConditional(inOk);
      return if alt.Some? then Some(Ternary(test.value, cons.value, alt.value)) else None;
    }

    /** A whole token stream parses to `t` exactly when the grammar derives `t`
        and it prints as the stream. */
    method ParseAll() returns (r: Option<Tree>)
      requires pos == 0
      modifies this
      ensures forall t :: r == Some(t) <==> Derives(ConditionalExpression, t, true) && Flatten(t) == tokens
      ensures r.Some? ==> Words(r.value) == TokenTexts(tokens)
    {
      hide Derives;
      r := ParseConditional(true);
      assert tokens[0..] == tokens;
      if r.Some? && pos < |tokens| {
        r := None;
      }
      forall t ensures r == Some(t) <==> Derives(ConditionalExpression, t, true) && Flatten(t) == tokens {
        ParsesExactly(tokens, t, true);
      }
      if r.Some? {
        TokensSpell(r.value);
      }
    }
  }
}
