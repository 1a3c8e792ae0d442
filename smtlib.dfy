/**
 * ModelSMTLIBService: translates an expression into an SMT-LIB 2 query over
 * the theories of integers and reals (section 3.9 of the SMT-LIB 2.6
 * standard describes the commands it emits). Its Translator visits the tree in
 * post-order with a stack of rendered terms, declares every variable on its
 * first visit together with a domain constraint from the variable's bounds,
 * and `model` wraps the result in `set-option`, `assert` and `check-sat`.
 */
module SmtLib {
  import opened Wrappers
  import opened JavaLang
  import opened Ast
  import opened SmtTerms

  /** `transformNegative(long)`: a negative value as `(- n)`, any other as its decimal numeral. */
  function TransformNegative(v: int): string
  {
    SignedNumeral("(- ", v)
  }

  /** An SMT-LIB integer term read back: a numeral, or `-` applied to one. */
  function ReadNumeral(s: string): Option<int>
  {
    ReadSigned("(- ", s)
  }

  /** Every `long` but Long.MIN_VALUE becomes an integer term denoting itself. */
  lemma NumeralRoundTrip(v: int)
    requires IsLong(v) && v != LONG_MIN
    ensures ReadNumeral(TransformNegative(v)) == Some(v)
  {
    SignedNumeralRoundTrip("(- ", v);
  }

  /** `-v` overflows for Long.MIN_VALUE, which becomes `(- -9223372036854775808)`: no SMT-LIB term. */
  lemma MinValueIsNoNumeral(v: int)
    requires v == LONG_MIN
    ensures TransformNegative(v) == "(- " + "-" + NatToDecimal(-v) + ")"
    ensures ReadNumeral(TransformNegative(v)) == None
  {
    SignedNumeralMinValue("(- ", v);
  }

  /** `transformNegative(double)`; how Double.toString renders the magnitude is kept abstract. */
  function RealText(lit: RealLit): string
  {
    if lit.negative then Apply1("-", lit.magnitude) else lit.magnitude
  }

  /** The class a variable's terms are tagged with. */
  function Tag(v: Variable): TypeTag
  {
    match v
    case IntVar(_, _, _) => IntTag
    case IntegerVar(_, _, _) => IntegerTag
    case RealVar(_, _, _) => RealTag
  }

  /** `(declare-fun n () Int)`, or `Real` for a real variable. */
  function Declaration(v: Variable): string
  {
    Apply2("declare-fun", v.name, ConstantSignature(if v.RealVar? then "Real" else "Int"))
  }

  /** `(and (>= n lo) (<= n hi))`. */
  function Bounds(n: string, lo: string, hi: string): string
  {
    Apply2("and", Apply2(">=", n, lo), Apply2("<=", n, hi))
  }

  /** The domain constraint of a variable, from its bounds. */
  function Domain(v: Variable): string
  {
    match v
    case IntVar(n, lo, hi) => Bounds(n, TransformNegative(lo), TransformNegative(hi))
    case IntegerVar(n, lo, hi) => Bounds(n, TransformNegative(lo), TransformNegative(hi))
    case RealVar(n, lo, hi) => Bounds(n, RealText(lo), RealText(hi))
  }

  /** The three `postVisit` methods of the variable classes: declare on the first visit, push the name on every visit. */
  function VisitVariable(st: TState, v: Variable): TState
  {
    TState(st.stack + [Pair(v.name, Tag(v))], Declare(st.decls, v, Declaration(v), Domain(v)))
  }

  /** Real when either operand is real, IntegerVariable otherwise. */
  function Widest(a: TypeTag, b: TypeTag): TypeTag
  {
    if a == RealTag || b == RealTag then RealTag else IntegerTag
  }

  /**
   * `superType(left, right)`: reading the tag of a null operand throws; the
   * `||` does not read the right tag when the left one is already Real.
   */
  function SuperType(l: Option<Pair>, r: Option<Pair>): (t: Result<TypeTag, Fault>)
    ensures l.Some? && r.Some? ==> t == Success(Widest(l.value.tag, r.value.tag))
    ensures t.Success? ==> t.value != IntTag
    ensures t.Failure? <==> l.None? || (r.None? && l.value.tag != RealTag)
    ensures t.Failure? ==> t.error == NullPointer
  {
    if l.None? then Failure(NullPointer)
    else if l.value.tag == RealTag then Success(RealTag)
    else if r.None? then Failure(NullPointer)
    else Success(Widest(l.value.tag, r.value.tag))
  }

  /** A term converted to the tag `t`: unchanged when it has that tag, under `to_real` otherwise. */
  function Adjusted(p: Pair, t: TypeTag): string
  {
    if p.tag == t then p.text else Apply1("to_real", p.text)
  }

  /** `adjust(term, type)`: a null term throws. */
  function Adjust(p: Option<Pair>, t: TypeTag): Result<string, Fault>
  {
    if p.None? then Failure(NullPointer) else Success(Adjusted(p.value, t))
  }

  /** The operators `setOperator` has a symbol for. */
  predicate HasSymbol(op: Operator)
  {
    op == Eq || op == Lt || op == Le || op == Gt || op == Ge || op == Not || op == And || op == Or
    || op == Implies || op == Add || op == Sub || op == Mul || op == Div || op == Mod
  }

  /** `setOperator(op)`: the SMT-LIB symbol of `op`; NE, the bit operations, shifts and numeric functions throw. */
  function SetOperator(op: Operator): (r: Result<string, Fault>)
    ensures r.Success? <==> HasSymbol(op)
    ensures r.Failure? ==> r.error == UnsupportedOperation
  {
    match op
    case Eq => Success("=")
    case Lt => Success("<")
    case Le => Success("<=")
    case Gt => Success(">")
    case Ge => Success(">=")
    case Not => Success("not")
    case And => Success("and")
    case Or => Success("or")
    case Implies => Success("=>")
    case Add => Success("+")
    case Sub => Success("-")
    case Mul => Success("*")
    case Div => Success("div")
    case Mod => Success("mod")
    case _ => Failure(UnsupportedOperation)
  }

  /** The operator an SMT-LIB symbol of the integer and real theories stands for. */
  function SymbolOperator(sym: string): Option<Operator>
  {
    match sym
    case "=" => Some(Eq)
    case "<" => Some(Lt)
    case "<=" => Some(Le)
    case ">" => Some(Gt)
    case ">=" => Some(Ge)
    case "not" => Some(Not)
    case "and" => Some(And)
    case "or" => Some(Or)
    case "=>" => Some(Implies)
    case "+" => Some(Add)
    case "-" => Some(Sub)
    case "*" => Some(Mul)
    case "div" => Some(Div)
    case "mod" => Some(Mod)
    case _ => None
  }

  /** Every symbol `setOperator` emits stands for the operator it was emitted for: no two operators share one. */
  lemma SymbolRoundTrip(op: Operator)
    requires HasSymbol(op)
    ensures SymbolOperator(SetOperator(op).value) == Some(op)
  {
  }

  /** Symbols hold no parentheses. */
  lemma SymbolParenFree(op: Operator)
    requires HasSymbol(op)
    ensures ParenFree(SetOperator(op).value)
  {
  }

  /** A two-operand operation on two rendered operands: NE as `(not (= a b))`, any other as `(op a b)`. */
  function Combine(op: Operator, a: Pair, b: Pair): Pair
    requires op == Ne || HasSymbol(op)
  {
    var t := Widest(a.tag, b.tag);
    var x, y := Adjusted(a, t), Adjusted(b, t);
    if op == Ne then Pair(Apply1("not", Apply2("=", x, y)), t)
    else Pair(Apply2(SetOperator(op).value, x, y), t)
  }

  /**
   * `postVisit(Operation)`: a two-operand operator pops its right then its
   * left operand, a one-operand operator pops one; the super type is taken
   * before the symbol, the symbol before the operands are adjusted, and the
   * first exception ends the visit.
   */
  function Operate(op: Operator, stack: seq<Pair>): Result<seq<Pair>, Fault>
  {
    if Arity(op) == 2 then
      var (r, st1) := Pop(stack);
      var (l, st2) := Pop(st1);
      match SuperType(l, r)
      case Failure(f) => Failure(f)
      case Success(t) =>
        if op == Ne then
          match Adjust(l, t)
          case Failure(f) => Failure(f)
          case Success(x) =>
            match Adjust(r, t)
            case Failure(f) => Failure(f)
            case Success(y) => Success(st2 + [Pair(Apply1("not", Apply2("=", x, y)), t)])
        else
          match SetOperator(op)
          case Failure(f) => Failure(f)
          case Success(sym) =>
            match Adjust(l, t)
            case Failure(f) => Failure(f)
            case Success(x) =>
              match Adjust(r, t)
              case Failure(f) => Failure(f)
              case Success(y) => Success(st2 + [Pair(Apply2(sym, x, y), t)])
    else
      var (l, st1) := Pop(stack);
      match SetOperator(op)
      case Failure(f) => Failure(f)
      case Success(sym) =>
        match Adjust(l, IntegerTag)
        case Failure(f) => Failure(f)
        case Success(x) => Success(st1 + [Pair(Apply1(sym, x), IntegerTag)])
  }

  /** The `postVisit` of one node, its operands already visited. */
  function PostVisit(e: Expr, st: TState): Result<TState, Fault>
  {
    match e
    case Var(v) => Success(VisitVariable(st, v))
    case IntConst(c) => Success(st.(stack := st.stack + [Pair(TransformNegative(c), IntTag)]))
    case IntegerConst(c) => Success(st.(stack := st.stack + [Pair(TransformNegative(c), IntegerTag)]))
    case RealConst(lit) => Success(st.(stack := st.stack + [Pair(RealText(lit), RealTag)]))
    case Unary(op, _) =>
      (match Operate(op, st.stack) case Success(s) => Success(st.(stack := s)) case Failure(f) => Failure(f))
    case Binary(op, _, _) =>
      (match Operate(op, st.stack) case Success(s) => Success(st.(stack := s)) case Failure(f) => Failure(f))
  }

  /** The post-order walk of `e`; an exception ends it. */
  function Walk(e: Expr, st: TState): Result<TState, Fault>
  {
    match e
    case Unary(_, x) =>
      (match Walk(x, st)
       case Failure(f) => Failure(f)
       case Success(s1) => PostVisit(e, s1))
    case Binary(_, l, r) =>
      (match Walk(l, st)
       case Failure(f) => Failure(f)
       case Success(s1) =>
         match Walk(r, s1)
         case Failure(f) => Failure(f)
         case Success(s2) => PostVisit(e, s2))
    case _ => PostVisit(e, st)
  }

  /** The operators the translator renders: NOT on one operand, NE and the symbols of `setOperator` on two. */
  predicate Translatable(e: Expr)
  {
    match e
    case Unary(op, x) => op == Not && Translatable(x)
    case Binary(op, l, r) => (op == Ne || (HasSymbol(op) && op != Not)) && Translatable(l) && Translatable(r)
    case _ => true
  }

  /** The rendering of a translatable expression, defined directly by recursion on the tree. */
  function Render(e: Expr): Pair
    requires Translatable(e)
  {
    match e
    case Var(v) => Pair(v.name, Tag(v))
    case IntConst(c) => Pair(TransformNegative(c), IntTag)
    case IntegerConst(c) => Pair(TransformNegative(c), IntegerTag)
    case RealConst(lit) => Pair(RealText(lit), RealTag)
    case Unary(_, x) => Pair(Apply1("not", Adjusted(Render(x), IntegerTag)), IntegerTag)
    case Binary(op, l, r) => Combine(op, Render(l), Render(r))
  }

  /** Operating on two rendered operands pushes their combination, or throws for an operator without a symbol. */
  lemma OperateBinary(op: Operator, stack: seq<Pair>, a: Pair, b: Pair)
    requires Arity(op) == 2
    ensures op == Ne || HasSymbol(op) ==> Operate(op, stack + [a] + [b]) == Success(stack + [Combine(op, a, b)])
    ensures !(op == Ne || HasSymbol(op)) ==> Operate(op, stack + [a] + [b]) == Failure(UnsupportedOperation)
  {
    assert Pop(stack + [a] + [b]) == (Some(b), stack + [a]);
    assert Pop(stack + [a]) == (Some(a), stack);
    var t := Widest(a.tag, b.tag);
    assert SuperType(Some(a), Some(b)) == Success(t);
    assert Adjust(Some(a), t) == Success(Adjusted(a, t)) && Adjust(Some(b), t) == Success(Adjusted(b, t));
    if op == Ne {
    } else if HasSymbol(op) {
      assert SetOperator(op).Success?;
    } else {
      assert SetOperator(op) == Failure(UnsupportedOperation);
    }
  }

  /** Operating on one rendered operand pushes its negation under NOT, or throws for any other one-operand operator. */
  lemma OperateUnary(op: Operator, stack: seq<Pair>, a: Pair)
    requires Arity(op) == 1
    ensures op == Not ==> Operate(op, stack + [a]) == Success(stack + [Pair(Apply1("not", Adjusted(a, IntegerTag)), IntegerTag)])
    ensures op != Not ==> Operate(op, stack + [a]) == Failure(UnsupportedOperation)
  {
    assert Pop(stack + [a]) == (Some(a), stack);
  }

  /** The declarations of visiting the variables `vs`. */
  function DeclareVars(d: Declarations, vs: seq<Variable>): Declarations
  {
    DeclareAll(d, vs, Declaration, Domain)
  }

  /**
   * The stack machine computes the reference rendering: on a well-formed
   * tree the walk pushes exactly `Render(e)` and declares the variables of
   * `e`, or, when some operator has no rendering, throws
   * TranslatorUnsupportedOperation.
   */
  lemma {:induction false} WalkRenders(e: Expr, st: TState)
    requires WellFormed(e)
    ensures Translatable(e) ==> Walk(e, st) == Success(TState(st.stack + [Render(e)], DeclareVars(st.decls, Vars(e))))
    ensures !Translatable(e) ==> Walk(e, st) == Failure(UnsupportedOperation)
  {
    match e
    case Var(v) =>
      DeclareOne(st.decls, v, Declaration, Domain);
    case IntConst(_) =>
    case IntegerConst(_) =>
    case RealConst(_) =>
    case Unary(op, x) =>
      WalkRenders(x, st);
      if Translatable(x) {
        OperateUnary(op, st.stack, Render(x));
      }
    case Binary(op, l, r) =>
      WalkRenders(l, st);
      if Translatable(l) {
        var s1 := TState(st.stack + [Render(l)], DeclareVars(st.decls, Vars(l)));
        WalkRenders(r, s1);
        if Translatable(r) {
          OperateBinary(op, st.stack, Render(l), Render(r));
          DeclareAllAppend(st.decls, Vars(l), Vars(r), Declaration, Domain);
        }
      }
  }

  /**
   * What `model` hands to `solve0`: the query and the variable map, or
   * `None` when the translator threw TranslatorUnsupportedOperation (caught,
   * so `model` returns null). Any other exception escapes.
   */
  function ModelRequest(e: Expr): Result<Option<(string, map<Variable, string>)>, Fault>
  {
    match Walk(e, Fresh)
    case Failure(UnsupportedOperation) => Success(None)
    case Failure(f) => Failure(f)
    case Success(s) => Assemble(s)
  }

  /** On a translatable tree, `solve0` receives the query over the walk's declarations and the rendering. */
  lemma ModelRequestTranslates(e: Expr)
    requires WellFormed(e) && Translatable(e)
    ensures var d := DeclareVars(Fresh.decls, Vars(e));
      ModelRequest(e) == Success(Some((Query(d.defs, Conjunction(d.domains, Render(e).text)), d.varMap)))
  {
    WalkRenders(e, Fresh);
    assert Fresh.stack + [Render(e)] == [Render(e)];
  }

  /**
   * For a well-formed translatable expression, `solve0` receives the query
   * asserting the domain constraints and the rendering, after one
   * declaration per distinct variable in the order of first visit, and the
   * map from every variable to its name. An expression with an operator the
   * translator cannot render yields null.
   */
  lemma ModelRequestOfTree(e: Expr)
    requires WellFormed(e)
    ensures Translatable(e) ==> ModelRequest(e).Success? && ModelRequest(e).value.Some?
    ensures Translatable(e) ==>
      var firsts := FirstOccurrences(Vars(e), {});
      var (query, varMap) := ModelRequest(e).value.value;
      && query == Query(Each(firsts, Declaration), Conjunction(Each(firsts, Domain), Render(e).text))
      && varMap.Keys == (set v | v in Vars(e))
      && (forall v :: v in Vars(e) ==> varMap[v] == v.name)
    ensures !Translatable(e) ==> ModelRequest(e) == Success(None)
  {
    WalkRenders(e, Fresh);
    if Translatable(e) {
      ModelRequestTranslates(e);
      DeclareFromNothing(Vars(e), Declaration, Domain);
    }
  }

  /** A declaration is emitted for every variable of the list it is made from. */
  lemma DeclaresEach(firsts: seq<Variable>)
    ensures forall v :: v in firsts ==> Declaration(v) in Each(firsts, Declaration)
  {
    EachAt(firsts, Declaration);
    forall v | v in firsts
      ensures Declaration(v) in Each(firsts, Declaration)
    {
      var k :| 0 <= k < |firsts| && firsts[k] == v;
      assert Each(firsts, Declaration)[k] == Declaration(v);
    }
  }

  /** Every variable of the expression is declared, once per distinct variable. */
  lemma DeclaredOnce(e: Expr)
    ensures var defs := DeclareVars(Fresh.decls, Vars(e)).defs;
      && |defs| == |FirstOccurrences(Vars(e), {})|
      && (forall v :: v in Vars(e) ==> Declaration(v) in defs)
  {
    DeclareFromNothing(Vars(e), Declaration, Domain);
    var firsts := FirstOccurrences(Vars(e), {});
    EachAt(firsts, Declaration);
    DeclaresEach(firsts);
  }

  /** Converting a term to another tag keeps it exactly as balanced. */
  lemma AdjustedDepth(p: Pair, t: TypeTag)
    ensures Depth(Adjusted(p, t)) == Depth(p.text)
  {
    if p.tag != t {
      Apply1Depth("to_real", p.text);
    }
  }

  /** Integer terms are balanced. */
  lemma NumeralDepth(v: int)
    ensures Depth(TransformNegative(v)) == 0
  {
    OpenerDepth("(- ");
    SignedNumeralDepth("(- ", v);
  }

  /** Real constants whose text holds no parentheses give balanced terms. */
  lemma RealTextDepth(lit: RealLit)
    requires ParenFree(lit.magnitude)
    ensures Depth(RealText(lit)) == 0
  {
    ParenFreeDepth(lit.magnitude);
    if lit.negative {
      Apply1Depth("-", lit.magnitude);
    }
  }

  /** An operation on balanced operands renders balanced. */
  lemma CombineDepth(op: Operator, a: Pair, b: Pair)
    requires op == Ne || HasSymbol(op)
    requires Depth(a.text) == 0 && Depth(b.text) == 0
    ensures Depth(Combine(op, a, b).text) == 0
  {
    var t := Widest(a.tag, b.tag);
    var x, y := Adjusted(a, t), Adjusted(b, t);
    AdjustedDepth(a, t);
    AdjustedDepth(b, t);
    if op == Ne {
      Apply2Depth("=", x, y);
      Apply1Depth("not", Apply2("=", x, y));
    } else {
      SymbolParenFree(op);
      Apply2Depth(SetOperator(op).value, x, y);
    }
  }

  /** The negation of a balanced term is balanced. */
  lemma NegationDepth(p: Pair)
    requires Depth(p.text) == 0
    ensures Depth(Apply1("not", Adjusted(p, IntegerTag))) == 0
  {
    AdjustedDepth(p, IntegerTag);
    Apply1Depth("not", Adjusted(p, IntegerTag));
  }

  /** Plain variables and constants render balanced. */
  lemma LeafDepth(e: Expr)
    requires Plain(e) && !e.Unary? && !e.Binary?
    ensures Depth(Render(e).text) == 0
  {
    match e
    case Var(v) => ParenFreeDepth(v.name);
    case IntConst(c) => NumeralDepth(c);
    case IntegerConst(c) => NumeralDepth(c);
    case RealConst(lit) => RealTextDepth(lit);
  }

  /**
   * Over variables and real literals whose text holds no parentheses, every
   * rendered term is a balanced S-expression.
   */
  lemma {:induction false} RenderDepth(e: Expr)
    requires Plain(e) && Translatable(e)
    ensures Depth(Render(e).text) == 0
  {
    match e
    case Unary(_, x) =>
      RenderDepth(x);
      NegationDepth(Render(x));
    case Binary(op, l, r) =>
      RenderDepth(l);
      RenderDepth(r);
      CombineDepth(op, Render(l), Render(r));
    case _ =>
      LeafDepth(e);
  }

  /** `(declare-fun n () Int)` is balanced for a name without parentheses. */
  lemma DeclarationDepth(v: Variable)
    requires ParenFree(v.name)
    ensures Depth(Declaration(v)) == 0
  {
    var sort := if v.RealVar? then "Real" else "Int";
    ParenFreeDepth(sort);
    ConstantSignatureDepth(sort);
    ParenFreeDepth(v.name);
    Apply2Depth("declare-fun", v.name, ConstantSignature(sort));
  }

  /** The domain constraint of a plain variable is balanced. */
  lemma DomainDepth(v: Variable)
    requires PlainVariable(v)
    ensures Depth(Domain(v)) == 0
  {
    var n := v.name;
    var (lo, hi) := match v
      case RealVar(_, a, b) => (RealText(a), RealText(b))
      case _ => (TransformNegative(v.lower), TransformNegative(v.upper));
    if v.RealVar? {
      RealTextDepth(v.realLower);
      RealTextDepth(v.realUpper);
    } else {
      NumeralDepth(v.lower);
      NumeralDepth(v.upper);
    }
    ParenFreeDepth(n);
    Apply2Depth(">=", n, lo);
    Apply2Depth("<=", n, hi);
    Apply2Depth("and", Apply2(">=", n, lo), Apply2("<=", n, hi));
  }

  /** A plain variable's declaration and domain constraint are balanced. */
  lemma VariableDepth(v: Variable)
    requires PlainVariable(v)
    ensures Depth(Declaration(v)) == 0 && Depth(Domain(v)) == 0
  {
    DeclarationDepth(v);
    DomainDepth(v);
  }

  /** The declarations and domain constraints of plain variables are balanced. */
  lemma DeclarationsDepth(vs: seq<Variable>)
    requires forall v :: v in vs ==> PlainVariable(v)
    ensures forall k :: 0 <= k < |Each(vs, Declaration)| ==> Depth(Each(vs, Declaration)[k]) == 0
    ensures forall k :: 0 <= k < |Each(vs, Domain)| ==> Depth(Each(vs, Domain)[k]) == 0
  {
    EachAt(vs, Declaration);
    EachAt(vs, Domain);
    forall k | 0 <= k < |vs|
      ensures Depth(Declaration(vs[k])) == 0 && Depth(Domain(vs[k])) == 0
    {
      VariableDepth(vs[k]);
    }
  }

  /**
   * Over plain variables and literals, the query `solve0` receives is a
   * sequence of balanced S-expressions: every parenthesis it opens is closed.
   */
  lemma QueryBalanced(e: Expr)
    requires WellFormed(e) && Translatable(e) && Plain(e)
    ensures ModelRequest(e).Success? && ModelRequest(e).value.Some?
    ensures Depth(ModelRequest(e).value.value.0) == 0
  {
    ModelRequestOfTree(e);
    var firsts := FirstOccurrences(Vars(e), {});
    PlainVars(e);
    DeclarationsDepth(firsts);
    RenderDepth(e);
    ConjunctionDepth(Each(firsts, Domain), Render(e).text);
    QueryDepth(Each(firsts, Declaration), Conjunction(Each(firsts, Domain), Render(e).text));
  }

  /**
   * `superType` answers IntegerVariable for any two non-real terms, so
   * `adjust` wraps every IntVariable term in `to_real`, even when no real
   * occurs: `x < c` over an IntVariable and an IntConstant compares two
   * converted terms.
   */
  lemma IntTermsGoThroughToReal(v: Variable, c: int)
    requires v.IntVar?
    ensures Translatable(Binary(Lt, Var(v), IntConst(c)))
    ensures Render(Binary(Lt, Var(v), IntConst(c))).text
      == Apply2("<", Apply1("to_real", v.name), Apply1("to_real", TransformNegative(c)))
  {
    assert Translatable(Var(v)) && Translatable(IntConst(c));
  }

  /**
   * NOT adjusts its operand to IntegerVariable, so the negation of a
   * comparison of reals, which carries the real tag, wraps a Boolean term in
   * `to_real`.
   */
  lemma NegatedRealComparison(op: Operator, a: Expr, b: Expr)
    requires IsRelational(op) && Translatable(a) && Translatable(b) && Render(a).tag == RealTag
    ensures Translatable(Binary(op, a, b)) && Render(Binary(op, a, b)).tag == RealTag
    ensures Render(Unary(Not, Binary(op, a, b))).text == Apply1("not", Apply1("to_real", Render(Binary(op, a, b)).text))
  {
  }

  /** ModelSMTLIBService.Translator: the stack of rendered terms, the variable map and the two lists. */
  class Translator {
    var stack: seq<Pair>
    var varMap: map<Variable, string>
    var defs: seq<string>
    var domains: seq<string>

    function State(): TState
      reads this
    {
      TState(stack, Declarations(varMap, defs, domains))
    }

    constructor ()
      ensures State() == Fresh
    {
      stack := [];
      varMap := map[];
      defs := [];
      domains := [];
    }

    method PostVisitIntConstant(c: int)
      modifies this`stack
      ensures State() == PostVisit(IntConst(c), old(State())).value
    {
      stack := stack + [Pair(TransformNegative(c), IntTag)];
    }

    method PostVisitIntegerConstant(c: int)
      modifies this`stack
      ensures State() == PostVisit(IntegerConst(c), old(State())).value
    {
      stack := stack + [Pair(TransformNegative(c), IntegerTag)];
    }

    method PostVisitRealConstant(lit: RealLit)
      modifies this`stack
      ensures State() == PostVisit(RealConst(lit), old(State())).value
    {
      stack := stack + [Pair(RealText(lit), RealTag)];
    }

    /** The three variable visits: the first one declares, every one pushes the name. */
    method PostVisitVariable(v: Variable)
      modifies this
      ensures State() == PostVisit(Var(v), old(State())).value
    {
      if v !in varMap {
        defs := defs + [Declaration(v)];
        domains := domains + [Domain(v)];
        varMap := varMap[v := v.name];
      }
      stack := stack + [Pair(v.name, Tag(v))];
    }

    /** `postVisit(Operation)`. */
    method PostVisitOperation(op: Operator) returns (o: Outcome<Fault>)
      modifies this`stack
      ensures Operate(op, old(stack)).Success? ==> o == Pass && stack == Operate(op, old(stack)).value
      ensures Operate(op, old(stack)).Failure? ==> o == Fail(Operate(op, old(stack)).error)
    {
      var l: Option<Pair> := None;
      var r: Option<Pair> := None;
      if Arity(op) == 2 {
        if stack != [] {
          r := Some(stack[|stack| - 1]);
          stack := stack[..|stack| - 1];
        }
        if stack != [] {
          l := Some(stack[|stack| - 1]);
          stack := stack[..|stack| - 1];
        }
        var t := SuperType(l, r);
        if t.Failure? {
          return Fail(t.error);
        }
        var sym := "not";
        if op != Ne {
          var s := SetOperator(op);
          if s.Failure? {
            return Fail(s.error);
          }
          sym := s.value;
        }
        var x := Adjust(l, t.value);  // `l` is not null once `superType` has returned
        var y := Adjust(r, t.value);  // nor is `r`, popped first
        if op == Ne {
          stack := stack + [Pair(Apply1("not", Apply2("=", x.value, y.value)), t.value)];
        } else {
          stack := stack + [Pair(Apply2(sym, x.value, y.value), t.value)];
        }
      } else {
        if stack != [] {
          l := Some(stack[|stack| - 1]);
          stack := stack[..|stack| - 1];
        }
        var s := SetOperator(op);
        if s.Failure? {
          return Fail(s.error);
        }
        var x := Adjust(l, IntegerTag);
        if x.Failure? {
          return Fail(x.error);
        }
        stack := stack + [Pair(Apply1(s.value, x.value), IntegerTag)];
      }
      o := Pass;
    }

    /** `expression.accept(translator)`: the post-order visit. */
    method Accept(e: Expr) returns (o: Outcome<Fault>)
      modifies this
      ensures Walk(e, old(State())).Success? ==> o == Pass && State() == Walk(e, old(State())).value
      ensures Walk(e, old(State())).Failure? ==> o == Fail(Walk(e, old(State())).error)
      decreases e
    {
      match e
      case Var(v) =>
        PostVisitVariable(v);
        o := Pass;
      case IntConst(c) =>
        PostVisitIntConstant(c);
        o := Pass;
      case IntegerConst(c) =>
        PostVisitIntegerConstant(c);
        o := Pass;
      case RealConst(lit) =>
        PostVisitRealConstant(lit);
        o := Pass;
      case Unary(op, x) =>
        o := Accept(x);
        if o.Pass? {
          o := PostVisitOperation(op);
        }
      case Binary(op, l, r) =>
        o := Accept(l);
        if o.Pass? {
          o := Accept(r);
          if o.Pass? {
            o := PostVisitOperation(op);
          }
        }
    }

    /** `getTranslation`: the domain constraints and the popped root term under one `and`. */
    method GetTranslation() returns (r: Result<string, Fault>)
      modifies this`stack
      ensures old(stack) == [] ==> r == Failure(EmptyStack) && stack == old(stack)
      ensures old(stack) != [] ==>
        && r == Success(Conjunction(domains, old(stack)[|old(stack)| - 1].text))
        && stack == old(stack)[..|old(stack)| - 1]
    {
      if stack == [] {
        return Failure(EmptyStack);
      }
      var top := stack[|stack| - 1];
      stack := stack[..|stack| - 1];
      var s := Conjoin(domains, top.text);
      r := Success(s);
    }
  }

  /** `model(instance)`: translate, then assemble the query for `solve0`. */
  method Model(e: Expr) returns (r: Result<Option<(string, map<Variable, string>)>, Fault>)
    ensures r == ModelRequest(e)
  {
    var t := new Translator();
    var o := t.Accept(e);
    if o.Fail? {
      if o.error == UnsupportedOperation {
        return Success(None);
      }
      return Failure(o.error);
    }
    ghost var walked := t.State();
    assert Walk(e, Fresh) == Success(walked);
    var translation := t.GetTranslation();
    if translation.Failure? {
      return Failure(translation.error);
    }
    assert translation.value == Conjunction(walked.decls.domains, walked.stack[|walked.stack| - 1].text);
    var query := Query(t.defs, translation.value);
    r := Success(Some((query, t.varMap)));
    assert r == Assemble(walked);
  }
}
