/**
 * ModelSMTLIBBitVectorService: the same visitor as ModelSMTLIBService, with
 * integer variables declared as 64-bit vectors and real ones as 64-bit
 * floats (the FixedSizeBitVectors and FloatingPoint theories of SMT-LIB
 * 2.6). The operator symbols are chosen by `setBVOperator` and
 * `setFPOperator`, but `postVisit(Operation)` never calls them: it writes
 * the operands and a closing parenthesis only, so every rendered operation
 * other than NE lacks its opening parenthesis and its operator.
 */
module SmtLibBv {
  import opened Wrappers
  import opened JavaLang
  import opened Ast
  import opened SmtTerms

  /** `transformNegative(long)`: a negative value as `(bvneg n)`, any other as its decimal numeral. */
  function TransformNegative(v: int): string
  {
    SignedNumeral("(bvneg ", v)
  }

  /** The term `TransformNegative` writes, read back. */
  function ReadNumeral(s: string): Option<int>
  {
    ReadSigned("(bvneg ", s)
  }

  /** Every `long` but Long.MIN_VALUE becomes a term that reads back as itself. */
  lemma NumeralRoundTrip(v: int)
    requires IsLong(v) && v != LONG_MIN
    ensures ReadNumeral(TransformNegative(v)) == Some(v)
  {
    SignedNumeralRoundTrip("(bvneg ", v);
  }

  /** `-v` overflows for Long.MIN_VALUE, which becomes `(bvneg -9223372036854775808)`. */
  lemma MinValueIsNoNumeral(v: int)
    requires v == LONG_MIN
    ensures TransformNegative(v) == "(bvneg " + "-" + NatToDecimal(-v) + ")"
    ensures ReadNumeral(TransformNegative(v)) == None
  {
    SignedNumeralMinValue("(bvneg ", v);
  }

  /** `transformNegative(double)`: a negative value as `(fp.neg m)`. */
  function RealText(lit: RealLit): string
  {
    if lit.negative then Apply1("fp.neg", lit.magnitude) else lit.magnitude
  }

  function Tag(v: Variable): TypeTag
  {
    match v
    case IntVar(_, _, _) => IntTag
    case IntegerVar(_, _, _) => IntegerTag
    case RealVar(_, _, _) => RealTag
  }

  /** `(_ BitVec 64)` for the integer variables, `(_ Float64)` for the real ones. */
  function Sort(v: Variable): string
  {
    if v.RealVar? then Apply1("_", "Float64") else Apply2("_", "BitVec", "64")
  }

  /** `(declare-fun n () (_ BitVec 64))` or `(declare-fun n () (_ Float64))`. */
  function Declaration(v: Variable): string
  {
    Apply2("declare-fun", v.name, ConstantSignature(Sort(v)))
  }

  /** `(and (bvsge n lo) (bvsle n hi))`, or with `fp.geq` and `fp.leq` for a real variable. */
  function Domain(v: Variable): string
  {
    match v
    case IntVar(n, lo, hi) => Apply2("and", Apply2("bvsge", n, TransformNegative(lo)), Apply2("bvsle", n, TransformNegative(hi)))
    case IntegerVar(n, lo, hi) => Apply2("and", Apply2("bvsge", n, TransformNegative(lo)), Apply2("bvsle", n, TransformNegative(hi)))
    case RealVar(n, lo, hi) => Apply2("and", Apply2("fp.geq", n, RealText(lo)), Apply2("fp.leq", n, RealText(hi)))
  }

  function VisitVariable(st: TState, v: Variable): TState
  {
    TState(st.stack + [Pair(v.name, Tag(v))], Declare(st.decls, v, Declaration(v), Domain(v)))
  }

  /** Real when either operand is real, IntVariable otherwise. */
  function Widest(a: TypeTag, b: TypeTag): TypeTag
  {
    if a == RealTag || b == RealTag then RealTag else IntTag
  }

  /** `superType(left, right)`: as in ModelSMTLIBService, but the default is IntVariable. */
  function SuperType(l: Option<Pair>, r: Option<Pair>): (t: Result<TypeTag, Fault>)
    ensures l.Some? && r.Some? ==> t == Success(Widest(l.value.tag, r.value.tag))
    ensures t.Success? ==> t.value != IntegerTag
    ensures t.Failure? <==> l.None? || (r.None? && l.value.tag != RealTag)
    ensures t.Failure? ==> t.error == NullPointer
  {
    if l.None? then Failure(NullPointer)
    else if l.value.tag == RealTag then Success(RealTag)
    else if r.None? then Failure(NullPointer)
    else Success(Widest(l.value.tag, r.value.tag))
  }

  /** A term converted to the tag `t`: unchanged when it has it, under `(_ to_fp 11 53 RNE ...)` otherwise. */
  function Adjusted(p: Pair, t: TypeTag): string
  {
    if p.tag == t then p.text else Apply1("_ to_fp 11 53 RNE", p.text)
  }

  function Adjust(p: Option<Pair>, t: TypeTag): Result<string, Fault>
  {
    if p.None? then Failure(NullPointer) else Success(Adjusted(p.value, t))
  }

  /** `setBVOperator(op)`: the bit-vector symbol of `op`; NE and the numeric functions have none. */
  function SetBVOperator(op: Operator): (r: Result<string, Fault>)
    ensures r.Success? <==> !(op == Ne || (Arity(op) == 1 && op != Not) || op == Atan2 || op == Power)
    ensures r.Failure? ==> r.error == UnsupportedOperation
  {
    match op
    case Eq => Success("=")
    case Lt => Success("bvslt")
    case Le => Success("bvsle")
    case Gt => Success("bvsgt")
    case Ge => Success("bvsge")
    case Not => Success("not")
    case And => Success("and")
    case Or => Success("or")
    case Implies => Success("=>")
    case Add => Success("bvadd")
    case Sub => Success("bvsub")
    case Mul => Success("bvmul")
    case Div => Success("bvsdiv")
    case Mod => Success("bvsmod")
    case BitAnd => Success("bvand")
    case BitOr => Success("bvor")
    case BitXor => Success("bvxor")
    case ShiftL => Success("bvshl")
    case ShiftR => Success("bvashr")
    case ShiftUR => Success("bvshr")
    case _ => Failure(UnsupportedOperation)
  }

  /** The operators `setFPOperator` has a symbol for: the comparisons but NE, the connectives, arithmetic and SQRT. */
  predicate HasFPSymbol(op: Operator)
  {
    op == Eq || op == Lt || op == Le || op == Gt || op == Ge || op == Not || op == And || op == Or
    || op == Implies || op == Add || op == Sub || op == Mul || op == Div || op == Mod || op == Sqrt
  }

  /** `setFPOperator(op)`: the floating-point symbol of `op`. */
  function SetFPOperator(op: Operator): (r: Result<string, Fault>)
    ensures r.Success? <==> HasFPSymbol(op)
    ensures r.Failure? ==> r.error == UnsupportedOperation
  {
    match op
    case Eq => Success("fp.eq")
    case Lt => Success("fp.lt")
    case Le => Success("fp.leq")
    case Gt => Success("fp.gt")
    case Ge => Success("fp.geq")
    case Not => Success("not")
    case And => Success("and")
    case Or => Success("or")
    case Implies => Success("=>")
    case Add => Success("fp.add")
    case Sub => Success("fp.sub")
    case Mul => Success("fp.mul")
    case Div => Success("fp.div")
    case Mod => Success("fp.mod")
    case Sqrt => Success("fp.sqrt")
    case _ => Failure(UnsupportedOperation)
  }

  /** The operator a bit-vector symbol stands for. */
  function BVSymbolOperator(sym: string): Option<Operator>
  {
    match sym
    case "=" => Some(Eq)
    case "bvslt" => Some(Lt)
    case "bvsle" => Some(Le)
    case "bvsgt" => Some(Gt)
    case "bvsge" => Some(Ge)
    case "not" => Some(Not)
    case "and" => Some(And)
    case "or" => Some(Or)
    case "=>" => Some(Implies)
    case "bvadd" => Some(Add)
    case "bvsub" => Some(Sub)
    case "bvmul" => Some(Mul)
    case "bvsdiv" => Some(Div)
    case "bvsmod" => Some(Mod)
    case "bvand" => Some(BitAnd)
    case "bvor" => Some(BitOr)
    case "bvxor" => Some(BitXor)
    case "bvshl" => Some(ShiftL)
    case "bvashr" => Some(ShiftR)
    case "bvshr" => Some(ShiftUR)
    case _ => None
  }

  /** The operator a floating-point symbol stands for. */
  function FPSymbolOperator(sym: string): Option<Operator>
  {
    match sym
    case "fp.eq" => Some(Eq)
    case "fp.lt" => Some(Lt)
    case "fp.leq" => Some(Le)
    case "fp.gt" => Some(Gt)
    case "fp.geq" => Some(Ge)
    case "not" => Some(Not)
    case "and" => Some(And)
    case "or" => Some(Or)
    case "=>" => Some(Implies)
    case "fp.add" => Some(Add)
    case "fp.sub" => Some(Sub)
    case "fp.mul" => Some(Mul)
    case "fp.div" => Some(Div)
    case "fp.mod" => Some(Mod)
    case "fp.sqrt" => Some(Sqrt)
    case _ => None
  }

  /** No two operators share a bit-vector symbol. */
  lemma BVSymbolRoundTrip(op: Operator)
    requires SetBVOperator(op).Success?
    ensures BVSymbolOperator(SetBVOperator(op).value) == Some(op)
  {
  }

  /** No two operators share a floating-point symbol. */
  lemma FPSymbolRoundTrip(op: Operator)
    requires HasFPSymbol(op)
    ensures FPSymbolOperator(SetFPOperator(op).value) == Some(op)
  {
  }

  /** What `postVisit(Operation)` pushes for two operands: `(not (= a b))` for NE, `a b)` for any other operator. */
  function Combine(op: Operator, a: Pair, b: Pair): Pair
  {
    var t := Widest(a.tag, b.tag);
    var x, y := Adjusted(a, t), Adjusted(b, t);
    if op == Ne then Pair(Apply1("not", Apply2("=", x, y)), t) else Pair(x + " " + y + ")", t)
  }

  /** What it pushes for one operand: `a)`, tagged IntVariable. */
  function Close(a: Pair): Pair
  {
    Pair(Adjusted(a, IntTag) + ")", IntTag)
  }

  /**
   * `postVisit(Operation)`: pop the right then the left operand, take the
   * super type, adjust both; a one-operand operator pops one and adjusts it
   * to IntVariable. No operator symbol is written.
   */
  function Operate(op: Operator, stack: seq<Pair>): Result<seq<Pair>, Fault>
  {
    if Arity(op) == 2 then
      var (r, st1) := Pop(stack);
      var (l, st2) := Pop(st1);
      match SuperType(l, r)
      case Failure(f) => Failure(f)
      case Success(t) =>
        match Adjust(l, t)
        case Failure(f) => Failure(f)
        case Success(x) =>
          match Adjust(r, t)
          case Failure(f) => Failure(f)
          case Success(y) =>
            if op == Ne then Success(st2 + [Pair(Apply1("not", Apply2("=", x, y)), t)])
            else Success(st2 + [Pair(x + " " + y + ")", t)])
    else
      var (l, st1) := Pop(stack);
      match Adjust(l, IntTag)
      case Failure(f) => Failure(f)
      case Success(x) => Success(st1 + [Pair(x + ")", IntTag)])
  }

  function PostVisit(e: Expr, st: TState): Result<TState, Fault>
  {
    match e
    case Var(v) => Success(VisitVariable(st, v))
    case IntConst(c) => Success(st.(stack := st.stack + [Pair(TransformNegative(c), IntTag)]))
    case IntegerConst(c) => Success(st.(stack := st.stack + [Pair(TransformNegative(c), IntegerTag)]))
    case RealConst(lit) => Success(st.(stack := st.stack + [Pair(RealText(lit), RealTag)]))
    case Unary(op, _) =>
      (match Operate(op, st.stack) case Success(s) => Success(st.(stack := s)) case Failure(f) => Failure(f))
    case Binary(op, _, _) =>
      (match Operate(op, st.stack) case Success(s) => Success(st.(stack := s)) case Failure(f) => Failure(f))
  }

  function Walk(e: Expr, st: TState): Result<TState, Fault>
  {
    match e
    case Unary(_, x) =>
      (match Walk(x, st)
       case Failure(f) => Failure(f)
       case Success(s1) => PostVisit(e, s1))
    case Binary(_, l, r) =>
      (match Walk(l, st)
       case Failure(f) => Failure(f)
       case Success(s1) =>
         match Walk(r, s1)
         case Failure(f) => Failure(f)
         case Success(s2) => PostVisit(e, s2))
    case _ => PostVisit(e, st)
  }

  /** The term the translator renders for `e`, defined by recursion on the tree. */
  function Render(e: Expr): Pair
  {
    match e
    case Var(v) => Pair(v.name, Tag(v))
    case IntConst(c) => Pair(TransformNegative(c), IntTag)
    case IntegerConst(c) => Pair(TransformNegative(c), IntegerTag)
    case RealConst(lit) => Pair(RealText(lit), RealTag)
    case Unary(_, x) => Close(Render(x))
    case Binary(op, l, r) => Combine(op, Render(l), Render(r))
  }

  lemma OperateBinary(op: Operator, stack: seq<Pair>, a: Pair, b: Pair)
    requires Arity(op) == 2
    ensures Operate(op, stack + [a] + [b]) == Success(stack + [Combine(op, a, b)])
  {
    assert Pop(stack + [a] + [b]) == (Some(b), stack + [a]);
    assert Pop(stack + [a]) == (Some(a), stack);
  }

  lemma OperateUnary(op: Operator, stack: seq<Pair>, a: Pair)
    requires Arity(op) == 1
    ensures Operate(op, stack + [a]) == Success(stack + [Close(a)])
  {
    assert Pop(stack + [a]) == (Some(a), stack);
  }

  function DeclareVars(d: Declarations, vs: seq<Variable>): Declarations
  {
    DeclareAll(d, vs, Declaration, Domain)
  }

  /**
   * With no symbol to look up, the translator never throws on a well-formed
   * tree: the walk pushes `Render(e)` and declares the variables of `e`.
   */
  lemma {:induction false} WalkRenders(e: Expr, st: TState)
    requires WellFormed(e)
    ensures Walk(e, st) == Success(TState(st.stack + [Render(e)], DeclareVars(st.decls, Vars(e))))
  {
    match e
    case Var(v) =>
      DeclareOne(st.decls, v, Declaration, Domain);
    case IntConst(_) =>
    case IntegerConst(_) =>
    case RealConst(_) =>
    case Unary(op, x) =>
      WalkRenders(x, st);
      OperateUnary(op, st.stack, Render(x));
    case Binary(op, l, r) =>
      WalkRenders(l, st);
      var s1 := TState(st.stack + [Render(l)], DeclareVars(st.decls, Vars(l)));
      WalkRenders(r, s1);
      OperateBinary(op, st.stack, Render(l), Render(r));
      DeclareAllAppend(st.decls, Vars(l), Vars(r), Declaration, Domain);
  }

  /** What `model` hands to `solve0`: the query and the variable map, `None` when the translation is refused. */
  function ModelRequest(e: Expr): Result<Option<(string, map<Variable, string>)>, Fault>
  {
    match Walk(e, Fresh)
    case Failure(UnsupportedOperation) => Success(None)
    case Failure(f) => Failure(f)
    case Success(s) => Assemble(s)
  }

  /**
   * Every well-formed expression reaches `solve0`, with one declaration and
   * one domain constraint per distinct variable and the rendering of `e`.
   */
  lemma ModelRequestOfTree(e: Expr)
    requires WellFormed(e)
    ensures ModelRequest(e).Success? && ModelRequest(e).value.Some?
    ensures var firsts := FirstOccurrences(Vars(e), {});
      var (query, varMap) := ModelRequest(e).value.value;
      && query == Query(Each(firsts, Declaration), Conjunction(Each(firsts, Domain), Render(e).text))
      && varMap.Keys == (set v | v in Vars(e))
      && (forall v :: v in Vars(e) ==> varMap[v] == v.name)
  {
    WalkRenders(e, Fresh);
    assert Fresh.stack + [Render(e)] == [Render(e)];
    DeclareFromNothing(Vars(e), Declaration, Domain);
  }

  /** The rendering of an operation other than NE does not depend on its operator. */
  lemma RenderIgnoresOperator(op1: Operator, op2: Operator, l: Expr, r: Expr)
    requires op1 != Ne && op2 != Ne
    ensures Render(Binary(op1, l, r)) == Render(Binary(op2, l, r))
    ensures Render(Unary(op1, l)) == Render(Unary(op2, l))
  {
  }

  /**
   * So `solve0` receives the same query for `l < r` as for `l > r`, or for
   * any two operators of the same arity other than NE.
   */
  lemma QueryIgnoresOperator(op1: Operator, op2: Operator, l: Expr, r: Expr)
    requires op1 != Ne && op2 != Ne && Arity(op1) == Arity(op2) == 2
    requires WellFormed(l) && WellFormed(r)
    ensures ModelRequest(Binary(op1, l, r)) == ModelRequest(Binary(op2, l, r))
  {
    var e1, e2 := Binary(op1, l, r), Binary(op2, l, r);
    WalkRenders(e1, Fresh);
    WalkRenders(e2, Fresh);
    RenderIgnoresOperator(op1, op2, l, r);
    assert Walk(e1, Fresh) == Walk(e2, Fresh);
  }

  /** The operation nodes rendered without their opening parenthesis: all but NE. */
  function Unopened(e: Expr): nat
  {
    match e
    case Unary(_, x) => 1 + Unopened(x)
    case Binary(op, l, r) => (if op == Ne then 0 else 1) + Unopened(l) + Unopened(r)
    case _ => 0
  }

  /** A closing parenthesis lowers the depth by one. */
  lemma CloseDepth(s: string)
    ensures Depth(s + ")") == Depth(s) - 1
  {
    DepthAppend(s, ")");
    assert ")"[..0] == [];
  }

  lemma AdjustedDepth(p: Pair, t: TypeTag)
    ensures Depth(Adjusted(p, t)) == Depth(p.text)
  {
    if p.tag != t {
      Apply1Depth("_ to_fp 11 53 RNE", p.text);
    }
  }

  lemma NumeralDepth(v: int)
    ensures Depth(TransformNegative(v)) == 0
  {
    OpenerDepth("(bvneg ");
    SignedNumeralDepth("(bvneg ", v);
  }

  lemma RealTextDepth(lit: RealLit)
    requires ParenFree(lit.magnitude)
    ensures Depth(RealText(lit)) == 0
  {
    ParenFreeDepth(lit.magnitude);
    if lit.negative {
      Apply1Depth("fp.neg", lit.magnitude);
    }
  }

  lemma LeafDepth(e: Expr)
    requires Plain(e) && !e.Unary? && !e.Binary?
    ensures Depth(Render(e).text) == 0
  {
    match e
    case Var(v) => ParenFreeDepth(v.name);
    case IntConst(c) => NumeralDepth(c);
    case IntegerConst(c) => NumeralDepth(c);
    case RealConst(lit) => RealTextDepth(lit);
  }

  lemma CombineDepth(op: Operator, a: Pair, b: Pair)
    ensures Depth(Combine(op, a, b).text) == Depth(a.text) + Depth(b.text) - (if op == Ne then 0 else 1)
  {
    var t := Widest(a.tag, b.tag);
    var x, y := Adjusted(a, t), Adjusted(b, t);
    AdjustedDepth(a, t);
    AdjustedDepth(b, t);
    if op == Ne {
      Apply2Depth("=", x, y);
      Apply1Depth("not", Apply2("=", x, y));
    } else {
      LeadDepth(" ", y);
      DepthAppend(x, " " + y);
      assert x + " " + y == x + (" " + y);
      CloseDepth(x + " " + y);
    }
  }

  lemma CloseDepthOf(a: Pair)
    ensures Depth(Close(a).text) == Depth(a.text) - 1
  {
    AdjustedDepth(a, IntTag);
    CloseDepth(Adjusted(a, IntTag));
  }

  /**
   * Each operation other than NE leaves one parenthesis unopened: over plain
   * variables and literals, the rendering closes exactly `Unopened(e)` more
   * parentheses than it opens.
   */
  lemma {:induction false} RenderDepth(e: Expr)
    requires Plain(e)
    ensures Depth(Render(e).text) == -(Unopened(e) as int)
  {
    match e
    case Unary(_, x) =>
      RenderDepth(x);
      CloseDepthOf(Render(x));
    case Binary(op, l, r) =>
      RenderDepth(l);
      RenderDepth(r);
      CombineDepth(op, Render(l), Render(r));
    case _ =>
      LeafDepth(e);
  }

  /** The sorts are balanced. */
  lemma SortDepth(v: Variable)
    ensures Depth(Sort(v)) == 0
  {
    if v.RealVar? {
      ParenFreeDepth("Float64");
      Apply1Depth("_", "Float64");
    } else {
      ParenFreeDepth("BitVec");
      ParenFreeDepth("64");
      Apply2Depth("_", "BitVec", "64");
    }
  }

  lemma DeclarationDepth(v: Variable)
    requires ParenFree(v.name)
    ensures Depth(Declaration(v)) == 0
  {
    SortDepth(v);
    ConstantSignatureDepth(Sort(v));
    ParenFreeDepth(v.name);
    Apply2Depth("declare-fun", v.name, ConstantSignature(Sort(v)));
  }

  /** `(and (lower n lo) (upper n hi))` is balanced when its name and bounds are. */
  lemma BoundsDepth(lower: string, upper: string, n: string, lo: string, hi: string)
    requires ParenFree(lower) && ParenFree(upper) && ParenFree(n) && Depth(lo) == 0 && Depth(hi) == 0
    ensures Depth(Apply2("and", Apply2(lower, n, lo), Apply2(upper, n, hi))) == 0
  {
    ParenFreeDepth(n);
    Apply2Depth(lower, n, lo);
    Apply2Depth(upper, n, hi);
    Apply2Depth("and", Apply2(lower, n, lo), Apply2(upper, n, hi));
  }

  /** The domain constraint of an integer variable is balanced. */
  lemma NumeralBoundsDepth(n: string, lo: int, hi: int)
    requires ParenFree(n)
    ensures Depth(Apply2("and", Apply2("bvsge", n, TransformNegative(lo)), Apply2("bvsle", n, TransformNegative(hi)))) == 0
  {
    NumeralDepth(lo);
    NumeralDepth(hi);
    BoundsDepth("bvsge", "bvsle", n, TransformNegative(lo), TransformNegative(hi));
  }

  /** The domain constraint of a real variable is balanced. */
  lemma RealBoundsDepth(n: string, lo: RealLit, hi: RealLit)
    requires ParenFree(n) && ParenFree(lo.magnitude) && ParenFree(hi.magnitude)
    ensures Depth(Apply2("and", Apply2("fp.geq", n, RealText(lo)), Apply2("fp.leq", n, RealText(hi)))) == 0
  {
    RealTextDepth(lo);
    RealTextDepth(hi);
    BoundsDepth("fp.geq", "fp.leq", n, RealText(lo), RealText(hi));
  }

  lemma DomainDepth(v: Variable)
    requires PlainVariable(v)
    ensures Depth(Domain(v)) == 0
  {
    match v
    case RealVar(n, lo, hi) => RealBoundsDepth(n, lo, hi);
    case IntVar(n, lo, hi) => NumeralBoundsDepth(n, lo, hi);
    case IntegerVar(n, lo, hi) => NumeralBoundsDepth(n, lo, hi);
  }

  lemma VariableDepth(v: Variable)
    requires PlainVariable(v)
    ensures Depth(Declaration(v)) == 0 && Depth(Domain(v)) == 0
  {
    DeclarationDepth(v);
    DomainDepth(v);
  }

  lemma DeclarationsDepth(vs: seq<Variable>)
    requires forall v :: v in vs ==> PlainVariable(v)
    ensures forall k :: 0 <= k < |Each(vs, Declaration)| ==> Depth(Each(vs, Declaration)[k]) == 0
    ensures forall k :: 0 <= k < |Each(vs, Domain)| ==> Depth(Each(vs, Domain)[k]) == 0
  {
    EachAt(vs, Declaration);
    EachAt(vs, Domain);
    forall k | 0 <= k < |vs|
      ensures Depth(Declaration(vs[k])) == 0 && Depth(Domain(vs[k])) == 0
    {
      VariableDepth(vs[k]);
    }
  }

  /**
   * Over plain variables and literals, the query closes `Unopened(e)` more
   * parentheses than it opens: any operation other than NE makes it
   * malformed SMT-LIB.
   */
  lemma QueryUnbalanced(e: Expr)
    requires WellFormed(e) && Plain(e)
    ensures ModelRequest(e).Success? && ModelRequest(e).value.Some?
    ensures Depth(ModelRequest(e).value.value.0) == -(Unopened(e) as int)
  {
    ModelRequestOfTree(e);
    var firsts := FirstOccurrences(Vars(e), {});
    PlainVars(e);
    DeclarationsDepth(firsts);
    RenderDepth(e);
    ConjunctionDepth(Each(firsts, Domain), Render(e).text);
    QueryDepth(Each(firsts, Declaration), Conjunction(Each(firsts, Domain), Render(e).text));
  }

  /**
   * `superType` defaults to IntVariable, so an IntegerVariable operand is
   * converted to a float even when no real occurs.
   */
  lemma IntegerTermsGoThroughToFp(v: Variable, c: int)
    requires v.IntegerVar?
    ensures Render(Binary(Lt, Var(v), IntConst(c))).text
      == Apply1("_ to_fp 11 53 RNE", v.name) + " " + TransformNegative(c) + ")"
  {
  }

  /** ModelSMTLIBBitVectorService.Translator. */
  class Translator {
    var stack: seq<Pair>
    var varMap: map<Variable, string>
    var defs: seq<string>
    var domains: seq<string>

    function State(): TState
      reads this
    {
      TState(stack, Declarations(varMap, defs, domains))
    }

    constructor ()
      ensures State() == Fresh
    {
      stack := [];
      varMap := map[];
      defs := [];
      domains := [];
    }

    method PostVisitIntConstant(c: int)
      modifies this`stack
      ensures State() == PostVisit(IntConst(c), old(State())).value
    {
      stack := stack + [Pair(TransformNegative(c), IntTag)];
    }

    method PostVisitIntegerConstant(c: int)
      modifies this`stack
      ensures State() == PostVisit(IntegerConst(c), old(State())).value
    {
      stack := stack + [Pair(TransformNegative(c), IntegerTag)];
    }

    method PostVisitRealConstant(lit: RealLit)
      modifies this`stack
      ensures State() == PostVisit(RealConst(lit), old(State())).value
    {
      stack := stack + [Pair(RealText(lit), RealTag)];
    }

    method PostVisitVariable(v: Variable)
      modifies this
      ensures State() == PostVisit(Var(v), old(State())).value
    {
      if v !in varMap {
        defs := defs + [Declaration(v)];
        domains := domains + [Domain(v)];
        varMap := varMap[v := v.name];
      }
      stack := stack + [Pair(v.name, Tag(v))];
    }

    /** `postVisit(Operation)`. */
    method PostVisitOperation(op: Operator) returns (o: Outcome<Fault>)
      modifies this`stack
      ensures Operate(op, old(stack)).Success? ==> o == Pass && stack == Operate(op, old(stack)).value
      ensures Operate(op, old(stack)).Failure? ==> o == Fail(Operate(op, old(stack)).error)
    {
      var l: Option<Pair> := None;
      var r: Option<Pair> := None;
      if Arity(op) == 2 {
        if stack != [] {
          r := Some(stack[|stack| - 1]);
          stack := stack[..|stack| - 1];
        }
        if stack != [] {
          l := Some(stack[|stack| - 1]);
          stack := stack[..|stack| - 1];
        }
        var t := SuperType(l, r);
        if t.Failure? {
          return Fail(t.error);
        }
        var x := Adjust(l, t.value);  // neither operand is null once `superType` has returned
        var y := Adjust(r, t.value);
        if op == Ne {
          stack := stack + [Pair(Apply1("not", Apply2("=", x.value, y.value)), t.value)];
        } else {
          stack := stack + [Pair(x.value + " " + y.value + ")", t.value)];
        }
      } else {
        if stack != [] {
          l := Some(stack[|stack| - 1]);
          stack := stack[..|stack| - 1];
        }
        var x := Adjust(l, IntTag);
        if x.Failure? {
          return Fail(x.error);
        }
        stack := stack + [Pair(x.value + ")", IntTag)];
      }
      o := Pass;
    }

    method Accept(e: Expr) returns (o: Outcome<Fault>)
      modifies this
      ensures Walk(e, old(State())).Success? ==> o == Pass && State() == Walk(e, old(State())).value
      ensures Walk(e, old(State())).Failure? ==> o == Fail(Walk(e, old(State())).error)
      decreases e
    {
      match e
      case Var(v) =>
        PostVisitVariable(v);
        o := Pass;
      case IntConst(c) =>
        PostVisitIntConstant(c);
        o := Pass;
      case IntegerConst(c) =>
        PostVisitIntegerConstant(c);
        o := Pass;
      case RealConst(lit) =>
        PostVisitRealConstant(lit);
        o := Pass;
      case Unary(op, x) =>
        o := Accept(x);
        if o.Pass? {
          o := PostVisitOperation(op);
        }
      case Binary(op, l, r) =>
        o := Accept(l);
        if o.Pass? {
          o := Accept(r);
          if o.Pass? {
            o := PostVisitOperation(op);
          }
        }
    }

    method GetTranslation() returns (r: Result<string, Fault>)
      modifies this`stack
      ensures old(stack) == [] ==> r == Failure(EmptyStack) && stack == old(stack)
      ensures old(stack) != [] ==>
        && r == Success(Conjunction(domains, old(stack)[|old(stack)| - 1].text))
        && stack == old(stack)[..|old(stack)| - 1]
    {
      if stack == [] {
        return Failure(EmptyStack);
      }
      var top := stack[|stack| - 1];
      stack := stack[..|stack| - 1];
      var s := Conjoin(domains, top.text);
      r := Success(s);
    }
  }

  /** `model(instance)`. */
  method Model(e: Expr) returns (r: Result<Option<(string, map<Variable, string>)>, Fault>)
    ensures r == ModelRequest(e)
  {
    var t := new Translator();
    var o := t.Accept(e);
    if o.Fail? {
      if o.error == UnsupportedOperation {
        return Success(None);
      }
      return Failure(o.error);
    }
    ghost var walked := t.State();
    assert Walk(e, Fresh) == Success(walked);
    var translation := t.GetTranslation();
    if translation.Failure? {
      return Failure(translation.error);
    }
    assert translation.value == Conjunction(walked.decls.domains, walked.stack[|walked.stack| - 1].text);
    var query := Query(t.defs, translation.value);
    r := Success(Some((query, t.varMap)));
    assert r == Assemble(walked);
  }
}
