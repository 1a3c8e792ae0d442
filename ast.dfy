/**
 * The expression trees the services work on: variables with bounds, typed
 * constants, and unary or binary operations tagged with an operator.
 * Operation.java, Variable.java and the constant classes are not part of this
 * model; the operator list is the one the modelled switch statements name.
 */
module Ast {
  import opened JavaLang

  datatype Operator =
    | Eq | Ne | Lt | Le | Gt | Ge
    | And | Or | Implies | Not
    | Add | Sub | Mul | Div | Mod
    | BitAnd | BitOr | BitXor | ShiftL | ShiftR | ShiftUR
    | Sin | Cos | Tan | Asin | Acos | Atan | Atan2 | Round | Log | Exp | Power | Sqrt

  /** `Operator.getArity()`: the one-argument functions and NOT take one operand, the rest two. */
  function Arity(op: Operator): nat
  {
    match op
    case Not | Sin | Cos | Tan | Asin | Acos | Atan | Round | Log | Exp | Sqrt => 1
    case _ => 2
  }

  predicate IsRelational(op: Operator)
  {
    op == Eq || op == Ne || op == Lt || op == Le || op == Gt || op == Ge
  }

  /** Whether the comparison `op` holds between two integers. */
  predicate Compares(op: Operator, a: int, b: int)
    requires IsRelational(op)
  {
    match op
    case Eq => a == b
    case Ne => a != b
    case Lt => a < b
    case Le => a <= b
    case Gt => a > b
    case Ge => a >= b
  }

  /** A Java double, kept as its sign and the text `Double.toString` gives for its magnitude. */
  datatype RealLit = RealLit(negative: bool, magnitude: string)

  datatype Variable =
    | IntVar(name: string, lower: int, upper: int)       // IntVariable: Integer bounds
    | IntegerVar(name: string, lower: int, upper: int)   // IntegerVariable: Long bounds
    | RealVar(name: string, realLower: RealLit, realUpper: RealLit)

  datatype Expr =
    | Var(variable: Variable)
    | IntConst(value: int)           // IntConstant, a Java int
    | IntegerConst(value: int)       // IntegerConstant, a Java long
    | RealConst(literal: RealLit)    // RealConstant, a Java double
    | Unary(op: Operator, operand: Expr)
    | Binary(op: Operator, left: Expr, right: Expr)

  predicate WellFormedVariable(v: Variable)
  {
    match v
    case IntVar(_, lo, hi) => IsInt(lo) && IsInt(hi)
    case IntegerVar(_, lo, hi) => IsLong(lo) && IsLong(hi)
    case RealVar(_, _, _) => true
  }

  /** Every operation has as many operands as its arity, and every literal fits its Java type. */
  predicate WellFormed(e: Expr)
  {
    match e
    case Var(v) => WellFormedVariable(v)
    case IntConst(c) => IsInt(c)
    case IntegerConst(c) => IsLong(c)
    case RealConst(_) => true
    case Unary(op, x) => Arity(op) == 1 && WellFormed(x)
    case Binary(op, l, r) => Arity(op) == 2 && WellFormed(l) && WellFormed(r)
  }

  /** The constants a model binds variables to. */
  datatype Constant = IntC(intValue: int) | IntegerC(longValue: int) | RealC(realValue: RealLit)

  /** A model, `Map<Variable, Object>` in the source, whose values are constants. */
  type Model = map<Variable, Constant>

  /** The variable occurrences of `e` in the order a post-order visit meets them. */
  function Vars(e: Expr): seq<Variable>
  {
    match e
    case Var(v) => [v]
    case Unary(_, x) => Vars(x)
    case Binary(_, l, r) => Vars(l) + Vars(r)
    case _ => []
  }

  /** The variables of `vs` that are not in `seen`, each once, in order of first occurrence. */
  function FirstOccurrences(vs: seq<Variable>, seen: set<Variable>): (r: seq<Variable>)
    ensures forall k :: 0 <= k < |r| ==> r[k] in vs && r[k] !in seen
    ensures forall j, k :: 0 <= j < k < |r| ==> r[j] != r[k]
    ensures forall v :: v in vs && v !in seen ==> v in r
  {
    if vs == [] then []
    else if vs[0] in seen then FirstOccurrences(vs[1..], seen)
    else [vs[0]] + FirstOccurrences(vs[1..], seen + {vs[0]})
  }

  lemma {:induction false} FirstOccurrencesAppend(a: seq<Variable>, b: seq<Variable>, seen: set<Variable>)
    ensures FirstOccurrences(a + b, seen) == FirstOccurrences(a, seen) + FirstOccurrences(b, seen + set v | v in a)
  {
    if a == [] {
      assert a + b == b;
      assert (set v | v in a) == {};
      assert seen + {} == seen;
    } else {
      assert (a + b)[1..] == a[1..] + b;
      var seen' := if a[0] in seen then seen else seen + {a[0]};
      FirstOccurrencesAppend(a[1..], b, seen');
      assert seen' + (set v | v in a[1..]) == seen + (set v | v in a);
    }
  }
}
