/**
 * The model evaluator of the Grulia service (ModelGruliaExpressionEvaluator):
 * a post-order walk that evaluates an expression under a candidate model on a
 * stack of boxed Java `Integer`s and `Boolean`s and reports whether the root
 * is true.
 */
module Evaluation {
  import opened Wrappers
  import opened JavaLang
  import opened Ast

  /** A boxed stack entry. */
  datatype Value = IntValue(i: int) | BoolValue(b: bool)

  /** `postVisit(Variable)`: the model's int constant, else 0 (unbound, or bound to another kind of constant). */
  function VariableValue(m: Model, v: Variable): int
  {
    if v in m && m[v].IntC? then m[v].intValue else 0
  }

  /** The cast `(Integer) o`: null passes, a `Boolean` throws. */
  function AsInt(o: Option<Value>): Result<Option<int>, Fault>
  {
    match o
    case None => Success(None)
    case Some(IntValue(i)) => Success(Some(i))
    case Some(BoolValue(_)) => Failure(ClassCast)
  }

  /** The cast `(Boolean) o`: null passes, an `Integer` throws. */
  function AsBool(o: Option<Value>): Result<Option<bool>, Fault>
  {
    match o
    case None => Success(None)
    case Some(BoolValue(b)) => Success(Some(b))
    case Some(IntValue(_)) => Failure(ClassCast)
  }

  /** The integer cases of the switch, after both operands were cast: unboxing null throws. */
  function IntOperator(op: Operator, l: Option<int>, r: Option<int>): Result<Option<Value>, Fault>
  {
    if l.None? then Failure(NullPointer)
    // `left_i.equals(right_i)` is false for a null right operand
    else if op == Eq then Success(Some(BoolValue(r == Some(l.value))))
    else if op == Ne then Success(Some(BoolValue(r != Some(l.value))))
    else if r.None? then Failure(NullPointer)
    else
      var a := l.value;
      var b := r.value;
      match op
      case Le => Success(Some(BoolValue(a <= b)))
      case Lt => Success(Some(BoolValue(a < b)))
      case Ge => Success(Some(BoolValue(a >= b)))
      case Gt => Success(Some(BoolValue(a > b)))
      case Add | Sub | Mul | Mod =>
        (match Arith(op, a, b) case Success(v) => Success(Some(IntValue(v))) case Failure(f) => Failure(f))
      case _ => Success(None)
  }

  /** AND and OR after both casts: the left operand is unboxed first and may decide alone. */
  function BoolOperator(op: Operator, l: Option<bool>, r: Option<bool>): Result<Option<Value>, Fault>
  {
    if l.None? then Failure(NullPointer)
    else if op == And && !l.value then Success(Some(BoolValue(false)))
    else if op == Or && l.value then Success(Some(BoolValue(true)))
    else if r.None? then Failure(NullPointer)
    else Success(Some(BoolValue(r.value)))
  }

  predicate IsIntOperator(op: Operator)
  {
    IsRelational(op) || op == Add || op == Sub || op == Mul || op == Mod
  }

  /** The switch of `postVisit(Operation)`: the value pushed, or `None` when the default case pushes nothing. */
  function EvalOperator(op: Operator, l: Option<Value>, r: Option<Value>): (v: Result<Option<Value>, Fault>)
    ensures !IsIntOperator(op) && op != And && op != Or ==> v == Success(None)
    ensures v.Success? && v.value.Some? && v.value.value.BoolValue? ==>
      IsRelational(op) || op == And || op == Or
  {
    if IsIntOperator(op) then
      match AsInt(l)
      case Failure(f) => Failure(f)
      case Success(li) =>
        match AsInt(r)
        case Failure(f) => Failure(f)
        case Success(ri) => IntOperator(op, li, ri)
    else if op == And || op == Or then
      match AsBool(l)
      case Failure(f) => Failure(f)
      case Success(lb) =>
        match AsBool(r)
        case Failure(f) => Failure(f)
        case Success(rb) => BoolOperator(op, lb, rb)
    else Success(None)
  }

  /** Pops the top of the stack when there is one. */
  function Pop(stack: seq<Value>): (Option<Value>, seq<Value>)
  {
    if stack == [] then (None, stack) else (Some(stack[|stack| - 1]), stack[..|stack| - 1])
  }

  /** A binary operator pops its right then its left operand, a unary one its only operand. */
  function Operate(op: Operator, stack: seq<Value>): Result<seq<Value>, Fault>
  {
    var (r, st1) := if Arity(op) == 2 then Pop(stack) else (None, stack);
    var (l, st2) := if Arity(op) == 2 || Arity(op) == 1 then Pop(st1) else (None, st1);
    match EvalOperator(op, l, r)
    case Failure(f) => Failure(f)
    case Success(None) => Success(st2)
    case Success(Some(v)) => Success(st2 + [v])
  }

  /** The `postVisit` of one node, its operands already visited. */
  function PostVisit(e: Expr, m: Model, stack: seq<Value>): Result<seq<Value>, Fault>
  {
    match e
    case Var(v) => Success(stack + [IntValue(VariableValue(m, v))])
    case IntConst(c) => Success(stack + [IntValue(c)])
    case IntegerConst(_) => Success(stack)
    case RealConst(_) => Success(stack)
    case Unary(op, _) => Operate(op, stack)
    case Binary(op, _, _) => Operate(op, stack)
  }

  /** The post-order walk of `e` under model `m`; a thrown exception ends it. */
  function Walk(e: Expr, m: Model, stack: seq<Value>): Result<seq<Value>, Fault>
  {
    match e
    case Unary(_, x) =>
      (match Walk(x, m, stack)
       case Failure(f) => Failure(f)
       case Success(s1) => PostVisit(e, m, s1))
    case Binary(_, l, r) =>
      (match Walk(l, m, stack)
       case Failure(f) => Failure(f)
       case Success(s1) =>
         match Walk(r, m, s1)
         case Failure(f) => Failure(f)
         case Success(s2) => PostVisit(e, m, s2))
    case _ => PostVisit(e, m, stack)
  }

  /** `isSat()`: pops the top of the stack and casts it to `Boolean`. */
  function IsSatOf(stack: seq<Value>): Result<bool, Fault>
  {
    if stack == [] then Failure(EmptyStack)
    else match stack[|stack| - 1]
      case BoolValue(b) => Success(b)
      case IntValue(_) => Failure(ClassCast)
  }

  /** Whether model `m` satisfies `e`, as a fresh evaluator decides it. */
  function Satisfies(e: Expr, m: Model): Result<bool, Fault>
  {
    match Walk(e, m, [])
    case Failure(f) => Failure(f)
    case Success(st) => IsSatOf(st)
  }

  /** Integer terms of linear (and modular) integer arithmetic. */
  predicate IntTerm(e: Expr)
  {
    match e
    case Var(_) => true
    case IntConst(c) => IsInt(c)
    case Binary(op, l, r) => (op == Add || op == Sub || op == Mul || op == Mod) && IntTerm(l) && IntTerm(r)
    case _ => false
  }

  /** Comparisons of integer terms joined by AND and OR. */
  predicate BoolTerm(e: Expr)
  {
    match e
    case Binary(op, l, r) =>
      if IsRelational(op) then IntTerm(l) && IntTerm(r)
      else (op == And || op == Or) && BoolTerm(l) && BoolTerm(r)
    case _ => false
  }

  /** Java `int` arithmetic for the four arithmetic operators the evaluator knows. */
  function Arith(op: Operator, a: int, b: int): (r: Result<int, Fault>)
    requires op == Add || op == Sub || op == Mul || op == Mod
    ensures r.Failure? <==> op == Mod && b == 0
    ensures r.Success? && IsInt(a) && IsInt(b) ==> IsInt(r.value)
    ensures r.Success? && op == Mod ==> Abs(r.value) < Abs(b)
  {
    match op
    case Add => Success(WrapInt(a + b))
    case Sub => Success(WrapInt(a - b))
    case Mul => Success(WrapInt(a * b))
    case Mod => if b == 0 then Failure(Arithmetic) else Success(Rem(a, b))
  }

  /** The value of an integer term in Java `int` arithmetic, defined directly on the tree. */
  function Term(e: Expr, m: Model): Result<int, Fault>
    requires IntTerm(e)
  {
    match e
    case Var(v) => Success(VariableValue(m, v))
    case IntConst(c) => Success(c)
    case Binary(op, l, r) =>
      match Term(l, m)
      case Failure(f) => Failure(f)
      case Success(a) =>
        match Term(r, m)
        case Failure(f) => Failure(f)
        case Success(b) => Arith(op, a, b)
  }

  /** The truth of a formula, defined directly on the tree; only a remainder by zero can fail. */
  function Holds(e: Expr, m: Model): Result<bool, Fault>
    requires BoolTerm(e)
  {
    match e
    case Binary(op, l, r) =>
      if IsRelational(op) then
        match Term(l, m)
        case Failure(f) => Failure(f)
        case Success(a) =>
          match Term(r, m)
          case Failure(f) => Failure(f)
          case Success(b) => Success(Compares(op, a, b))
      else
        match Holds(l, m)
        case Failure(f) => Failure(f)
        case Success(a) =>
          match Holds(r, m)
          case Failure(f) => Failure(f)
          case Success(b) => Success(if op == And then a && b else a || b)
  }

  /** Every integer constant the model binds fits a Java `int`, as an `IntConstant` does. */
  predicate IntModel(m: Model)
  {
    forall v :: v in m && m[v].IntC? ==> IsInt(m[v].intValue)
  }

  lemma {:induction false} TermIsInt(e: Expr, m: Model)
    requires IntTerm(e) && IntModel(m) && Term(e, m).Success?
    ensures IsInt(Term(e, m).value)
  {
    match e
    case Var(v) =>
    case IntConst(_) =>
    case Binary(_, l, r) =>
      TermIsInt(l, m);
      TermIsInt(r, m);
  }

  /** One arithmetic or comparison step on two integers on top of the stack. */
  lemma OperateOnInts(op: Operator, st: seq<Value>, a: int, b: int)
    requires IsRelational(op) || op == Add || op == Sub || op == Mul || op == Mod
    ensures IsRelational(op) ==> Operate(op, st + [IntValue(a)] + [IntValue(b)]) == Success(st + [BoolValue(Compares(op, a, b))])
    ensures !IsRelational(op) && Arith(op, a, b).Success? ==>
      Operate(op, st + [IntValue(a)] + [IntValue(b)]) == Success(st + [IntValue(Arith(op, a, b).value)])
    ensures !IsRelational(op) && Arith(op, a, b).Failure? ==>
      Operate(op, st + [IntValue(a)] + [IntValue(b)]) == Failure(Arith(op, a, b).error)
  {
    assert Pop(st + [IntValue(a)] + [IntValue(b)]) == (Some(IntValue(b)), st + [IntValue(a)]);
    assert Pop(st + [IntValue(a)]) == (Some(IntValue(a)), st);
    if IsRelational(op) {
    } else if op == Mod {
    } else {
    }
  }

  /** One AND or OR step on two booleans on top of the stack. */
  lemma OperateOnBools(op: Operator, st: seq<Value>, a: bool, b: bool)
    requires op == And || op == Or
    ensures Operate(op, st + [BoolValue(a)] + [BoolValue(b)]) == Success(st + [BoolValue(if op == And then a && b else a || b)])
  {
    assert Pop(st + [BoolValue(a)] + [BoolValue(b)]) == (Some(BoolValue(b)), st + [BoolValue(a)]);
    assert Pop(st + [BoolValue(a)]) == (Some(BoolValue(a)), st);
  }

  /** The stack machine computes the reference value of an integer term. */
  lemma {:induction false} WalkComputesTerm(e: Expr, m: Model, st: seq<Value>)
    requires IntTerm(e)
    ensures Term(e, m).Success? ==> Walk(e, m, st) == Success(st + [IntValue(Term(e, m).value)])
    ensures Term(e, m).Failure? ==> Walk(e, m, st) == Failure(Term(e, m).error)
  {
    match e
    case Var(_) =>
    case IntConst(_) =>
    case Binary(op, l, r) =>
      WalkComputesTerm(l, m, st);
      if Term(l, m).Success? {
        var a := Term(l, m).value;
        WalkComputesTerm(r, m, st + [IntValue(a)]);
        if Term(r, m).Success? {
          OperateOnInts(op, st, a, Term(r, m).value);
        }
      }
  }

  /** The stack machine computes the reference truth of a formula. */
  lemma {:induction false} WalkComputesHolds(e: Expr, m: Model, st: seq<Value>)
    requires BoolTerm(e)
    ensures Holds(e, m).Success? ==> Walk(e, m, st) == Success(st + [BoolValue(Holds(e, m).value)])
    ensures Holds(e, m).Failure? ==> Walk(e, m, st) == Failure(Holds(e, m).error)
  {
    match e
    case Binary(op, l, r) =>
      if IsRelational(op) {
        WalkComputesTerm(l, m, st);
        if Term(l, m).Success? {
          var a := Term(l, m).value;
          WalkComputesTerm(r, m, st + [IntValue(a)]);
          if Term(r, m).Success? {
            OperateOnInts(op, st, a, Term(r, m).value);
          }
        }
      } else {
        WalkComputesHolds(l, m, st);
        if Holds(l, m).Success? {
          var a := Holds(l, m).value;
          WalkComputesHolds(r, m, st + [BoolValue(a)]);
          if Holds(r, m).Success? {
            OperateOnBools(op, st, a, Holds(r, m).value);
          }
        }
      }
  }

  /** A fresh evaluator decides a formula exactly as the reference semantics does. */
  lemma SatisfiesAgreesWithHolds(e: Expr, m: Model)
    requires BoolTerm(e)
    ensures Satisfies(e, m) == Holds(e, m)
  {
    WalkComputesHolds(e, m, []);
  }

  /** An integer term at the root is not a truth value: `isSat` throws ClassCastException. */
  lemma IntegerRootIsNotSat(e: Expr, m: Model)
    requires IntTerm(e) && Term(e, m).Success?
    ensures Satisfies(e, m) == Failure(ClassCast)
  {
    WalkComputesTerm(e, m, []);
  }

  /** ModelGruliaExpressionEvaluator. */
  class ExpressionEvaluator {
    var evalStack: seq<Value>
    const modelMap: Model

    constructor (modelMap: Model)
      ensures evalStack == [] && this.modelMap == modelMap
    {
      evalStack := [];
      this.modelMap := modelMap;
    }

    /** `isSat()`. */
    method IsSat() returns (r: Result<bool, Fault>)
      modifies this`evalStack
      ensures r == IsSatOf(old(evalStack))
      ensures evalStack == if old(evalStack) == [] then [] else old(evalStack)[..|old(evalStack)| - 1]
    {
      if evalStack == [] {
        return Failure(EmptyStack);
      }
      var top := evalStack[|evalStack| - 1];
      evalStack := evalStack[..|evalStack| - 1];
      match top
      case BoolValue(b) => r := Success(b);
      case IntValue(_) => r := Failure(ClassCast);
    }

    method PostVisitVariable(v: Variable)
      modifies this`evalStack
      ensures evalStack == PostVisit(Var(v), modelMap, old(evalStack)).value
    {
      var value := -1;
      if v !in modelMap {
        value := 0;
      } else if modelMap[v].IntC? {
        value := modelMap[v].intValue;
      } else {
        value := 0;
      }
      evalStack := evalStack + [IntValue(value)];
    }

    method PostVisitIntConstant(c: int)
      modifies this`evalStack
      ensures evalStack == PostVisit(IntConst(c), modelMap, old(evalStack)).value
    {
      evalStack := evalStack + [IntValue(c)];
    }

    method PostVisitOperation(op: Operator) returns (o: Outcome<Fault>)
      modifies this`evalStack
      ensures Operate(op, old(evalStack)).Success? ==> o == Pass && evalStack == Operate(op, old(evalStack)).value
      ensures Operate(op, old(evalStack)).Failure? ==> o == Fail(Operate(op, old(evalStack)).error)
    {
      var l: Option<Value> := None;
      var r: Option<Value> := None;
      if Arity(op) == 2 {
        if evalStack != [] {
          r := Some(evalStack[|evalStack| - 1]);
          evalStack := evalStack[..|evalStack| - 1];
        }
        if evalStack != [] {
          l := Some(evalStack[|evalStack| - 1]);
          evalStack := evalStack[..|evalStack| - 1];
        }
      } else if Arity(op) == 1 {
        if evalStack != [] {
          l := Some(evalStack[|evalStack| - 1]);
          evalStack := evalStack[..|evalStack| - 1];
        }
      }
      var v := EvalOperator(op, l, r);
      if v.Failure? {
        return Fail(v.error);
      }
      if v.value.Some? {
        evalStack := evalStack + [v.value.value];
      }
      o := Pass;
    }

    /** `expression.accept(evaluator)`: the post-order visit. */
    method Accept(e: Expr) returns (o: Outcome<Fault>)
      modifies this`evalStack
      ensures Walk(e, modelMap, old(evalStack)).Success? ==> o == Pass && evalStack == Walk(e, modelMap, old(evalStack)).value
      ensures Walk(e, modelMap, old(evalStack)).Failure? ==> o == Fail(Walk(e, modelMap, old(evalStack)).error)
      decreases e
    {
      match e
      case Var(v) =>
        PostVisitVariable(v);
        o := Pass;
      case IntConst(c) =>
        PostVisitIntConstant(c);
        o := Pass;
      case IntegerConst(_) =>
        o := Pass;
      case RealConst(_) =>
        o := Pass;
      case Unary(op, x) =>
        o := Accept(x);
        if o.Pass? {
          o := PostVisitOperation(op);
        }
      case Binary(op, l, r) =>
        o := Accept(l);
        if o.Pass? {
          o := Accept(r);
          if o.Pass? {
            o := PostVisitOperation(op);
          }
        }
    }
  }
}
