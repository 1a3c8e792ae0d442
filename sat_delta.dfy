/**
 * The sat-delta visitor of the Grulia service (ModelGruliaVisitor): a
 * post-order walk over an expression that binds every variable to one
 * reference value and keeps a stack of Java `int`s, combining the top two at
 * every binary operation into a distance from satisfaction.
 */
module SatDelta {
  import opened Wrappers
  import opened JavaLang
  import opened Ast

  /** The operators `calculateSatDelta` has a case for. */
  predicate HasDelta(op: Operator)
  {
    op == Or || op == And || op == Add || op == Sub || op == Mul || op == Mod || IsRelational(op)
  }

  /** The operations whose difference never overflows a Java `int`, not even after adding one. */
  predicate NoOverflow(a: int, b: int)
  {
    IsInt(a) && IsInt(b) && Abs(a - b) < INT_MAX
  }

  /**
   * The switch of `calculateSatDelta`: the value pushed for operator `op`
   * given the popped operands (`None`: the stack was empty, so the operand is
   * null and unboxing it throws).
   */
  function OperatorDelta(op: Operator, l: Option<int>, r: Option<int>): Result<int, Fault>
  {
    if !HasDelta(op) then Success(0)
    else if l.None? then Failure(NullPointer)
    else if op == Ne then
      Success(if r == Some(l.value) then 1 else 0)
    else if r.None? then Failure(NullPointer)
    else
      var a := l.value;
      var b := r.value;
      match op
      case Or => Success(MinInt(a, b))
      case And => Success(WrapInt(a + b))
      case Add => Success(WrapInt(a + b))
      case Lt => Success(if a >= b then WrapInt(WrapInt(a - b) + 1) else 0)
      case Le => Success(if a > b then WrapInt(a - b) else 0)
      case Gt => Success(if a <= b then WrapInt(WrapInt(b - a) + 1) else 0)
      case Ge => Success(if a < b then WrapInt(b - a) else 0)
      case Eq => Success(if a != b then AbsInt(WrapInt(a - b)) else 0)
      case Mul => Success(WrapInt(a * b))
      case Sub => Success(AbsInt(WrapInt(AbsInt(b) - AbsInt(a))))
      case Mod => if b == 0 then Failure(Arithmetic) else Success(Rem(a, b))
  }

  /**
   * The cases of the switch: operators without a case push 0; a missing
   * operand throws (NE tolerates a missing right operand); only MOD by zero
   * throws ArithmeticException; results of `int` operands are `int`s.
   */
  lemma OperatorDeltaCases(op: Operator, l: Option<int>, r: Option<int>)
    ensures var d := OperatorDelta(op, l, r);
      && (!HasDelta(op) ==> d == Success(0))
      && (HasDelta(op) && l.None? ==> d == Failure(NullPointer))
      && (HasDelta(op) && op != Ne && r.None? ==> d == Failure(NullPointer))
      && (op == Ne && l.Some? && r.None? ==> d == Success(0))
      && (d == Failure(Arithmetic) <==> op == Mod && l.Some? && r == Some(0))
      && (d.Failure? ==> d.error == NullPointer || d.error == Arithmetic)
      && ((l.Some? ==> IsInt(l.value)) && (r.Some? ==> IsInt(r.value)) && d.Success? ==> IsInt(d.value))
  {
  }

  /** On comparisons the delta is a distance: never negative, and zero exactly when the comparison holds. */
  lemma RelationalDeltaIsDistance(op: Operator, a: int, b: int)
    requires IsRelational(op) && NoOverflow(a, b)
    ensures OperatorDelta(op, Some(a), Some(b)).Success?
    ensures OperatorDelta(op, Some(a), Some(b)).value >= 0
    ensures OperatorDelta(op, Some(a), Some(b)).value == 0 <==> Compares(op, a, b)
  {
    match op
    case Eq =>
      assert IsInt(a - b);
      assert a != b ==> OperatorDelta(op, Some(a), Some(b)).value == Abs(a - b);
    case Ne =>
    case Lt =>
    case Le =>
    case Gt =>
    case Ge =>
  }

  /** OR takes the smaller operand; AND and ADD the sum while it fits in an `int`. */
  lemma ConnectiveDelta(a: int, b: int)
    ensures OperatorDelta(Or, Some(a), Some(b)).Success?
    ensures var d := OperatorDelta(Or, Some(a), Some(b)).value; d <= a && d <= b && (d == a || d == b)
    ensures IsInt(a + b) ==> OperatorDelta(And, Some(a), Some(b)) == Success(a + b)
    ensures IsInt(a + b) ==> OperatorDelta(Add, Some(a), Some(b)) == Success(a + b)
  {
  }

  /** MOD is Java's truncating remainder: smaller than the divisor, with the sign of the dividend. */
  lemma ModDelta(a: int, b: int)
    requires b != 0
    ensures OperatorDelta(Mod, Some(a), Some(b)).Success?
    ensures var d := OperatorDelta(Mod, Some(a), Some(b)).value;
      Abs(d) < Abs(b) && (a >= 0 ==> d >= 0) && (a <= 0 ==> d <= 0)
  {
  }

  /**
   * With wrap-around a violated comparison can get a negative delta:
   * `INT_MAX < -1` yields `INT_MIN + 1`.
   */
  lemma LtDeltaWrapsNegative()
    ensures OperatorDelta(Lt, Some(INT_MAX), Some(-1)) == Success(INT_MIN + 1)
    ensures !Compares(Lt, INT_MAX, -1)
  {
  }

  /** The visitor's stack and the model it builds. */
  datatype DeltaState = DeltaState(stack: seq<int>, newVars: Model)

  /** Pops the top of the stack when there is one. */
  function Pop(stack: seq<int>): (Option<int>, seq<int>)
  {
    if stack == [] then (None, stack) else (Some(stack[|stack| - 1]), stack[..|stack| - 1])
  }

  /** `calculateSatDelta`: a binary operator pops its right then its left operand; every operator pushes one value. */
  function Operate(op: Operator, stack: seq<int>): Result<seq<int>, Fault>
  {
    var (r, st1) := if Arity(op) == 2 then Pop(stack) else (None, stack);
    var (l, st2) := if Arity(op) == 2 then Pop(st1) else (None, st1);
    match OperatorDelta(op, l, r)
    case Success(d) => Success(st2 + [d])
    case Failure(f) => Failure(f)
  }

  /** A variable met for the first time is bound to the reference value. */
  function Bind(m: Model, v: Variable, ref: int): Model
  {
    if v in m then m else m[v := IntC(ref)]
  }

  /** The `postVisit` of one node, its operands already visited. */
  function PostVisit(e: Expr, ref: int, s: DeltaState): Result<DeltaState, Fault>
  {
    match e
    case Var(v) => Success(DeltaState(s.stack + [ref], Bind(s.newVars, v, ref)))
    case IntConst(c) => Success(s.(stack := s.stack + [c]))
    case IntegerConst(_) => Success(s)
    case RealConst(_) => Success(s)
    case Unary(op, _) =>
      (match Operate(op, s.stack) case Success(st) => Success(s.(stack := st)) case Failure(f) => Failure(f))
    case Binary(op, _, _) =>
      (match Operate(op, s.stack) case Success(st) => Success(s.(stack := st)) case Failure(f) => Failure(f))
  }

  /** The post-order walk of `e` with reference value `ref`; a thrown exception ends it. */
  function Walk(e: Expr, ref: int, s: DeltaState): Result<DeltaState, Fault>
  {
    match e
    case Unary(_, x) =>
      (match Walk(x, ref, s)
       case Failure(f) => Failure(f)
       case Success(s1) => PostVisit(e, ref, s1))
    case Binary(_, l, r) =>
      (match Walk(l, ref, s)
       case Failure(f) => Failure(f)
       case Success(s1) =>
         match Walk(r, ref, s1)
         case Failure(f) => Failure(f)
         case Success(s2) => PostVisit(e, ref, s2))
    case _ => PostVisit(e, ref, s)
  }

  /** One probe: walk the target from a fresh visitor, then `getResult` pops the top of the stack. */
  function RootDelta(e: Expr, ref: int): Result<(int, Model), Fault>
  {
    match Walk(e, ref, DeltaState([], map[]))
    case Failure(f) => Failure(f)
    case Success(s) =>
      if s.stack == [] then Failure(EmptyStack) else Success((s.stack[|s.stack| - 1], s.newVars))
  }

  /** The integer formulas the sat-delta is designed for: variables, int constants and binary operations. */
  predicate IntegerFormula(e: Expr)
  {
    match e
    case Var(_) => true
    case IntConst(c) => IsInt(c)
    case Binary(op, l, r) => Arity(op) == 2 && IntegerFormula(l) && IntegerFormula(r)
    case _ => false
  }

  /** The sat-delta of an integer formula, defined directly by recursion on the tree. */
  function Delta(e: Expr, ref: int): Result<int, Fault>
    requires IntegerFormula(e)
  {
    match e
    case Var(_) => Success(ref)
    case IntConst(c) => Success(c)
    case Binary(op, l, r) =>
      match Delta(l, ref)
      case Failure(f) => Failure(f)
      case Success(a) =>
        match Delta(r, ref)
        case Failure(f) => Failure(f)
        case Success(b) => OperatorDelta(op, Some(a), Some(b))
  }

  /** Binding the variables of `vs` in order. */
  function BindAll(m: Model, vs: seq<Variable>, ref: int): Model
    decreases |vs|
  {
    if vs == [] then m else BindAll(Bind(m, vs[0], ref), vs[1..], ref)
  }

  lemma {:induction false} BindAllAppend(m: Model, a: seq<Variable>, b: seq<Variable>, ref: int)
    ensures BindAll(m, a + b, ref) == BindAll(BindAll(m, a, ref), b, ref)
    decreases |a|
  {
    if a == [] {
      assert a + b == b;
    } else {
      assert (a + b)[1..] == a[1..] + b;
      BindAllAppend(Bind(m, a[0], ref), a[1..], b, ref);
    }
  }

  /** Binding keeps every existing entry and binds every new variable to the reference value. */
  lemma {:induction false} BindAllBindings(m: Model, vs: seq<Variable>, ref: int)
    ensures BindAll(m, vs, ref).Keys == m.Keys + set v | v in vs
    ensures forall v :: v in m ==> BindAll(m, vs, ref)[v] == m[v]
    ensures forall v :: v in vs && v !in m ==> BindAll(m, vs, ref)[v] == IntC(ref)
    decreases |vs|
  {
    if vs != [] {
      BindAllBindings(Bind(m, vs[0], ref), vs[1..], ref);
      assert (set v | v in vs) == {vs[0]} + set v | v in vs[1..];
    }
  }

  /** The stack machine computes the reference delta: the walk pushes exactly `Delta(e, ref)` and binds the variables of `e`. */
  lemma {:induction false} WalkPushesDelta(e: Expr, ref: int, s: DeltaState)
    requires IntegerFormula(e)
    ensures Delta(e, ref).Success? ==>
      Walk(e, ref, s) == Success(DeltaState(s.stack + [Delta(e, ref).value], BindAll(s.newVars, Vars(e), ref)))
    ensures Delta(e, ref).Failure? ==> Walk(e, ref, s) == Failure(Delta(e, ref).error)
  {
    match e
    case Var(v) =>
    case IntConst(_) =>
    case Binary(op, l, r) =>
      WalkPushesDelta(l, ref, s);
      if Delta(l, ref).Success? {
        var a := Delta(l, ref).value;
        var s1 := DeltaState(s.stack + [a], BindAll(s.newVars, Vars(l), ref));
        WalkPushesDelta(r, ref, s1);
        if Delta(r, ref).Success? {
          var b := Delta(r, ref).value;
          var st := s1.stack + [b];
          assert Pop(st) == (Some(b), s.stack + [a]);
          assert Pop(s.stack + [a]) == (Some(a), s.stack);
          BindAllAppend(s.newVars, Vars(l), Vars(r), ref);
        }
      }
  }

  /** A probe of an integer formula reports its delta and binds exactly its variables, each to the reference value. */
  lemma ProbeOfFormula(e: Expr, ref: int)
    requires IntegerFormula(e) && Delta(e, ref).Success?
    ensures RootDelta(e, ref).Success?
    ensures RootDelta(e, ref).value.0 == Delta(e, ref).value
    ensures RootDelta(e, ref).value.1.Keys == set v | v in Vars(e)
    ensures forall v :: v in RootDelta(e, ref).value.1 ==> RootDelta(e, ref).value.1[v] == IntC(ref)
  {
    WalkPushesDelta(e, ref, DeltaState([], map[]));
    BindAllBindings(map[], Vars(e), ref);
  }

  /** A one-operand operator has no case in the switch: it pops nothing and pushes 0. */
  lemma UnaryPushesZero(op: Operator, stack: seq<int>)
    requires Arity(op) == 1
    ensures Operate(op, stack) == Success(stack + [0])
  {
    assert !HasDelta(op);
  }

  /**
   * A one-operand operation pops nothing and pushes 0, so the probe reports
   * 0 whatever the operand, and the operand's delta stays below it.
   */
  lemma UnaryReportsZero(op: Operator, x: Expr, ref: int)
    requires Arity(op) == 1 && IntegerFormula(x) && Delta(x, ref).Success?
    ensures Walk(Unary(op, x), ref, DeltaState([], map[])).Success?
    ensures Walk(Unary(op, x), ref, DeltaState([], map[])).value.stack == [Delta(x, ref).value, 0]
    ensures RootDelta(Unary(op, x), ref).Success? && RootDelta(Unary(op, x), ref).value.0 == 0
  {
    var s0 := DeltaState([], map[]);
    WalkPushesDelta(x, ref, s0);
    var s1 := Walk(x, ref, s0).value;
    assert s1.stack == [Delta(x, ref).value];
    UnaryPushesZero(op, s1.stack);
  }

  /** On a comparison of two integer formulas the probe is zero exactly when the comparison holds at the reference value. */
  lemma ComparisonProbe(op: Operator, a: Expr, b: Expr, ref: int)
    requires IsRelational(op) && IntegerFormula(a) && IntegerFormula(b)
    requires Delta(a, ref).Success? && Delta(b, ref).Success?
    requires NoOverflow(Delta(a, ref).value, Delta(b, ref).value)
    ensures RootDelta(Binary(op, a, b), ref).Success?
    ensures RootDelta(Binary(op, a, b), ref).value.0 >= 0
    ensures RootDelta(Binary(op, a, b), ref).value.0 == 0 <==> Compares(op, Delta(a, ref).value, Delta(b, ref).value)
  {
    var x, y := Delta(a, ref).value, Delta(b, ref).value;
    RelationalDeltaIsDistance(op, x, y);
    assert Delta(Binary(op, a, b), ref) == OperatorDelta(op, Some(x), Some(y));
    ProbeOfFormula(Binary(op, a, b), ref);
  }

  /** ModelGruliaVisitor. */
  class DeltaVisitor {
    var stack: seq<int>
    var referenceSolution: int
    /** The value `getResult` caches; `None` stands for null. */
    var result: Option<int>
    var newVars: Model

    function State(): DeltaState
      reads this
    {
      DeltaState(stack, newVars)
    }

    constructor ()
      ensures stack == [] && result.None? && newVars == map[]
    {
      stack := [];
      referenceSolution := 0;
      result := None;
      newVars := map[];
    }

    /** `setReferenceSolution`: clears the stack, the model and the cached result. */
    method SetReferenceSolution(value: int)
      modifies this
      ensures stack == [] && newVars == map[] && result.None? && referenceSolution == value
    {
      stack := [];
      newVars := map[];
      result := None;
      referenceSolution := value;
    }

    method GetModel() returns (m: Model)
      ensures m == newVars
    {
      m := newVars;
    }

    /** `getResult`: pops the stack on the first call and caches the value. */
    method GetResult() returns (r: Result<int, Fault>)
      modifies this`stack, this`result
      ensures old(result).Some? ==> r == Success(old(result).value) && stack == old(stack) && result == old(result)
      ensures old(result).None? && old(stack) == [] ==> r == Failure(EmptyStack) && stack == old(stack) && result == old(result)
      ensures old(result).None? && old(stack) != [] ==>
        && r == Success(old(stack)[|old(stack)| - 1])
        && stack == old(stack)[..|old(stack)| - 1]
        && result == Some(r.value)
    {
      if result.Some? {
        return Success(result.value);
      }
      if stack == [] {
        return Failure(EmptyStack);
      }
      var top := stack[|stack| - 1];
      stack := stack[..|stack| - 1];
      result := Some(top);
      r := Success(top);
    }

    method PostVisitVariable(v: Variable)
      modifies this`stack, this`newVars
      ensures State() == PostVisit(Var(v), referenceSolution, old(State())).value
    {
      if v !in newVars {
        newVars := newVars[v := IntC(referenceSolution)];
      }
      stack := stack + [referenceSolution];
    }

    method PostVisitIntConstant(c: int)
      modifies this`stack
      ensures State() == PostVisit(IntConst(c), referenceSolution, old(State())).value
    {
      stack := stack + [c];
    }

    /** `postVisit(Operation)`, which runs `calculateSatDelta` on the visitor's stack. */
    method PostVisitOperation(op: Operator) returns (o: Outcome<Fault>)
      modifies this`stack
      ensures Operate(op, old(stack)).Success? ==> o == Pass && stack == Operate(op, old(stack)).value
      ensures Operate(op, old(stack)).Failure? ==> o == Fail(Operate(op, old(stack)).error)
    {
      var l: Option<int> := None;
      var r: Option<int> := None;
      ghost var st1 := stack;
      if Arity(op) == 2 {
        if stack != [] {
          r := Some(stack[|stack| - 1]);
          stack := stack[..|stack| - 1];
        }
        st1 := stack;
        if stack != [] {
          l := Some(stack[|stack| - 1]);
          stack := stack[..|stack| - 1];
        }
      }
      assert (r, st1) == (if Arity(op) == 2 then Pop(old(stack)) else (None, old(stack)));
      assert (l, stack) == (if Arity(op) == 2 then Pop(st1) else (None, st1));
      var d := OperatorDelta(op, l, r);
      if d.Failure? {
        return Fail(d.error);
      }
      stack := stack + [d.value];
      o := Pass;
    }

    /** `expression.accept(visitor)`: the post-order visit. */
    method Accept(e: Expr) returns (o: Outcome<Fault>)
      modifies this`stack, this`newVars
      ensures Walk(e, referenceSolution, old(State())).Success? ==>
        o == Pass && State() == Walk(e, referenceSolution, old(State())).value
      ensures Walk(e, referenceSolution, old(State())).Failure? ==>
        o == Fail(Walk(e, referenceSolution, old(State())).error)
      decreases e
    {
      match e
      case Var(v) =>
        PostVisitVariable(v);
        o := Pass;
      case IntConst(c) =>
        PostVisitIntConstant(c);
        o := Pass;
      case IntegerConst(_) =>
        o := Pass;
      case RealConst(_) =>
        o := Pass;
      case Unary(op, x) =>
        o := Accept(x);
        if o.Pass? {
          o := PostVisitOperation(op);
        }
      case Binary(op, l, r) =>
        o := Accept(l);
        if o.Pass? {
          o := Accept(r);
          if o.Pass? {
            o := PostVisitOperation(op);
          }
        }
    }
  }
}
