/**
 * When a probe's sat-delta is zero, the probe's model is reused without
 * evaluating the expression. This module relates the sat-delta visitor to
 * the model evaluator. For comparisons of sums, products and remainders
 * joined by AND and OR, where no distance wraps around, the probe's delta is
 * zero exactly when the evaluator finds the probe's model satisfying. SUB and
 * NOT are outside that fragment, and a counterexample shows that SUB breaks it.
 */
module DeltaSoundness {
  import opened Wrappers
  import opened JavaLang
  import opened Ast
  import SD = SatDelta
  import Ev = Evaluation

  /** No subtraction anywhere in the tree. */
  predicate NoSub(e: Expr)
  {
    match e
    case Unary(_, x) => NoSub(x)
    case Binary(op, l, r) => op != Sub && NoSub(l) && NoSub(r)
    case _ => true
  }

  /** Integer terms without subtraction: the sat-delta visitor computes their values as the evaluator does. */
  predicate SubFreeTerm(e: Expr)
  {
    Ev.IntTerm(e) && SD.IntegerFormula(e) && NoSub(e)
  }

  /** Comparisons of subtraction-free terms joined by AND and OR. */
  predicate SubFreeFormula(e: Expr)
  {
    Ev.BoolTerm(e) && SD.IntegerFormula(e) && NoSub(e)
  }

  /** Every variable of `e` takes the value `ref` in the evaluator under `m`. */
  predicate BindsTo(m: Model, e: Expr, ref: int)
  {
    forall v :: v in Vars(e) ==> Ev.VariableValue(m, v) == ref
  }

  /** On ADD, MUL and MOD the visitor's operator is the evaluator's. */
  lemma ArithDelta(op: Operator, a: int, b: int)
    requires op == Add || op == Mul || op == Mod
    ensures SD.OperatorDelta(op, Some(a), Some(b)) == Ev.Arith(op, a, b)
  {
  }

  /** The visitor and the evaluator agree on the value of a subtraction-free term. */
  lemma {:induction false} TermDeltaIsValue(e: Expr, ref: int, m: Model)
    requires SubFreeTerm(e) && BindsTo(m, e, ref)
    ensures SD.Delta(e, ref) == Ev.Term(e, m)
  {
    match e
    case Var(v) =>
      assert v in Vars(e);
    case IntConst(_) =>
    case Binary(op, l, r) =>
      assert BindsTo(m, l, ref) && BindsTo(m, r, ref);
      TermDeltaIsValue(l, ref, m);
      TermDeltaIsValue(r, ref, m);
      if SD.Delta(l, ref).Success? && SD.Delta(r, ref).Success? {
        ArithDelta(op, SD.Delta(l, ref).value, SD.Delta(r, ref).value);
      }
  }

  /**
   * No distance of the formula wraps around: every comparison's operands
   * differ by less than Integer.MAX_VALUE, and every AND's sum fits an `int`.
   */
  predicate NoWrap(e: Expr, ref: int)
    requires SubFreeFormula(e)
  {
    match e
    case Binary(op, l, r) =>
      if IsRelational(op) then
        (SD.Delta(l, ref).Success? && SD.Delta(r, ref).Success? ==>
           SD.NoOverflow(SD.Delta(l, ref).value, SD.Delta(r, ref).value))
      else
        && NoWrap(l, ref) && NoWrap(r, ref)
        && (op == And && SD.Delta(l, ref).Success? && SD.Delta(r, ref).Success? ==>
              IsInt(SD.Delta(l, ref).value + SD.Delta(r, ref).value))
  }

  /**
   * On the fragment, the sat-delta is a distance from satisfaction: it fails
   * exactly when evaluation fails (a remainder by zero), is never negative,
   * and is zero exactly when the formula holds at the reference value.
   */
  lemma {:induction false} FormulaDeltaIsDistance(e: Expr, ref: int, m: Model)
    requires SubFreeFormula(e) && BindsTo(m, e, ref) && NoWrap(e, ref)
    ensures SD.Delta(e, ref).Failure? <==> Ev.Holds(e, m).Failure?
    ensures SD.Delta(e, ref).Success? ==>
        SD.Delta(e, ref).value >= 0 && (SD.Delta(e, ref).value == 0 <==> Ev.Holds(e, m).value)
  {
    match e
    case Binary(op, l, r) =>
      assert BindsTo(m, l, ref) && BindsTo(m, r, ref);
      if IsRelational(op) {
        TermDeltaIsValue(l, ref, m);
        TermDeltaIsValue(r, ref, m);
        if SD.Delta(l, ref).Success? && SD.Delta(r, ref).Success? {
          SD.RelationalDeltaIsDistance(op, SD.Delta(l, ref).value, SD.Delta(r, ref).value);
        }
      } else {
        FormulaDeltaIsDistance(l, ref, m);
        FormulaDeltaIsDistance(r, ref, m);
        if SD.Delta(l, ref).Success? && SD.Delta(r, ref).Success? {
          SD.ConnectiveDelta(SD.Delta(l, ref).value, SD.Delta(r, ref).value);
        }
      }
  }

  /**
   * A probe of a formula of the fragment never reports a negative delta, and
   * it reports zero exactly when the model it built satisfies the formula.
   */
  lemma ProbeDecidesFormula(e: Expr, ref: int)
    requires SubFreeFormula(e) && NoWrap(e, ref) && SD.RootDelta(e, ref).Success?
    ensures SD.RootDelta(e, ref).value.0 >= 0
    ensures Ev.Satisfies(e, SD.RootDelta(e, ref).value.1).Success?
    ensures SD.RootDelta(e, ref).value.0 == 0 <==> Ev.Satisfies(e, SD.RootDelta(e, ref).value.1) == Success(true)
  {
    SD.WalkPushesDelta(e, ref, SD.DeltaState([], map[]));
    SD.ProbeOfFormula(e, ref);
    var m := SD.RootDelta(e, ref).value.1;
    assert BindsTo(m, e, ref);
    FormulaDeltaIsDistance(e, ref, m);
    Ev.SatisfiesAgreesWithHolds(e, m);
  }

  const X: Variable := IntVar("x", -1000, 1000)

  /** The target `0 - x == 100`: a subtraction the sat-delta visitor scores as |abs(x) - abs(0)|. */
  const SubTarget: Expr := Binary(Eq, Binary(Sub, IntConst(0), Var(X)), IntConst(100))

  /** The probe x = 100 scores `0 - x == 100` as satisfied: the visitor pushes |100 - 0| for the subtraction. */
  lemma SubProbeIsZero()
    ensures SD.RootDelta(SubTarget, 100) == Success((0, map[X := IntC(100)]))
  {
    var sub := Binary(Sub, IntConst(0), Var(X));
    assert SD.Delta(sub, 100) == Success(100);
    assert SD.Delta(SubTarget, 100) == Success(0);
    SD.ProbeOfFormula(SubTarget, 100);
    assert Vars(SubTarget) == [X];
    var m := SD.RootDelta(SubTarget, 100).value.1;
    assert m.Keys == {X};
    assert m == map[X := IntC(100)];
  }

  /** Yet x = 100 falsifies `0 - x == 100`. */
  lemma SubProbeFalsifies()
    ensures Ev.Satisfies(SubTarget, map[X := IntC(100)]) == Success(false)
  {
    var sub := Binary(Sub, IntConst(0), Var(X));
    var m := map[X := IntC(100)];
    assert Ev.Term(sub, m) == Success(-100);
    assert Ev.Holds(SubTarget, m) == Success(false);
    Ev.SatisfiesAgreesWithHolds(SubTarget, m);
  }

  /**
   * Outside the fragment a zero delta does not mean the probe is a model:
   * the probe x = 100 scores `0 - x == 100` as satisfied, yet it falsifies it.
   */
  lemma SubZeroDeltaIsNotAModel()
    ensures SD.RootDelta(SubTarget, 100) == Success((0, map[X := IntC(100)]))
    ensures Ev.Satisfies(SubTarget, map[X := IntC(100)]) == Success(false)
  {
    SubProbeIsZero();
    SubProbeFalsifies();
  }
}
