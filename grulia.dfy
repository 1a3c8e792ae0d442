/**
 * ModelGruliaService: solution reuse after Aquino, Denaro and Pezzè (ICSE'17).
 * A query is first scored by its sat-delta at three reference values; a probe
 * that scores zero answers the query at once. Otherwise the mean delta is the
 * key under which cached models, then cached unsat cores, are tried, and only
 * then is the solver called, whose answer is cached in exactly one repository.
 */
module Grulia {
  import opened Wrappers
  import opened JavaLang
  import opened Ast
  import opened Expressions
  import opened Green
  import opened ModelCores
  import SD = SatDelta
  import Ev = Evaluation
  import DS = DeltaSoundness

  /** How many closest entries are extracted from a repository. */
  const K: int := 10

  /** The reference values, probed in this order. */
  const REFERENCE_SOLUTIONS: seq<int> := [-10000, 0, 100]

  // ---------------------------------------------------------------------
  // The probe loop of calculateSATDelta

  /** What one probe reports: its delta and the model binding every variable to the reference value, or the exception. */
  type ProbeReport = Result<(int, Model), Fault>

  /** A probe that scored zero, with its model; or the mean delta of all probes. */
  datatype DeltaOutcome = Hit(model: Model) | Miss(mean: real)

  /** The reports of the probes at the reference values, in order. */
  function Probes(e: Expr): (ps: seq<ProbeReport>)
    ensures |ps| == |REFERENCE_SOLUTIONS|
    ensures forall k :: 0 <= k < |ps| ==> ps[k] == SD.RootDelta(e, REFERENCE_SOLUTIONS[k])
  {
    seq(|REFERENCE_SOLUTIONS|, k requires 0 <= k < |REFERENCE_SOLUTIONS| => SD.RootDelta(e, REFERENCE_SOLUTIONS[k]))
  }

  /** The probe walked the target without an exception and scored a nonzero delta. */
  predicate NonZero(p: ProbeReport)
  {
    p.Success? && p.value.0 != 0
  }

  /**
   * The reports from the `i`-th on, the deltas before it summing to `sum`:
   * the first probe that scores zero is a hit, an exception ends the loop,
   * and after the last probe the mean is taken.
   */
  function ProbeFrom(ps: seq<ProbeReport>, i: nat, sum: int): Result<DeltaOutcome, Fault>
    requires 0 < |ps| && i <= |ps|
    decreases |ps| - i
  {
    if i == |ps| then Success(Miss(sum as real / |ps| as real))
    else match ps[i]
      case Failure(f) => Failure(f)
      case Success((d, m)) =>
        if d == 0 then Success(Hit(m)) else ProbeFrom(ps, i + 1, sum + d)
  }

  /**
   * A hit is the first report from the `i`-th on that scores zero, every
   * earlier one scoring nonzero; a miss means every report scored nonzero;
   * a failure is the exception of the first report that did not score zero.
   */
  lemma {:induction false} ProbeFromOutcome(ps: seq<ProbeReport>, i: nat, sum: int)
    requires 0 < |ps| && i <= |ps|
    ensures var r := ProbeFrom(ps, i, sum);
      r.Success? && r.value.Hit? ==>
        exists j :: i <= j < |ps| && ps[j] == Success((0, r.value.model)) && forall k :: i <= k < j ==> NonZero(ps[k])
    ensures var r := ProbeFrom(ps, i, sum);
      r.Success? && r.value.Miss? ==> forall k :: i <= k < |ps| ==> NonZero(ps[k])
    ensures var r := ProbeFrom(ps, i, sum);
      r.Failure? ==>
        exists j :: i <= j < |ps| && ps[j] == Failure(r.error) && forall k :: i <= k < j ==> NonZero(ps[k])
    decreases |ps| - i
  {
    if i < |ps| && ps[i].Success? && ps[i].value.0 != 0 {
      ProbeFromOutcome(ps, i + 1, sum + ps[i].value.0);
    }
  }

  /** Conversely, the first report scoring zero is the hit, whatever the deltas summed so far. */
  lemma {:induction false} ProbeFromHits(ps: seq<ProbeReport>, i: nat, sum: int, j: nat)
    requires i <= j < |ps|
    requires ps[j].Success? && ps[j].value.0 == 0
    requires forall k :: i <= k < j ==> NonZero(ps[k])
    ensures ProbeFrom(ps, i, sum) == Success(Hit(ps[j].value.1))
    decreases j - i
  {
    if i < j {
      assert NonZero(ps[i]);
      ProbeFromHits(ps, i + 1, sum + ps[i].value.0, j);
    }
  }

  /** The sum of the deltas from the `i`-th report on, every one of them nonzero. */
  function DeltaSum(ps: seq<ProbeReport>, i: nat): int
    requires i <= |ps| && forall k :: i <= k < |ps| ==> NonZero(ps[k])
    decreases |ps| - i
  {
    if i == |ps| then 0 else assert NonZero(ps[i]); ps[i].value.0 + DeltaSum(ps, i + 1)
  }

  /** Without a zero score and an exception, the outcome is the mean delta. */
  lemma {:induction false} ProbeFromMisses(ps: seq<ProbeReport>, i: nat, sum: int)
    requires 0 < |ps| && i <= |ps|
    requires forall k :: i <= k < |ps| ==> NonZero(ps[k])
    ensures ProbeFrom(ps, i, sum) == Success(Miss((sum + DeltaSum(ps, i)) as real / |ps| as real))
    decreases |ps| - i
  {
    if i < |ps| {
      ProbeFromMisses(ps, i + 1, sum + ps[i].value.0);
    }
  }

  /** `calculateSATDelta` as a function of the target. */
  function SatDeltaProbe(e: Expr): Result<DeltaOutcome, Fault>
  {
    ProbeFrom(Probes(e), 0, 0)
  }

  /** Three reports without a hit: each scored nonzero, and the outcome is their mean delta. */
  lemma MeanOfThree(ps: seq<ProbeReport>)
    requires |ps| == 3 && ProbeFrom(ps, 0, 0).Success? && ProbeFrom(ps, 0, 0).value.Miss?
    ensures NonZero(ps[0]) && NonZero(ps[1]) && NonZero(ps[2])
    ensures ProbeFrom(ps, 0, 0).value.mean == (ps[0].value.0 + ps[1].value.0 + ps[2].value.0) as real / 3.0
  {
    ProbeFromOutcome(ps, 0, 0);
    ProbeFromMisses(ps, 0, 0);
    assert DeltaSum(ps, 2) == ps[2].value.0 + DeltaSum(ps, 3);
    assert DeltaSum(ps, 1) == ps[1].value.0 + DeltaSum(ps, 2);
  }

  /** Without a hit, the recorded sat-delta is the mean of the three deltas. */
  lemma MissIsMean(e: Expr)
    requires SatDeltaProbe(e).Success? && SatDeltaProbe(e).value.Miss?
    ensures var ps := Probes(e);
      && NonZero(ps[0]) && NonZero(ps[1]) && NonZero(ps[2])
      && SatDeltaProbe(e).value.mean == (ps[0].value.0 + ps[1].value.0 + ps[2].value.0) as real / 3.0
  {
    MeanOfThree(Probes(e));
  }

  /**
   * A zero-delta hit is a model of the target whenever the target is a
   * comparison of subtraction-free terms joined by AND and OR whose
   * distances do not wrap around.
   */
  lemma HitIsSound(e: Expr)
    requires SatDeltaProbe(e).Success? && SatDeltaProbe(e).value.Hit?
    requires DS.SubFreeFormula(e) && forall k :: 0 <= k < |REFERENCE_SOLUTIONS| ==> DS.NoWrap(e, REFERENCE_SOLUTIONS[k])
    ensures Ev.Satisfies(e, SatDeltaProbe(e).value.model) == Success(true)
  {
    var ps := Probes(e);
    ProbeFromOutcome(ps, 0, 0);
    var j :| 0 <= j < |ps| && ps[j] == Success((0, SatDeltaProbe(e).value.model));
    DS.ProbeDecidesFormula(e, REFERENCE_SOLUTIONS[j]);
  }

  /** On the same fragment a miss means that none of the three probe models satisfies the target. */
  lemma MissIsComplete(e: Expr)
    requires SatDeltaProbe(e).Success? && SatDeltaProbe(e).value.Miss?
    requires DS.SubFreeFormula(e) && forall k :: 0 <= k < |REFERENCE_SOLUTIONS| ==> DS.NoWrap(e, REFERENCE_SOLUTIONS[k])
    ensures forall k :: 0 <= k < |REFERENCE_SOLUTIONS| ==>
      SD.RootDelta(e, REFERENCE_SOLUTIONS[k]).Success? &&
      Ev.Satisfies(e, SD.RootDelta(e, REFERENCE_SOLUTIONS[k]).value.1) == Success(false)
  {
    var ps := Probes(e);
    ProbeFromOutcome(ps, 0, 0);
    forall k | 0 <= k < |REFERENCE_SOLUTIONS|
      ensures SD.RootDelta(e, REFERENCE_SOLUTIONS[k]).Success?
      ensures Ev.Satisfies(e, SD.RootDelta(e, REFERENCE_SOLUTIONS[k]).value.1) == Success(false)
    {
      assert NonZero(ps[k]);
      DS.ProbeDecidesFormula(e, REFERENCE_SOLUTIONS[k]);
    }
  }

  /**
   * A unary root (a negation) is a hit at the first probe whatever it says:
   * the visitor pushes 0 for every unary operator.
   */
  lemma UnaryTargetHits(op: Operator, x: Expr)
    requires Arity(op) == 1 && SD.IntegerFormula(x) && SD.Delta(x, REFERENCE_SOLUTIONS[0]).Success?
    ensures SatDeltaProbe(Unary(op, x)).Success? && SatDeltaProbe(Unary(op, x)).value.Hit?
  {
    var ps := Probes(Unary(op, x));
    SD.UnaryReportsZero(op, x, REFERENCE_SOLUTIONS[0]);
    ProbeFromHits(ps, 0, 0, 0);
  }

  /** The first two probes of `0 - x == 100` score 9900 and 100. */
  lemma SubTargetMisses()
    ensures NonZero(SD.RootDelta(DS.SubTarget, -10000)) && NonZero(SD.RootDelta(DS.SubTarget, 0))
  {
    var e := DS.SubTarget;
    var sub := Binary(Sub, IntConst(0), Var(DS.X));
    assert SD.Delta(sub, -10000) == Success(10000);
    assert SD.Delta(e, -10000) == Success(9900);
    SD.ProbeOfFormula(e, -10000);
    assert SD.Delta(sub, 0) == Success(0);
    assert SD.Delta(e, 0) == Success(100);
    SD.ProbeOfFormula(e, 0);
  }

  /** The third probe of `0 - x == 100` scores zero, so the probe loop ends with its model. */
  lemma SubTargetHits()
    ensures SatDeltaProbe(DS.SubTarget) == Success(Hit(map[DS.X := IntC(100)]))
  {
    var ps := Probes(DS.SubTarget);
    SubTargetMisses();
    DS.SubProbeIsZero();
    assert NonZero(ps[0]) && NonZero(ps[1]);
    ProbeFromHits(ps, 0, 0, 2);
  }

  /**
   * The whole probe loop answers `0 - x == 100` with x = 100, a model that
   * falsifies it: the first two probes score 9900 and 100, the third zero.
   */
  lemma SubTargetHitFalsifies()
    ensures SatDeltaProbe(DS.SubTarget) == Success(Hit(map[DS.X := IntC(100)]))
    ensures Ev.Satisfies(DS.SubTarget, map[DS.X := IntC(100)]) == Success(false)
  {
    SubTargetHits();
    DS.SubProbeFalsifies();
  }

  /**
   * What `calculateSATDelta` leaves in the counters and in the expression's
   * sat-delta: a hit counts as a zero delta and a sat answer and records a
   * zero delta; a miss records the mean; an exception leaves both alone.
   */
  function Recorded(r: Result<DeltaOutcome, Fault>, c: Counters, satDelta: real): (Counters, real)
  {
    match r
    case Success(Hit(_)) => (c.(satDeltaIs0 := c.satDeltaIs0 + 1, satCount := c.satCount + 1), 0.0)
    case Success(Miss(mean)) => (c, mean)
    case Failure(_) => (c, satDelta)
  }

  /**
   * The loop of `calculateSATDelta`: one visitor is reset to each reference
   * value in turn and walks the target; the first zero delta ends the loop.
   */
  method ProbeAll(e: Expr) returns (r: Result<DeltaOutcome, Fault>)
    ensures r == SatDeltaProbe(e)
  {
    var visitor := new SD.DeltaVisitor();
    ghost var ps := Probes(e);
    var sum := 0;
    var i := 0;
    while i < |REFERENCE_SOLUTIONS|
      invariant 0 <= i <= |REFERENCE_SOLUTIONS|
      invariant SatDeltaProbe(e) == ProbeFrom(ps, i, sum)
    {
      var probe := Probe(visitor, e, REFERENCE_SOLUTIONS[i]);
      assert probe == ps[i];
      if probe.Failure? {
        return Failure(probe.error);
      }
      var (d, m) := probe.value;
      if d == 0 {
        return Success(Hit(m));
      }
      sum := sum + d;
      i := i + 1;
    }
    r := Success(Miss(sum as real / |REFERENCE_SOLUTIONS| as real));
  }

  /** One turn of the loop of `calculateSATDelta`: the visitor is reset to `ref`, walks the target and reports. */
  method Probe(visitor: SD.DeltaVisitor, e: Expr, ref: int) returns (r: ProbeReport)
    modifies visitor
    ensures r == SD.RootDelta(e, ref)
  {
    visitor.SetReferenceSolution(ref);
    var o := visitor.Accept(e);
    if o.Fail? {
      return Failure(o.error);
    }
    var d := visitor.GetResult();
    if d.Failure? {
      return Failure(d.error);
    }
    var m := visitor.GetModel();
    r := Success((d.value, m));
  }

  // ---------------------------------------------------------------------
  // ExprVisitor: the integer variables of the target

  /** The collector's state: the IntVariables met so far, and whether every variable met was one. */
  datatype Collected = Collected(variables: set<Variable>, linearInteger: bool)

  /** `postVisit(Variable)`: once a non-int variable is met, nothing more is collected. */
  function CollectVar(c: Collected, v: Variable): Collected
  {
    if !c.linearInteger then c
    else if v.IntVar? then c.(variables := c.variables + {v})
    else c.(linearInteger := false)
  }

  /** Visiting the variable occurrences `vs` in order. */
  function Collect(c: Collected, vs: seq<Variable>): Collected
    decreases |vs|
  {
    if vs == [] then c else Collect(CollectVar(c, vs[0]), vs[1..])
  }

  lemma {:induction false} CollectAppend(c: Collected, a: seq<Variable>, b: seq<Variable>)
    ensures Collect(c, a + b) == Collect(Collect(c, a), b)
    decreases |a|
  {
    if a == [] {
      assert a + b == b;
    } else {
      assert (a + b)[1..] == a[1..] + b;
      CollectAppend(CollectVar(c, a[0]), a[1..], b);
    }
  }

  /** The longest prefix of `vs` made of IntVariables. */
  function LeadingIntVars(vs: seq<Variable>): (r: seq<Variable>)
    ensures |r| <= |vs| && r == vs[..|r|]
    ensures forall k :: 0 <= k < |r| ==> r[k].IntVar?
    ensures |r| < |vs| ==> !vs[|r|].IntVar?
  {
    if vs == [] || !vs[0].IntVar? then [] else [vs[0]] + LeadingIntVars(vs[1..])
  }

  /**
   * The collected set holds exactly the IntVariables that occur before the
   * first variable of another kind, and `linearInteger` stays true exactly
   * when every variable is an IntVariable.
   */
  lemma {:induction false} CollectLeading(s: set<Variable>, vs: seq<Variable>)
    ensures Collect(Collected(s, true), vs) ==
      Collected(s + (set v | v in LeadingIntVars(vs)), |LeadingIntVars(vs)| == |vs|)
    decreases |vs|
  {
    if vs == [] {
      assert s + (set v | v in LeadingIntVars(vs)) == s;
    } else if !vs[0].IntVar? {
      CollectStopped(Collected(s, false), vs[1..]);
      assert s + (set v | v in LeadingIntVars(vs)) == s;
    } else {
      CollectLeading(s + {vs[0]}, vs[1..]);
      assert LeadingIntVars(vs) == [vs[0]] + LeadingIntVars(vs[1..]);
      assert s + {vs[0]} + (set v | v in LeadingIntVars(vs[1..])) == s + (set v | v in LeadingIntVars(vs));
    }
  }

  /** Once a non-int variable has been met the state never changes again. */
  lemma {:induction false} CollectStopped(c: Collected, vs: seq<Variable>)
    requires !c.linearInteger
    ensures Collect(c, vs) == c
    decreases |vs|
  {
    if vs != [] {
      CollectStopped(CollectVar(c, vs[0]), vs[1..]);
    }
  }

  /** The size `solve1` gives its model-repository key: how many IntVariables the collector found. */
  function DummySize(e: Expr): int
  {
    |Collect(Collected({}, true), Vars(e)).variables|
  }

  /** ExprVisitor. */
  class VariableCollector {
    var variableSet: set<Variable>
    var linearInteger: bool

    function State(): Collected
      reads this
    {
      Collected(variableSet, linearInteger)
    }

    constructor ()
      ensures variableSet == {} && linearInteger
    {
      variableSet := {};
      linearInteger := true;
    }

    method PostVisitVariable(v: Variable)
      modifies this
      ensures State() == CollectVar(old(State()), v)
    {
      if linearInteger {
        if v.IntVar? {
          variableSet := variableSet + {v};
        } else {
          linearInteger := false;
        }
      }
    }

    /** `expression.accept(visitor)`: only variables are visited for their own sake. */
    method Accept(e: Expr)
      modifies this
      ensures State() == Collect(old(State()), Vars(e))
      decreases e
    {
      match e
      case Var(v) =>
        PostVisitVariable(v);
      case Unary(_, x) =>
        Accept(x);
      case Binary(_, l, r) =>
        ghost var s0 := State();
        Accept(l);
        Accept(r);
        CollectAppend(s0, Vars(l), Vars(r));
      case _ =>
    }
  }

  // ---------------------------------------------------------------------
  // trimSolution

  /** The TreeMap order of variables, which compares their names. */
  predicate NameLe(a: Variable, b: Variable)
  {
    CompareStrings(a.name, b.name) <= 0
  }

  /**
   * `t` keeps `n` of the bindings of `m` unchanged, and no variable it keeps
   * comes after a variable it drops in name order.
   */
  predicate IsTrimOf(t: Model, m: Model, n: int)
  {
    && t.Keys <= m.Keys
    && (forall v :: v in t ==> t[v] == m[v])
    && |t| == n
    && (forall a, b :: a in t && b in m && b !in t ==> NameLe(a, b))
  }

  /** The model `trimSolution` returns for a dummy of size `size` and candidate `c`. */
  predicate IsTrimResult(size: int, c: SatEntry, t: Model)
  {
    if size >= c.size then t == c.solution
    else IsTrimOf(t, c.solution, if 1 <= size <= |c.solution| then size else |c.solution|)
  }

  /** The variable of least name among `s`: the next one a TreeMap hands out. */
  method MinByName(s: set<Variable>) returns (v: Variable)
    requires s != {}
    ensures v in s && forall w :: w in s ==> NameLe(v, w)
  {
    v :| v in s;
    CompareZeroIffEqual(v.name, v.name);
    var rest := s - {v};
    while rest != {}
      invariant v in s && rest <= s
      invariant forall w :: w in s && w !in rest ==> NameLe(v, w)
      decreases |rest|
    {
      var w :| w in rest;
      if !NameLe(v, w) {
        CompareAntisymmetric(v.name, w.name);
        forall u | u in s && u !in rest
          ensures NameLe(w, u)
        {
          CompareTransitive(w.name, v.name, u.name);
        }
        v := w;
      }
      CompareZeroIffEqual(v.name, v.name);
      rest := rest - {w};
    }
  }

  /**
   * `trimSolution`: a candidate with at most as many bindings as the dummy
   * asks for is returned whole; a larger one is cut down to its first
   * `size` bindings in name order (all of them when `size` is below one,
   * since the size is only compared after a binding was added).
   */
  method TrimSolution(size: int, c: SatEntry) returns (t: Model)
    ensures IsTrimResult(size, c, t)
  {
    if size == c.size {
      return c.solution;
    } else if size < c.size {
      var m := c.solution;
      t := map[];
      var remaining := m.Keys;
      while remaining != {}
        invariant t.Keys <= m.Keys && remaining == m.Keys - t.Keys
        invariant forall v :: v in t ==> t[v] == m[v]
        invariant forall a, b :: a in t && b in remaining ==> NameLe(a, b)
        invariant |t| + |remaining| == |m|
        invariant 1 <= size ==> |t| < size
        decreases |remaining|
      {
        var v := MinByName(remaining);
        t := t[v := m[v]];
        remaining := remaining - {v};
        if |t| == size {
          return t;
        }
      }
      assert t.Keys == m.Keys;
    } else {
      return c.solution;
    }
  }

  /** Trimming {x = 0, y = 5} to one variable keeps x, the lesser name. */
  lemma TrimToOneKeepsX(t: Model)
    requires IsTrimOf(t, map[IntVar("x", 0, 9) := IntC(0), IntVar("y", 0, 9) := IntC(5)], 1)
    ensures t == map[IntVar("x", 0, 9) := IntC(0)]
  {
    var x, y := IntVar("x", 0, 9), IntVar("y", 0, 9);
    assert |t.Keys| == 1;
    var w :| w in t.Keys;
    assert |t.Keys - {w}| == 0;
    assert t.Keys == {w};
    assert !NameLe(y, x);
    assert w == x;
  }

  /**
   * Trimming keeps the first names, not the target's variables: `y > 3` is
   * satisfied by the candidate {x = 0, y = 5}, yet the candidate trimmed to
   * the target's one variable is {x = 0}, which falsifies it.
   */
  lemma TrimCanDropNeededVariable(t: Model)
    requires IsTrimResult(1, SatEntry(0.0, map[IntVar("x", 0, 9) := IntC(0), IntVar("y", 0, 9) := IntC(5)], 2), t)
    ensures Ev.Satisfies(Binary(Gt, Var(IntVar("y", 0, 9)), IntConst(3)),
                         map[IntVar("x", 0, 9) := IntC(0), IntVar("y", 0, 9) := IntC(5)]) == Success(true)
    ensures t == map[IntVar("x", 0, 9) := IntC(0)]
    ensures Ev.Satisfies(Binary(Gt, Var(IntVar("y", 0, 9)), IntConst(3)), t) == Success(false)
  {
    var x, y := IntVar("x", 0, 9), IntVar("y", 0, 9);
    var m := map[x := IntC(0), y := IntC(5)];
    var target := Binary(Gt, Var(y), IntConst(3));
    assert |m| == 2 by {
      assert m.Keys == {x, y};
    }
    TrimToOneKeepsX(t);
    Ev.SatisfiesAgreesWithHolds(target, m);
    Ev.SatisfiesAgreesWithHolds(target, t);
  }

  // ---------------------------------------------------------------------
  // Scanning the extracted candidates

  /** How a scan of extracted candidates ended, and how many candidates it counted as tested. */
  datatype Scan = Found(index: nat, tested: nat) | Exhausted(tested: nat) | Faulted(fault: Fault, tested: nat)

  /** The index of the first null candidate from `i` on, or the length: where a scan stops. */
  function NullFreeEnd<T>(cands: seq<Option<T>>, i: nat): (n: nat)
    requires i <= |cands|
    ensures i <= n <= |cands| && (n < |cands| ==> cands[n].None?)
    ensures forall k :: i <= k < n ==> cands[k].Some?
    decreases |cands| - i
  {
    if i == |cands| || cands[i].None? then i else NullFreeEnd(cands, i + 1)
  }

  /** Candidate `k` is a cached model under which the evaluator finds the target false. */
  predicate Rejected(cands: seq<Option<SatEntry>>, e: Expr, k: nat)
    requires k < |cands|
  {
    cands[k].Some? && Ev.Satisfies(e, cands[k].value.solution) == Success(false)
  }

  /**
   * The loop of `sharesModel` from candidate `i` on: the first candidate the
   * evaluator finds satisfying is reused; a null candidate ends the scan; an
   * exception of the evaluator aborts the query.
   */
  function ScanModels(cands: seq<Option<SatEntry>>, e: Expr, i: nat): (r: Scan)
    requires i <= |cands|
    ensures r.Found? ==>
      && i <= r.index < |cands| && r.tested == r.index
      && cands[r.index].Some? && Ev.Satisfies(e, cands[r.index].value.solution) == Success(true)
      && forall k :: i <= k < r.index ==> Rejected(cands, e, k)
    ensures r.Exhausted? ==>
      && r.tested == NullFreeEnd(cands, i)
      && forall k :: i <= k < r.tested ==> Rejected(cands, e, k)
    ensures r.Faulted? ==>
      && i <= r.tested < |cands|
      && cands[r.tested].Some? && Ev.Satisfies(e, cands[r.tested].value.solution) == Failure(r.fault)
      && forall k :: i <= k < r.tested ==> Rejected(cands, e, k)
    decreases |cands| - i
  {
    if i == |cands| || cands[i].None? then Exhausted(i)
    else match Ev.Satisfies(e, cands[i].value.solution)
      case Failure(f) => Faulted(f, i)
      case Success(true) => Found(i, i)
      case Success(false) => ScanModels(cands, e, i + 1)
  }

  /** The loop of `sharesModel`: a fresh evaluator per candidate, until one is satisfying, null or throws. */
  method ScanCandidates(cands: seq<Option<SatEntry>>, e: Expr) returns (scan: Scan)
    ensures scan == ScanModels(cands, e, 0)
  {
    var i := 0;
    while i < |cands|
      invariant 0 <= i <= |cands|
      invariant ScanModels(cands, e, 0) == ScanModels(cands, e, i)
    {
      if cands[i].None? {
        break;
      }
      var evaluator := new Ev.ExpressionEvaluator(cands[i].value.solution);
      var o := evaluator.Accept(e);
      if o.Fail? {
        return Faulted(o.error, i);
      }
      var sat := evaluator.IsSat();
      if sat.Failure? {
        return Faulted(sat.error, i);
      }
      if sat.value {
        return Found(i, i);
      }
      i := i + 1;
    }
    scan := Exhausted(i);
  }

  /** The clause occurs in the query's string, parenthesised. */
  predicate ClauseOccurs(c: Expression, s: string)
  {
    Contains(s, "(" + c.rendering + ")")
  }

  /** A non-empty core every clause of which occurs in the query's string. */
  predicate CoreOccurs(core: set<Expression>, s: string)
  {
    |core| != 0 && forall c :: c in core ==> ClauseOccurs(c, s)
  }

  /** Every clause of a shared core occurs in the query's string at some index. */
  lemma SharedCoreOccurs(core: set<Expression>, s: string)
    requires CoreOccurs(core, s)
    ensures forall c :: c in core ==> exists i :: OccursAt(s, "(" + c.rendering + ")", i)
  {
    forall c | c in core
      ensures exists i :: OccursAt(s, "(" + c.rendering + ")", i)
    {
      assert ClauseOccurs(c, s);
      ContainsIffOccurs(s, "(" + c.rendering + ")");
    }
  }

  /**
   * The loop of `sharesUnsatCores` from candidate `i` on, `tested` non-empty
   * cores having failed so far: empty cores are skipped without being
   * counted, and the first core that occurs in the query is reused.
   */
  function ScanCores(cands: seq<Option<UnsatEntry>>, s: string, i: nat, tested: nat): (r: Scan)
    requires i <= |cands|
    ensures !r.Faulted? && r.tested >= tested
    ensures r.Found? ==>
      && i <= r.index < |cands| && cands[r.index].Some? && CoreOccurs(cands[r.index].value.solution, s)
      && forall k :: i <= k < r.index ==> cands[k].Some? && !CoreOccurs(cands[k].value.solution, s)
    ensures r.Exhausted? ==>
      forall k :: i <= k < NullFreeEnd(cands, i) ==> !CoreOccurs(cands[k].value.solution, s)
    decreases |cands| - i
  {
    if i == |cands| || cands[i].None? then Exhausted(tested)
    else if |cands[i].value.solution| == 0 then ScanCores(cands, s, i + 1, tested)
    else if CoreOccurs(cands[i].value.solution, s) then Found(i, tested)
    else ScanCores(cands, s, i + 1, tested + 1)
  }

  /** The repository key of a query's model lookup: its sat-delta and how many int variables it has. */
  function SatDummy(satDelta: real, size: int): SatEntry
  {
    SatEntry(satDelta, map[], size)
  }

  /** The repository key of a query's core lookup. */
  function UnsatDummy(satDelta: real): UnsatEntry
  {
    UnsatEntry(satDelta, {}, -1)
  }

  /** The stage at which `solve1` answered. */
  datatype Stage = DeltaHit | ModelReuse | CoreReuse | SolverCall | Aborted

  /** The service's logging counters, kept together in one record. */
  datatype Counters = Counters(
    invocationCount: int,
    satModelCount: int,
    sharesUnsatCoresCount: int,
    modelsTested: int,
    unsatCoresTested: int,
    solverCount: int,
    satEntryCount: int,
    unsatEntryCount: int,
    satCount: int,
    unsatCount: int,
    satCacheHitCount: int,
    unsatCacheHitCount: int,
    satCacheMissCount: int,
    unsatCacheMissCount: int,
    satDeltaIs0: int)

  const ZERO_COUNTERS: Counters := Counters(0, 0, 0, 0, 0, 0, 0, 0, 0, 0, 0, 0, 0, 0, 0)

  /** What `reset` leaves: the run counters zeroed; the invocation, tested and delta-hit counters kept. */
  function ResetCounters(c: Counters): (r: Counters)
    ensures r.invocationCount == c.invocationCount && r.modelsTested == c.modelsTested
    ensures r.unsatCoresTested == c.unsatCoresTested && r.satDeltaIs0 == c.satDeltaIs0
    ensures r.satCacheHitCount == 0 && r.satCacheMissCount == 0 && r.satEntryCount == 0 && r.unsatEntryCount == 0
    ensures r.satCount == 0 && r.satModelCount == 0 && r.solverCount == 0 && r.unsatCount == 0
    ensures r.unsatCacheHitCount == 0 && r.unsatCacheMissCount == 0 && r.sharesUnsatCoresCount == 0
  {
    c.(satCacheHitCount := 0, satCacheMissCount := 0, satEntryCount := 0, unsatEntryCount := 0,
       satCount := 0, satModelCount := 0, solverCount := 0, unsatCount := 0,
       unsatCacheHitCount := 0, unsatCacheMissCount := 0, sharesUnsatCoresCount := 0)
  }

  /**
   * The counters after `sharesModel` ends with `scan`: the tested models are
   * added; a reused model is a sat answer and a cache hit, an exhausted scan
   * a cache miss, and an exception counts nothing more.
   */
  function ModelScanCounters(c: Counters, scan: Scan): Counters
  {
    var tested := c.(modelsTested := c.modelsTested + scan.tested);
    match scan
    case Found(_, _) =>
      tested.(satModelCount := tested.satModelCount + 1, satCount := tested.satCount + 1,
              satCacheHitCount := tested.satCacheHitCount + 1)
    case Exhausted(_) => tested.(satCacheMissCount := tested.satCacheMissCount + 1)
    case Faulted(_, _) => tested
  }

  /**
   * The counters after `sharesUnsatCores` ends with `scan`: the tested cores
   * are added; a reused core is an unsat answer and a cache hit, an
   * exhausted scan a cache miss.
   */
  function CoreScanCounters(c: Counters, scan: Scan): Counters
  {
    var tested := c.(unsatCoresTested := c.unsatCoresTested + scan.tested);
    if scan.Found? then
      tested.(sharesUnsatCoresCount := tested.sharesUnsatCoresCount + 1, unsatCount := tested.unsatCount + 1,
              unsatCacheHitCount := tested.unsatCacheHitCount + 1)
    else tested.(unsatCacheMissCount := tested.unsatCacheMissCount + 1)
  }

  /** The counters after `callSolver`: one solver call, and one new entry of the answer's kind. */
  function SolverCounters(c: Counters, isSat: bool): Counters
  {
    var called := c.(solverCount := c.solverCount + 1);
    if isSat then called.(satEntryCount := called.satEntryCount + 1, satCount := called.satCount + 1)
    else called.(unsatEntryCount := called.unsatEntryCount + 1, unsatCount := called.unsatCount + 1)
  }

  class GruliaService {
    /** `SAT_REPO.extract(dummy, K)`: the repository is not part of this model; `None` stands for null. */
    const extractSat: (multiset<SatEntry>, SatEntry, int) -> Option<seq<Option<SatEntry>>>
    /** `UNSAT_REPO.extract(dummy, K)`. */
    const extractUnsat: (multiset<UnsatEntry>, UnsatEntry, int) -> Option<seq<Option<UnsatEntry>>>
    /** The model-core service that calls the solver. */
    const mcs: ModelCoreService
    var satRepo: multiset<SatEntry>
    var unsatRepo: multiset<UnsatEntry>
    var counters: Counters

    /** The constructor; loading earlier entries from the store is not part of this model, so both repositories start empty. */
    constructor (extractSat: (multiset<SatEntry>, SatEntry, int) -> Option<seq<Option<SatEntry>>>,
                 extractUnsat: (multiset<UnsatEntry>, UnsatEntry, int) -> Option<seq<Option<UnsatEntry>>>,
                 mcs: ModelCoreService)
      ensures this.extractSat == extractSat && this.extractUnsat == extractUnsat && this.mcs == mcs
      ensures satRepo == multiset{} && unsatRepo == multiset{} && counters == ZERO_COUNTERS
    {
      this.extractSat := extractSat;
      this.extractUnsat := extractUnsat;
      this.mcs := mcs;
      satRepo := multiset{};
      unsatRepo := multiset{};
      counters := ZERO_COUNTERS;
    }

    /** The cached models `sharesModel` scans: none for an empty repository or a null or empty extraction. */
    function SatCandidates(dummy: SatEntry): seq<Option<SatEntry>>
      reads this`satRepo
    {
      if |satRepo| == 0 then []
      else match extractSat(satRepo, dummy, K)
        case None => []
        case Some(cands) => cands
    }

    /** The cached cores `sharesUnsatCores` scans. */
    function UnsatCandidates(dummy: UnsatEntry): seq<Option<UnsatEntry>>
      reads this`unsatRepo
    {
      if |unsatRepo| == 0 then []
      else match extractUnsat(unsatRepo, dummy, K)
        case None => []
        case Some(cands) => cands
    }

    /** `reset`: zeroes the run counters; the repositories stay. */
    method Reset()
      modifies this`counters
      ensures counters == ResetCounters(old(counters))
    {
      counters := counters.(satCacheHitCount := 0);
      counters := counters.(satCacheMissCount := 0);
      counters := counters.(satEntryCount := 0, unsatEntryCount := 0);
      counters := counters.(satCount := 0);
      counters := counters.(satModelCount := 0);
      counters := counters.(solverCount := 0);
      counters := counters.(unsatCount := 0);
      counters := counters.(unsatCacheHitCount := 0);
      counters := counters.(unsatCacheMissCount := 0);
      counters := counters.(sharesUnsatCoresCount := 0);
    }

    /**
     * `calculateSATDelta`: probes the reference values in order with one
     * visitor. The first probe scoring zero is a hit, recorded as sat; else
     * the mean delta is written into the expression.
     */
    method CalculateSatDelta(expr: Expression) returns (r: Result<DeltaOutcome, Fault>)
      modifies this`counters, expr`satDelta
      ensures r == SatDeltaProbe(expr.tree)
      ensures (counters, expr.satDelta) == Recorded(r, old(counters), old(expr.satDelta))
    {
      r := ProbeAll(expr.tree);
      match r
      case Success(Hit(_)) =>
        counters := counters.(satDeltaIs0 := counters.satDeltaIs0 + 1);
        expr.satDelta := 0.0;
        counters := counters.(satCount := counters.satCount + 1);
      case Success(Miss(mean)) =>
        expr.satDelta := mean;
      case Failure(_) =>
    }

    /**
     * `sharesModel`: scans the extracted models, reuses the first one the
     * evaluator finds satisfying (trimmed to the dummy's size), and counts a
     * miss on every other path that does not throw.
     */
    method SharesModel(dummy: SatEntry, expr: Expression) returns (r: Result<Option<Model>, Fault>)
      modifies this`counters
      ensures var cands := SatCandidates(dummy);
        var scan := ScanModels(cands, expr.tree, 0);
        && counters == ModelScanCounters(old(counters), scan)
        && (scan.Found? ==>
              r.Success? && r.value.Some? && IsTrimResult(dummy.size, cands[scan.index].value, r.value.value))
        && (scan.Exhausted? ==> r == Success(None))
        && (scan.Faulted? ==> r == Failure(scan.fault))
    {
      var cands: seq<Option<SatEntry>> := [];
      if |satRepo| != 0 {
        var models := extractSat(satRepo, dummy, K);
        if models.None? || models.value == [] {
          counters := counters.(satCacheMissCount := counters.satCacheMissCount + 1);
          return Success(None);
        }
        cands := models.value;
      }
      assert cands == SatCandidates(dummy);
      var scan := ScanCandidates(cands, expr.tree);
      counters := counters.(modelsTested := counters.modelsTested + scan.tested);
      match scan
      case Faulted(f, _) =>
        r := Failure(f);
      case Found(index, _) =>
        counters := counters.(satModelCount := counters.satModelCount + 1);
        counters := counters.(satCount := counters.satCount + 1);
        counters := counters.(satCacheHitCount := counters.satCacheHitCount + 1);
        var t := TrimSolution(dummy.size, cands[index].value);
        r := Success(Some(t));
      case Exhausted(_) =>
        counters := counters.(satCacheMissCount := counters.satCacheMissCount + 1);
        r := Success(None);
    }

    /** The inner loop of `sharesUnsatCores`: whether every clause of the core occurs, parenthesised, in the query's string. */
    method ClausesOccur(core: set<Expression>, exprStr: string) returns (shares: bool)
      ensures shares <==> forall c :: c in core ==> ClauseOccurs(c, exprStr)
    {
      shares := true;
      var rest := core;
      while rest != {}
        invariant rest <= core
        invariant shares && forall c :: c in core && c !in rest ==> ClauseOccurs(c, exprStr)
        decreases |rest|
      {
        var clause :| clause in rest;
        if !Contains(exprStr, "(" + clause.rendering + ")") {
          shares := false;
          return;
        }
        rest := rest - {clause};
      }
    }

    /**
     * `sharesUnsatCores`: scans the extracted cores, skipping empty ones, and
     * reuses the first whose every clause occurs in the query's string.
     */
    method SharesUnsatCores(dummy: UnsatEntry, expr: Expression) returns (r: Option<set<Expression>>)
      modifies this`counters
      ensures var cands := UnsatCandidates(dummy);
        var scan := ScanCores(cands, expr.rendering, 0, 0);
        && counters == CoreScanCounters(old(counters), scan)
        && (scan.Found? ==> r == Some(cands[scan.index].value.solution))
        && (scan.Exhausted? ==> r == None)
    {
      var cands: seq<Option<UnsatEntry>> := [];
      if |unsatRepo| != 0 {
        var cores := extractUnsat(unsatRepo, dummy, K);
        if cores.None? || cores.value == [] {
          counters := counters.(unsatCacheMissCount := counters.unsatCacheMissCount + 1);
          return None;
        }
        cands := cores.value;
      }
      assert cands == UnsatCandidates(dummy);
      var exprStr := expr.rendering;
      var i := 0;
      ghost var tested: nat := 0;
      while i < |cands|
        invariant 0 <= i <= |cands|
        invariant ScanCores(cands, exprStr, 0, 0) == ScanCores(cands, exprStr, i, tested)
        invariant counters == old(counters).(unsatCoresTested := old(counters).unsatCoresTested + tested)
      {
        if cands[i].None? {
          break;
        }
        var core := cands[i].value.solution;
        if |core| != 0 {
          var shares := ClausesOccur(core, exprStr);
          if shares {
            counters := counters.(sharesUnsatCoresCount := counters.sharesUnsatCoresCount + 1);
            counters := counters.(unsatCount := counters.unsatCount + 1);
            counters := counters.(unsatCacheHitCount := counters.unsatCacheHitCount + 1);
            return Some(core);
          }
          counters := counters.(unsatCoresTested := counters.unsatCoresTested + 1);
          tested := tested + 1;
        }
        i := i + 1;
      }
      counters := counters.(unsatCacheMissCount := counters.unsatCacheMissCount + 1);
      r := None;
    }

    /**
     * `callSolver`: one call of the model-core service; a model is added to
     * the model repository and returned, a core is added to the core
     * repository and null returned. The other repository is untouched.
     */
    method CallSolver(satDelta: real, expr: Expression) returns (r: Option<Model>)
      modifies this`satRepo, this`unsatRepo, this`counters, mcs`invocationCount, mcs`satMissCount, mcs`unsatMissCount
      ensures var answer := mcs.modelCore(expr.tree);
        && counters == SolverCounters(old(counters), answer.isSat)
        && mcs.invocationCount == old(mcs.invocationCount) + 1
        && mcs.satMissCount == old(mcs.satMissCount) + (if answer.isSat then 1 else 0)
        && mcs.unsatMissCount == old(mcs.unsatMissCount) + (if answer.isSat then 0 else 1)
        && (answer.isSat ==>
              && r == Some(answer.model)
              && satRepo == old(satRepo) + multiset{NewSatEntry(satDelta, answer.model)} && unsatRepo == old(unsatRepo))
        && (!answer.isSat ==>
              && r == None
              && unsatRepo == old(unsatRepo) + multiset{NewUnsatEntry(satDelta, answer.core)} && satRepo == old(satRepo))
    {
      counters := counters.(solverCount := counters.solverCount + 1);
      var data := Consult(expr);
      ghost var answer := mcs.modelCore(expr.tree);
      SolvedReadsBack(map[], answer, expr.satDelta);
      assert IsSat(data) == Success(Some(answer.isSat));
      var isSat := IsSat(data);
      if isSat == Success(Some(true)) {
        var model := GetModel(data);
        r := CacheModel(satDelta, model.value);
      } else {
        var core := GetCore(data);
        CacheCore(satDelta, core.value);
        r := None;
      }
    }

    /** A fresh instance of the query handed to the model-core service: its data is the solver's answer. */
    method Consult(expr: Expression) returns (data: map<DataKey, Datum>)
      modifies mcs`invocationCount, mcs`satMissCount, mcs`unsatMissCount
      ensures data == Solved(map[], mcs.modelCore(expr.tree), expr.satDelta)
      ensures mcs.invocationCount == old(mcs.invocationCount) + 1
      ensures mcs.satMissCount == old(mcs.satMissCount) + (if mcs.modelCore(expr.tree).isSat then 1 else 0)
      ensures mcs.unsatMissCount == old(mcs.unsatMissCount) + (if mcs.modelCore(expr.tree).isSat then 0 else 1)
    {
      var i := new Instance(expr);
      mcs.ProcessRequest(i);
      data := i.data;
    }

    /** The sat branch of `callSolver`: the model is cached under the query's sat-delta. */
    method CacheModel(satDelta: real, model: Model) returns (r: Option<Model>)
      modifies this`satRepo, this`counters
      ensures r == Some(model)
      ensures satRepo == old(satRepo) + multiset{NewSatEntry(satDelta, model)}
      ensures counters == old(counters).(satEntryCount := old(counters).satEntryCount + 1, satCount := old(counters).satCount + 1)
    {
      var newEntry := NewSatEntry(satDelta, model);
      satRepo := satRepo + multiset{newEntry};
      counters := counters.(satEntryCount := counters.satEntryCount + 1);
      counters := counters.(satCount := counters.satCount + 1);
      r := Some(model);
    }

    /** The unsat branch of `callSolver`: the core is cached under the query's sat-delta. */
    method CacheCore(satDelta: real, core: set<Expression>)
      modifies this`unsatRepo, this`counters
      ensures unsatRepo == old(unsatRepo) + multiset{NewUnsatEntry(satDelta, core)}
      ensures counters == old(counters).(unsatEntryCount := old(counters).unsatEntryCount + 1, unsatCount := old(counters).unsatCount + 1)
    {
      var newEntry := NewUnsatEntry(satDelta, core);
      unsatRepo := unsatRepo + multiset{newEntry};
      counters := counters.(unsatEntryCount := counters.unsatEntryCount + 1);
      counters := counters.(unsatCount := counters.unsatCount + 1);
    }

    /**
     * `solve1`: the delta probes, then the model repository, then the core
     * repository, then the solver. Only the solver stage changes a
     * repository, by exactly one entry; an exception aborts the query.
     */
    method Solve1(instance: Instance) returns (r: Result<Option<Model>, Fault>, ghost stage: Stage)
      modifies this`satRepo, this`unsatRepo, this`counters, instance.expression`satDelta
      modifies mcs`invocationCount, mcs`satMissCount, mcs`unsatMissCount
      ensures counters.invocationCount == old(counters).invocationCount + 1
      ensures stage != SolverCall ==>
        && satRepo == old(satRepo) && unsatRepo == old(unsatRepo) && counters.solverCount == old(counters).solverCount
        && mcs.invocationCount == old(mcs.invocationCount)
        && mcs.satMissCount == old(mcs.satMissCount) && mcs.unsatMissCount == old(mcs.unsatMissCount)
      ensures var e := instance.expression.tree;
        var probe := SatDeltaProbe(e);
        var invoked := old(counters).(invocationCount := old(counters).invocationCount + 1);
        && (probe.Failure? ==>
              stage == Aborted && r == Failure(probe.error)
              && counters == invoked && instance.expression.satDelta == old(instance.expression.satDelta))
        && (probe.Success? && probe.value.Hit? ==>
              stage == DeltaHit && r == Success(Some(probe.value.model))
              && (counters, instance.expression.satDelta) == Recorded(probe, invoked, old(instance.expression.satDelta)))
        && (probe.Success? && probe.value.Miss? ==>
              var delta := probe.value.mean;
              var cands := old(SatCandidates(SatDummy(delta, DummySize(e))));
              var scan := ScanModels(cands, e, 0);
              var scanned := ModelScanCounters(invoked, scan);
              && instance.expression.satDelta == delta
              && (scan.Found? ==>
                    stage == ModelReuse && counters == scanned && r.Success? && r.value.Some?
                    && IsTrimResult(DummySize(e), cands[scan.index].value, r.value.value))
              && (scan.Faulted? ==> stage == Aborted && counters == scanned && r == Failure(scan.fault))
              && (scan.Exhausted? ==>
                    var cscan := ScanCores(old(UnsatCandidates(UnsatDummy(delta))), instance.expression.rendering, 0, 0);
                    var coreScanned := CoreScanCounters(scanned, cscan);
                    && (cscan.Found? ==> stage == CoreReuse && counters == coreScanned && r == Success(None))
                    && (cscan.Exhausted? ==>
                          var answer := mcs.modelCore(e);
                          && stage == SolverCall && counters == SolverCounters(coreScanned, answer.isSat)
                          && mcs.invocationCount == old(mcs.invocationCount) + 1
                          && mcs.satMissCount == old(mcs.satMissCount) + (if answer.isSat then 1 else 0)
                          && mcs.unsatMissCount == old(mcs.unsatMissCount) + (if answer.isSat then 0 else 1)
                          && (answer.isSat ==>
                                r == Success(Some(answer.model)) && unsatRepo == old(unsatRepo)
                                && satRepo == old(satRepo) + multiset{NewSatEntry(delta, answer.model)})
                          && (!answer.isSat ==>
                                r == Success(None) && satRepo == old(satRepo)
                                && unsatRepo == old(unsatRepo) + multiset{NewUnsatEntry(delta, answer.core)}))))
    {
      counters := counters.(invocationCount := counters.invocationCount + 1);
      var target := instance.expression;
      var exprVisitor := new VariableCollector();
      exprVisitor.Accept(target.tree);
      var size := |exprVisitor.variableSet|;
      assert size == DummySize(target.tree);

      var deltaAndModel := CalculateSatDelta(target);
      if deltaAndModel.Failure? {
        return Failure(deltaAndModel.error), Aborted;
      }
      if deltaAndModel.value.Hit? {
        return Success(Some(deltaAndModel.value.model)), DeltaHit;
      }
      var satDelta := deltaAndModel.value.mean;

      var model := SharesModel(SatDummy(satDelta, size), target);
      if model.Failure? {
        return model, Aborted;
      }
      if model.value.Some? {
        return model, ModelReuse;
      }

      var core := SharesUnsatCores(UnsatDummy(satDelta), target);
      if core.Some? {
        return Success(None), CoreReuse;
      }

      var solved := CallSolver(satDelta, target);
      r, stage := Success(solved), SolverCall;
    }
  }
}
