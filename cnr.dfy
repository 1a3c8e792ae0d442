/**
 * CNRService: counts the solutions of a query with the Barvinok tool. The
 * query is translated to ISL, the tool's output is either a count in braces
 * or a formula of cases that is kept in the store under the query's cached
 * string, and the cases are evaluated under the model the BoundsVisitor
 * builds: for every integer variable `v`, two fixed variables `vmin` and
 * `vmax` holding its bounds. The ISL translator, the tool itself and the
 * evaluator of the cases are not part of this model.
 */
module Cnr {
  import opened Wrappers
  import opened JavaLang
  import opened Ast
  import opened Expressions
  import opened Green

  /** The tool's answer as Green expressions: each case guard with its count expression. */
  type Cases = map<Expr, Expr>

  /** `v+"min"`, fixed at the lower bound of `v`. */
  function MinVar(v: Variable): Variable
    requires v.IntVar?
  {
    IntVar(v.name + "min", v.lower, v.lower)
  }

  /** `v+"max"`, fixed at the upper bound of `v`. */
  function MaxVar(v: Variable): Variable
    requires v.IntVar?
  {
    IntVar(v.name + "max", v.upper, v.upper)
  }

  /** The fields the BoundsVisitor updates: the variables seen, the bound variables, and their values. */
  datatype BoundsState = BoundsState(vars: set<Variable>, bounds: seq<Variable>, modelMapping: map<Variable, int>)

  const NoBounds: BoundsState := BoundsState({}, [], map[])

  /**
   * `BoundsVisitor.postVisit(Variable)`: a variable seen before changes
   * nothing; a new one must be an IntVariable (the cast throws otherwise)
   * and adds its two bound variables and their values.
   */
  function VisitBound(st: BoundsState, v: Variable): Result<BoundsState, Fault>
  {
    if v in st.vars then Success(st)
    else if !v.IntVar? then Failure(ClassCast)
    else Success(BoundsState(
      st.vars + {v},
      st.bounds + [MinVar(v), MaxVar(v)],
      st.modelMapping[MinVar(v) := v.lower][MaxVar(v) := v.upper]))
  }

  /** The visit of the variables `vs` in order; only variables have a `postVisit` here. */
  function BoundsFrom(st: BoundsState, vs: seq<Variable>): Result<BoundsState, Fault>
    decreases |vs|
  {
    if vs == [] then Success(st)
    else match VisitBound(st, vs[0])
      case Failure(f) => Failure(f)
      case Success(s) => BoundsFrom(s, vs[1..])
  }

  /** The bound variables of `vs`, two per variable, in order. */
  function BoundPairs(vs: seq<Variable>): seq<Variable>
    requires forall v :: v in vs ==> v.IntVar?
    decreases |vs|
  {
    if vs == [] then [] else [MinVar(vs[0]), MaxVar(vs[0])] + BoundPairs(vs[1..])
  }

  lemma {:induction false} BoundsFromAppend(st: BoundsState, a: seq<Variable>, b: seq<Variable>)
    ensures BoundsFrom(st, a + b) ==
      match BoundsFrom(st, a) case Failure(f) => Failure(f) case Success(s) => BoundsFrom(s, b)
    decreases |a|
  {
    if a == [] {
      assert a + b == b;
    } else {
      assert (a + b)[1..] == a[1..] + b;
      assert (a + b)[0] == a[0];
      if VisitBound(st, a[0]).Success? {
        BoundsFromAppend(VisitBound(st, a[0]).value, a[1..], b);
      }
    }
  }

  /** Every bound variable the visitor recorded is mapped to the one value its domain allows. */
  predicate Fixed(st: BoundsState)
  {
    forall w :: w in st.modelMapping ==> w.IntVar? && w.lower == w.upper && st.modelMapping[w] == w.lower
  }

  /** Every variable seen is an IntVariable whose two bound variables are recorded. */
  predicate Covers(st: BoundsState)
  {
    forall v :: v in st.vars ==> v.IntVar? && MinVar(v) in st.modelMapping && MaxVar(v) in st.modelMapping
  }

  lemma VisitBoundKeeps(st: BoundsState, v: Variable)
    requires Fixed(st) && Covers(st) && VisitBound(st, v).Success?
    ensures Fixed(VisitBound(st, v).value) && Covers(VisitBound(st, v).value)
  {
  }

  /** The visit fails exactly when a variable met for the first time is not an IntVariable. */
  lemma {:induction false} BoundsFromSucceeds(st: BoundsState, vs: seq<Variable>)
    ensures BoundsFrom(st, vs).Success? <==> forall v :: v in vs && v !in st.vars ==> v.IntVar?
    ensures BoundsFrom(st, vs).Failure? ==> BoundsFrom(st, vs).error == ClassCast
    decreases |vs|
  {
    if vs != [] {
      var v := vs[0];
      if VisitBound(st, v).Success? {
        BoundsFromSucceeds(VisitBound(st, v).value, vs[1..]);
        assert forall u :: u in vs ==> u == v || u in vs[1..];
      }
    }
  }

  /** A successful visit adds exactly the variables of `vs` to `vars`. */
  lemma {:induction false} BoundsFromVars(st: BoundsState, vs: seq<Variable>)
    requires BoundsFrom(st, vs).Success?
    ensures BoundsFrom(st, vs).value.vars == st.vars + (set v | v in vs)
    decreases |vs|
  {
    if vs != [] {
      BoundsFromVars(VisitBound(st, vs[0]).value, vs[1..]);
      assert (set u | u in vs) == {vs[0]} + set u | u in vs[1..];
    }
  }

  /**
   * A successful visit appends the two bound variables of each variable
   * met for the first time, in the order of first occurrence.
   */
  lemma {:induction false} BoundsFromBounds(st: BoundsState, vs: seq<Variable>)
    requires BoundsFrom(st, vs).Success?
    ensures forall v :: v in vs && v !in st.vars ==> v.IntVar?
    ensures BoundsFrom(st, vs).value.bounds == st.bounds + BoundPairs(FirstOccurrences(vs, st.vars))
    decreases |vs|
  {
    BoundsFromSucceeds(st, vs);
    if vs != [] {
      var v := vs[0];
      var s := VisitBound(st, v).value;
      BoundsFromBounds(s, vs[1..]);
      if v !in st.vars {
        var firsts := FirstOccurrences(vs[1..], st.vars + {v});
        assert FirstOccurrences(vs, st.vars) == [v] + firsts;
        assert BoundPairs([v] + firsts) == [MinVar(v), MaxVar(v)] + BoundPairs(firsts) by {
          assert ([v] + firsts)[1..] == firsts;
        }
        assert s.bounds == st.bounds + [MinVar(v), MaxVar(v)];
      } else {
        assert FirstOccurrences(vs, st.vars) == FirstOccurrences(vs[1..], st.vars);
      }
    }
  }

  /** A successful visit keeps every bound variable fixed at its value and records both bounds of every variable. */
  lemma {:induction false} BoundsFromMapping(st: BoundsState, vs: seq<Variable>)
    requires Fixed(st) && Covers(st) && BoundsFrom(st, vs).Success?
    ensures Fixed(BoundsFrom(st, vs).value) && Covers(BoundsFrom(st, vs).value)
    decreases |vs|
  {
    if vs != [] {
      VisitBoundKeeps(st, vs[0]);
      BoundsFromMapping(VisitBound(st, vs[0]).value, vs[1..]);
    }
  }

  /**
   * From fresh fields, the bounds of an expression over IntVariables are
   * the two bound variables of each distinct variable, in order of first
   * occurrence, and the model maps `vmin` to the lower and `vmax` to the
   * upper bound of every variable `v`. Any other kind of variable throws.
   */
  lemma BoundsOfExpression(e: Expr)
    ensures BoundsFrom(NoBounds, Vars(e)).Success? <==> forall v :: v in Vars(e) ==> v.IntVar?
    ensures BoundsFrom(NoBounds, Vars(e)).Failure? ==> BoundsFrom(NoBounds, Vars(e)).error == ClassCast
    ensures BoundsFrom(NoBounds, Vars(e)).Success? ==>
      var r := BoundsFrom(NoBounds, Vars(e)).value;
      && r.vars == (set v | v in Vars(e))
      && r.bounds == BoundPairs(FirstOccurrences(Vars(e), {}))
      && forall v :: v in Vars(e) ==>
           && MinVar(v) in r.modelMapping && r.modelMapping[MinVar(v)] == v.lower
           && MaxVar(v) in r.modelMapping && r.modelMapping[MaxVar(v)] == v.upper
  {
    BoundsFromSucceeds(NoBounds, Vars(e));
    if BoundsFrom(NoBounds, Vars(e)).Success? {
      BoundsFromVars(NoBounds, Vars(e));
      BoundsFromBounds(NoBounds, Vars(e));
      BoundsFromMapping(NoBounds, Vars(e));
      assert [] + BoundPairs(FirstOccurrences(Vars(e), {})) == BoundPairs(FirstOccurrences(Vars(e), {}));
    }
  }

  /** Variables already seen change nothing: visiting an expression a second time leaves the fields as they are. */
  lemma {:induction false} RevisitChangesNothing(st: BoundsState, vs: seq<Variable>)
    requires forall v :: v in vs ==> v in st.vars
    ensures BoundsFrom(st, vs) == Success(st)
    decreases |vs|
  {
    if vs != [] {
      RevisitChangesNothing(st, vs[1..]);
    }
  }

  /** BoundsVisitor over the service's `vars` and `bounds`, with its own model mapping. */
  class BoundsVisitor {
    var vars: set<Variable>
    var bounds: seq<Variable>
    var modelMapping: map<Variable, int>

    function State(): BoundsState
      reads this
    {
      BoundsState(vars, bounds, modelMapping)
    }

    constructor (vars: set<Variable>, bounds: seq<Variable>)
      ensures State() == BoundsState(vars, bounds, map[])
    {
      this.vars := vars;
      this.bounds := bounds;
      modelMapping := map[];
    }

    /** `postVisit(Variable)`. */
    method PostVisitVariable(v: Variable) returns (o: Outcome<Fault>)
      modifies this
      ensures VisitBound(old(State()), v).Success? ==> o == Pass && State() == VisitBound(old(State()), v).value
      ensures VisitBound(old(State()), v).Failure? ==> o == Fail(VisitBound(old(State()), v).error)
    {
      if v !in vars {
        if !v.IntVar? {
          return Fail(ClassCast);
        }
        vars := vars + {v};
        var lowerVar := IntVar(v.name + "min", v.lower, v.lower);
        var upperVar := IntVar(v.name + "max", v.upper, v.upper);
        bounds := bounds + [lowerVar];
        bounds := bounds + [upperVar];
        modelMapping := modelMapping[lowerVar := v.lower];
        modelMapping := modelMapping[upperVar := v.upper];
      }
      o := Pass;
    }

    /** `expression.accept(visitor)`: constants and operations have nothing to do. */
    method Accept(e: Expr) returns (o: Outcome<Fault>)
      modifies this
      ensures BoundsFrom(old(State()), Vars(e)).Success? ==> o == Pass && State() == BoundsFrom(old(State()), Vars(e)).value
      ensures BoundsFrom(old(State()), Vars(e)).Failure? ==> o == Fail(BoundsFrom(old(State()), Vars(e)).error)
      decreases e
    {
      match e
      case Var(v) =>
        o := PostVisitVariable(v);
        assert [v][1..] == [];
      case Unary(_, x) =>
        o := Accept(x);
      case Binary(_, l, r) =>
        ghost var st0 := State();
        BoundsFromAppend(st0, Vars(l), Vars(r));
        o := Accept(l);
        if o.Pass? {
          o := Accept(r);
        }
      case _ =>
        o := Pass;
    }
  }

  /** `result.substring(1, result.lastIndexOf('}')).trim()`, which throws when there is no `}`. */
  function StripCount(s: string): Result<string, Fault>
  {
    match Substring(s, 1, LastIndexOf(s, '}'))
    case Failure(f) => Failure(f)
    case Success(inner) => Success(Trim(inner))
  }

  /** The text between the opening brace and the last closing one, trimmed. */
  lemma StripBraces(body: string, rest: string)
    requires '}' !in rest
    ensures StripCount("{" + body + "}" + rest) == Success(Trim(body))
  {
    var s := "{" + body + "}" + rest;
    assert s[|body| + 1] == '}';
    forall k | |body| + 1 < k < |s|
      ensures s[k] != '}'
    {
      assert s[k] == rest[k - |body| - 2];
    }
    assert LastIndexOf(s, '}') == |body| + 1;
    assert s[1..|body| + 1] == body;
  }

  /** Without a closing brace the substring's end is -1, and `substring` throws. */
  lemma NoClosingBrace(s: string)
    requires '}' !in s
    ensures StripCount(s) == Failure(IndexOutOfBounds)
  {
  }

  /**
   * The Barvinok side of `solve0`: the ISL translation (`None` when the
   * translator raised a VisitorException, which `solve0` catches), the tool's
   * output, and the cases parsed from a formula. A count in braces is
   * stripped and then dropped: no cases come of it.
   */
  function ToolCases(toIsl: Expr -> Option<string>, iscc: string -> string, parse: string -> Cases, e: Expr): Result<Option<Cases>, Fault>
  {
    match toIsl(e)
    case None => Success(None)
    case Some(isl) =>
      var out := iscc(isl);
      if StartsWith(out, "{") then
        (match StripCount(out) case Failure(f) => Failure(f) case Success(_) => Success(None))
      else if StartsWith(out, "[") then Success(Some(parse(out)))
      else Success(None)
  }

  /**
   * The end of `solve0`: the bounds visit over the expression, then the
   * evaluation of the cases under its model; `cases.keySet()` throws when
   * there are no cases, and a VisitorException of the evaluator gives -1.
   */
  function Count(e: Expr, cases: Option<Cases>, evaluate: (Cases, map<Variable, int>) -> Option<int>): Result<int, Fault>
  {
    match BoundsFrom(NoBounds, Vars(e))
    case Failure(f) => Failure(f)
    case Success(b) =>
      if cases.None? then Failure(NullPointer)
      else Success(match evaluate(cases.value, b.modelMapping) case Some(n) => n case None => -1)
  }

  /**
   * A count in braces never reaches the caller: the stripped text is
   * discarded, no cases come of it, and `solve0` then throws.
   */
  lemma BracedCountIsLost(toIsl: Expr -> Option<string>, iscc: string -> string, parse: string -> Cases,
                          evaluate: (Cases, map<Variable, int>) -> Option<int>, e: Expr)
    requires toIsl(e).Some? && StartsWith(iscc(toIsl(e).value), "{")
    ensures ToolCases(toIsl, iscc, parse, e).Failure? || ToolCases(toIsl, iscc, parse, e) == Success(None)
    ensures Count(e, None, evaluate).Failure?
  {
  }

  /** The store lookup `(HashMap) store.get(key)`: another kind of datum fails the cast. */
  function Lookup(entries: map<string, Datum>, key: string): (r: Result<Option<Cases>, Fault>)
    ensures r == Success(None) <==> key !in entries
    ensures r.Success? && r.value.Some? <==> key in entries && entries[key].CasesDatum?
    ensures r.Success? && r.value.Some? ==> r.value.value == entries[key].cases
    ensures r.Failure? ==> r.error == ClassCast
  {
    if key !in entries then Success(None)
    else match entries[key]
      case CasesDatum(c) => Success(Some(c))
      case _ => Failure(ClassCast)
  }

  /** The cast `(Apint) instance.getData(getClass())`. */
  function StoredCount(data: map<DataKey, Datum>, key: DataKey): (r: Result<Option<int>, Fault>)
    ensures r == Success(None) <==> key !in data
    ensures r.Success? && r.value.Some? <==> key in data && data[key].CountDatum?
    ensures r.Success? && r.value.Some? ==> r.value.value == data[key].count
    ensures r.Failure? ==> r.error == ClassCast
  {
    if key !in data then Success(None)
    else match data[key]
      case CountDatum(n) => Success(Some(n))
      case _ => Failure(ClassCast)
  }

  class CnrService {
    /** The name of the service class, the key of its instance data. */
    const className: string
    /** `translate(instance)`: the ISL translator; `None` when it raises a VisitorException. */
    const toIsl: Expr -> Option<string>
    /** `invokeISCC`: writes the input file and runs the tool. */
    const iscc: string -> string
    /** `translate(String)`: parses the tool's formula into cases. */
    const parse: string -> Cases
    /** The EvaluatorVisitor's loop over the cases; `None` when it raises a VisitorException. */
    const evaluate: (Cases, map<Variable, int>) -> Option<int>
    /** The store, or null. */
    const store: Store?
    var cacheHitCount: int
    var cacheMissCount: int
    var invocationCount: int
    var vars: set<Variable>
    var bounds: seq<Variable>

    constructor (className: string, toIsl: Expr -> Option<string>, iscc: string -> string, parse: string -> Cases,
                 evaluate: (Cases, map<Variable, int>) -> Option<int>, store: Store?)
      ensures this.className == className && this.toIsl == toIsl && this.iscc == iscc
      ensures this.parse == parse && this.evaluate == evaluate && this.store == store
      ensures cacheHitCount == 0 && cacheMissCount == 0 && invocationCount == 0
    {
      this.className := className;
      this.toIsl := toIsl;
      this.iscc := iscc;
      this.parse := parse;
      this.evaluate := evaluate;
      this.store := store;
      cacheHitCount := 0;
      cacheMissCount := 0;
      invocationCount := 0;
      vars := {};
      bounds := [];
    }

    /** The count `solve0` answers, given the store lookup (`None` when there is no store). */
    function Answer(e: Expr, lookup: Option<Result<Option<Cases>, Fault>>): Result<int, Fault>
    {
      match lookup
      case Some(Failure(f)) => Failure(f)
      case Some(Success(Some(c))) => Count(e, Some(c), evaluate)
      case _ =>
        match ToolCases(toIsl, iscc, parse, e)
        case Failure(f) => Failure(f)
        case Success(c) => Count(e, c, evaluate)
    }

    /**
     * A hit answers what the miss that filled the entry answered: once a
     * miss has stored the parsed cases under the key, the next lookup finds
     * them and the count is the same.
     */
    lemma HitAgreesWithMiss(e: Expr, entries: map<string, Datum>, key: string)
      requires Lookup(entries, key) == Success(None)
      requires ToolCases(toIsl, iscc, parse, e).Success? && ToolCases(toIsl, iscc, parse, e).value.Some?
      ensures var c := ToolCases(toIsl, iscc, parse, e).value.value;
        && Lookup(entries[key := CasesDatum(c)], key) == Success(Some(c))
        && Answer(e, Some(Lookup(entries[key := CasesDatum(c)], key))) == Answer(e, Some(Lookup(entries, key)))
    {
    }

    /**
     * The translation and the run of the tool inside `solve0`: a count in
     * braces is stripped, a formula is parsed into cases.
     */
    method RunTool(e: Expr) returns (r: Result<Option<Cases>, Fault>)
      ensures r == ToolCases(toIsl, iscc, parse, e)
    {
      var isl := toIsl(e);
      if isl.None? {
        return Success(None);
      }
      var result := iscc(isl.value);
      if StartsWith(result, "{") {
        var stripped := StripCount(result);
        if stripped.Failure? {
          return Failure(stripped.error);
        }
        result := stripped.value;
        r := Success(None);
      } else if StartsWith(result, "[") {
        r := Success(Some(parse(result)));
      } else {
        r := Success(None);
      }
    }

    /**
     * The end of `solve0`: the BoundsVisitor over the service's `vars` and
     * `bounds`, emptied at the start of `solve0`, then the evaluation of the
     * cases.
     */
    method CountCases(e: Expr, cases: Option<Cases>) returns (r: Result<int, Fault>)
      requires vars == {} && bounds == []
      modifies this`vars, this`bounds
      ensures r == Count(e, cases, evaluate)
      ensures r.Success? ==> var b := BoundsFrom(NoBounds, Vars(e)).value; vars == b.vars && bounds == b.bounds
    {
      var bv := new BoundsVisitor(vars, bounds);
      var o := bv.Accept(e);
      vars, bounds := bv.vars, bv.bounds;
      if o.Fail? {
        return Failure(o.error);
      }
      if cases.None? {
        return Failure(NullPointer);
      }
      var count := evaluate(cases.value, bv.modelMapping);
      r := Success(if count.Some? then count.value else -1);
    }

    /**
     * What `solve0` does to the cache counters and the store, from the store
     * entries `entries` and the counters `hits` and `misses` it started with:
     * a hit or a miss is counted by the lookup of `key`, and only a miss whose
     * tool output is a formula puts its cases; without a store nothing changes.
     */
    ghost predicate CacheEffect(entries: map<string, Datum>, hits: int, misses: int, e: Expr, key: string)
      reads this, store
    {
      if store == null then cacheHitCount == hits && cacheMissCount == misses
      else
        var lookup := Lookup(entries, key);
        var tool := ToolCases(toIsl, iscc, parse, e);
        && cacheHitCount == hits + (if lookup.Success? && lookup.value.Some? then 1 else 0)
        && cacheMissCount == misses + (if lookup == Success(None) then 1 else 0)
        && store.entries ==
             (if lookup == Success(None) && tool.Success? && tool.value.Some?
              then entries[key := CasesDatum(tool.value.value)]
              else entries)
    }

    /**
     * `solve0`: with a store, a hit skips the tool and counts a hit; a miss
     * counts a miss, runs the tool and stores the cases only when its output
     * is a formula. Without a store the tool runs every time.
     */
    method Solve0(instance: Instance) returns (r: Result<int, Fault>)
      requires instance.expression.Valid()
      modifies this`cacheHitCount, this`cacheMissCount, this`vars, this`bounds, instance.expression`stringRep, instance.expression`toStringCalls, store
      ensures instance.expression.Valid()
      ensures r == Answer(instance.expression.tree, if store == null then None else Some(Lookup(old(store.entries), instance.expression.rendering)))
      ensures CacheEffect(old(if store == null then map[] else store.entries), old(cacheHitCount), old(cacheMissCount),
                          instance.expression.tree, instance.expression.rendering)
      ensures r.Success? ==> var b := BoundsFrom(NoBounds, Vars(instance.expression.tree)).value; vars == b.vars && bounds == b.bounds
    {
      var e := instance.expression.tree;
      vars := {};
      bounds := [];
      var cases: Option<Cases> := None;
      if store != null {
        var key := instance.expression.GetCachedString();
        var found := Lookup(store.entries, key);
        if found.Failure? {
          return Failure(found.error);
        }
        cases := found.value;
        if cases.None? {
          cacheMissCount := cacheMissCount + 1;
          var tool := RunTool(e);
          if tool.Failure? {
            return Failure(tool.error);
          }
          cases := tool.value;
          if cases.Some? {
            store.Put(key, CasesDatum(cases.value));
          }
        } else {
          cacheHitCount := cacheHitCount + 1;
        }
      } else {
        var tool := RunTool(e);
        if tool.Failure? {
          return Failure(tool.error);
        }
        cases := tool.value;
      }
      r := CountCases(e, cases);
    }

    /** `solve`: one more invocation, then `solve0`. */
    method Solve(instance: Instance) returns (r: Result<int, Fault>)
      requires instance.expression.Valid()
      modifies this`cacheHitCount, this`cacheMissCount, this`invocationCount, this`vars, this`bounds, instance.expression`stringRep, instance.expression`toStringCalls, store
      ensures invocationCount == old(invocationCount) + 1
      ensures instance.expression.Valid()
      ensures r == Answer(instance.expression.tree, if store == null then None else Some(Lookup(old(store.entries), instance.expression.rendering)))
      ensures CacheEffect(old(if store == null then map[] else store.entries), old(cacheHitCount), old(cacheMissCount),
                          instance.expression.tree, instance.expression.rendering)
    {
      invocationCount := invocationCount + 1;
      r := Solve0(instance);
    }

    /**
     * `processRequest`: solves only when no count is stored under the class
     * key, and stores the count it obtains.
     */
    method ProcessRequest(instance: Instance) returns (o: Outcome<Fault>)
      requires instance.expression.Valid()
      modifies this`cacheHitCount, this`cacheMissCount, this`invocationCount, this`vars, this`bounds, instance.expression`stringRep, instance.expression`toStringCalls, store, instance`data
      ensures var stored := StoredCount(old(instance.data), ClassKey(className));
        var kept := && instance.data == old(instance.data) && invocationCount == old(invocationCount)
                    && cacheHitCount == old(cacheHitCount) && cacheMissCount == old(cacheMissCount)
                    && (store != null ==> store.entries == old(store.entries));
        && (stored.Failure? ==> o == Fail(ClassCast) && kept)
        && (stored.Success? && stored.value.Some? ==> o == Pass && kept)
        && (stored == Success(None) ==>
              var answer := Answer(instance.expression.tree, if store == null then None else Some(Lookup(old(store.entries), instance.expression.rendering)));
              && invocationCount == old(invocationCount) + 1
              && CacheEffect(old(if store == null then map[] else store.entries), old(cacheHitCount), old(cacheMissCount),
                             instance.expression.tree, instance.expression.rendering)
              && (answer.Failure? ==> o == Fail(answer.error))
              && (answer.Success? ==> o == Pass && instance.data == old(instance.data)[ClassKey(className) := CountDatum(answer.value)]))
    {
      var result := StoredCount(instance.data, ClassKey(className));
      if result.Failure? {
        return Fail(result.error);
      }
      if result.value.None? {
        var count := Solve(instance);
        if count.Failure? {
          return Fail(count.error);
        }
        instance.SetData(ClassKey(className), Some(CountDatum(count.value)));
      }
      o := Pass;
    }
  }
}
