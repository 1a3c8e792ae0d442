# Green solver services, modelled in Dafny

Green is a framework that caches and reuses the answers of constraint
solvers. A query (an `Instance` holding an `Expression` tree) travels
through a pipeline of services. Each service answers it from a cache, or
hands it to a decision procedure and keeps the answer for later. This
project models the services that produce models, satisfiability verdicts
and solution counts:

- `ModelService1`, `SATService1` and `ModelCoreService`: the memoising
  bases. They keep an answer in the instance's data and, for
  `ModelCoreService`, in a shared key-value store (`model_memo.dfy`,
  `sat_memo.dfy`, `model_core_memo.dfy`).
- `ModelGruliaService`: model reuse by sat-delta.
  - The sat-delta of a query is its distance from three reference
    solutions (-10000, 0 and 100), computed by a stack-based visitor
    (`sat_delta.dfy`).
  - A probe that scores zero answers the query at once.
  - Otherwise the mean delta is the key of a repository of earlier models
    and unsat cores. The models closest to that key are checked with an
    evaluator visitor (`evaluator.dfy`), and the unsat cores are matched
    textually.
  - Only then is the model-core service called (`grulia.dfy`).
- The SMT-LIB translators of `ModelSMTLIBService` and
  `ModelSMTLIBBitVectorService`. They turn a query into an SMT-LIB script
  of declarations, domain constraints and an assertion (`smt_terms.dfy`,
  `smtlib.dfy`, `smtlib_bv.dfy`).
- `CNRService`: counting solutions with the Barvinok tool. The ISL output
  is either a count in braces or a formula of cases. The cases are kept in
  the store, and a `BoundsVisitor` builds the model they are evaluated
  under (`cnr.dfy`).

The shared vocabulary lives in these files:

- `ast.dfy`: operators, variables, expression trees.
- `expression.dfy`: `Expression`, with its lazily cached string.
- `green.dfy`: instance data and the store.
- `java_lang.dfy`: the Java semantics the code relies on, namely `int`
  wrap-around, `%`, `Math.abs`, `String.compareTo` (by code point, see
  "Left out"), `trim`, `lastIndexOf` and `substring`.
- `wrappers.dfy`: Option, Result, Outcome.

## How the model is built

All files are verified together, under a per-obligation resource limit:

    dafny verify --resource-limit 2000000 --verification-time-limit 0 *.dfy

Each visitor is modelled twice:

- as a class with the visitor's fields (a `seq` stack, the maps and lists
  it fills) and methods `PostVisit…` and a recursive `Accept`;
- as a pure step function `PostVisit` and a post-order `Walk`.

The methods are proved to compute exactly what `Walk` computes. `Walk`, in
turn, is proved to agree with a reference definition by recursion on the
tree: `Delta`, `Term`, `Holds`, `Render` or `BoundsFrom`.

Java runtime exceptions that the code does not catch are modelled as a
`Fault`, and the query's answer becomes `Failure(fault)`. These are
`NullPointerException`, `ClassCastException`, `EmptyStackException`,
`ArithmeticException` and `StringIndexOutOfBoundsException`. The SMT-LIB
translators' `TranslatorUnsupportedOperation` is different: `model`
catches it and answers null, so `SmtLib.ModelRequest` maps that fault to
`Success(None)`.

Java `assert` statements are taken to be disabled, which is the JVM
default. The decision procedures and external tools are function-valued
constants of the service classes:

- the `modelCore`, `model` and `solve` hooks;
- the repositories' `extract`;
- the ISL translator, `invokeISCC` and the case evaluator.

Several behaviours of the code as written are stated as lemmas:

- Long.MIN_VALUE is not rendered as a valid numeral
  (`SmtLib.MinValueIsNoNumeral`, `SmtLibBv.MinValueIsNoNumeral`).
- The bit-vector translator drops every operator symbol but NE
  (`SmtLibBv.QueryIgnoresOperator`).
- A subtraction can make a sat-delta probe report a hit on a model that
  falsifies the query (`DeltaSoundness.SubZeroDeltaIsNotAModel`), and
  `solve1` then returns that model (`Grulia.SubTargetHitFalsifies`).
- `trimSolution` can drop the variable a reused model needs, so the model
  `solve1` returns falsifies the query (`Grulia.TrimCanDropNeededVariable`).
- The `int` arithmetic of the LT delta wraps, so `MAX_VALUE < -1` scores a
  negative delta (`SatDelta.LtDeltaWrapsNegative`).
- A count that Barvinok prints in braces yields no cases, and `solve0` then
  throws (`Cnr.BracedCountIsLost`).
- An integer-valued root makes the evaluator's `isSat` throw
  `ClassCastException` (`Evaluation.IntegerRootIsNotSat`).
- An `int` variable compared with an `int` constant is wrapped in
  `to_real`, because their common type is IntegerVariable
  (`SmtLib.IntTermsGoThroughToReal`).

## Model

| member | source | states |
|---|---|---|
| JavaLang.WrapInt | src/main/java/za/ac/sun/cs/green/service/grulia/ModelGruliaService.java:953-955 | Java `int` addition wraps modulo 2^32: the result is an `int`, equal to the mathematical value when that fits |
| JavaLang.WrapLong | src/main/java/za/ac/sun/cs/green/service/smtlib/ModelSMTLIBService.java:100-108 | `long` negation wraps modulo 2^64: the result is a `long`, equal to the mathematical value when that fits |
| JavaLang.AbsInt | src/main/java/za/ac/sun/cs/green/service/grulia/ModelGruliaService.java:977-979 | `Math.abs` is non-negative except on Integer.MIN_VALUE, which it returns unchanged |
| JavaLang.MinInt | src/main/java/za/ac/sun/cs/green/service/grulia/ModelGruliaService.java:947-950 | `Math.min` is one of its operands and no greater than either |
| JavaLang.Rem | src/main/java/za/ac/sun/cs/green/service/grulia/ModelGruliaService.java:980-982 | `%` truncates: the remainder is smaller than the divisor in magnitude and has the dividend's sign |
| JavaLang.CompareZeroIffEqual | src/main/java/za/ac/sun/cs/green/expr/Expression.java:20-24 | `String.compareTo` is zero exactly on equal strings |
| JavaLang.CompareAntisymmetric | src/main/java/za/ac/sun/cs/green/expr/Expression.java:20-24 | swapping the operands negates the comparison |
| JavaLang.CompareTransitive | src/main/java/za/ac/sun/cs/green/expr/Expression.java:20-24 | the comparison is a transitive order |
| JavaLang.NatToDecimal | src/main/java/za/ac/sun/cs/green/service/smtlib/ModelSMTLIBService.java:100-108 | a decimal numeral: digits only, no leading zero, one digit exactly below ten |
| JavaLang.DecimalRoundTrip | src/main/java/za/ac/sun/cs/green/service/smtlib/ModelSMTLIBService.java:100-108 | the numeral reads back as the number it was printed from |
| JavaLang.LongToString | src/main/java/za/ac/sun/cs/green/service/smtlib/ModelSMTLIBService.java:106 | `Long.toString` is the numeral, with a minus sign for negative values |
| JavaLang.ContainsIffOccurs | src/main/java/za/ac/sun/cs/green/service/grulia/ModelGruliaService.java:613 | `contains` holds exactly when the text occurs at some index |
| JavaLang.LastIndexOf | src/main/java/za/ac/sun/cs/green/service/barvinok/CNRService.java:241 | the last index holding the character, with none after it; -1 exactly when it does not occur |
| JavaLang.Substring | src/main/java/za/ac/sun/cs/green/service/barvinok/CNRService.java:242 | succeeds exactly when 0 <= begin <= end <= length, with the characters between them |
| JavaLang.Trim | src/main/java/za/ac/sun/cs/green/service/barvinok/CNRService.java:242 | a slice of the input with only characters up to the space cut from both ends, and none left at either end |
| Ast.FirstOccurrences | src/main/java/za/ac/sun/cs/green/service/smtlib/ModelSMTLIBService.java:138-158 | the variables met for the first time, each once, all of them, none seen before |
| Ast.FirstOccurrencesAppend | src/main/java/za/ac/sun/cs/green/service/smtlib/ModelSMTLIBService.java:138-158 | the first occurrences in a concatenation are those of the first part, then those of the second not already seen |
| Expressions.Expression.constructor | src/main/java/za/ac/sun/cs/green/expr/Expression.java:7-18 | a fresh node has no cached string and sat-delta 0.0 |
| Expressions.Expression.GetCachedString | src/main/java/za/ac/sun/cs/green/expr/Expression.java:11-16 | returns the node's rendering; `toString` is called on the first call only, and the cache keeps its value |
| Expressions.Expression.CompareTo | src/main/java/za/ac/sun/cs/green/expr/Expression.java:20-24 | compares the cached strings; zero exactly when the renderings are equal |
| Green.Store.Get | src/main/java/za/ac/sun/cs/green/store/Store.java:30-37 | the value stored under the key, or null when there is none |
| Green.Store.Put | src/main/java/za/ac/sun/cs/green/store/Store.java:112-118 | the key now maps to the value and every other entry is unchanged |
| ModelMemo.StoredModel | src/main/java/za/ac/sun/cs/green/service/ModelService1.java:59 | the cast of the instance data: null when absent, the model when one is stored, ClassCastException for any other datum |
| ModelMemo.ModelService1.constructor | src/main/java/za/ac/sun/cs/green/service/ModelService1.java:16-34 | all counters start at zero |
| ModelMemo.ModelService1.AllChildrenDone | src/main/java/za/ac/sun/cs/green/service/ModelService1.java:51-54 | returns exactly what is stored under the class key |
| ModelMemo.ModelService1.ProcessRequest | src/main/java/za/ac/sun/cs/green/service/ModelService1.java:56-67 | a stored model leaves everything unchanged; a wrong datum throws before any change; otherwise `solve0` runs once |
| ModelMemo.ModelService1.Solve0 | src/main/java/za/ac/sun/cs/green/service/ModelService1.java:69-89 | one invocation: the hook's model is stored and counted sat, a null answer counted unsat; always answers null |
| SatMemo.StoredFlag | src/main/java/za/ac/sun/cs/green/service/SATService1.java:59 | the cast `(Boolean)`: null when absent, the flag when one is stored, ClassCastException otherwise |
| SatMemo.SatService1.constructor | src/main/java/za/ac/sun/cs/green/service/SATService1.java:33-35 | all counters start at zero |
| SatMemo.SatService1.AllChildrenDone | src/main/java/za/ac/sun/cs/green/service/SATService1.java:52-55 | returns exactly what is stored under the class key |
| SatMemo.SatService1.ProcessRequest | src/main/java/za/ac/sun/cs/green/service/SATService1.java:57-72 | a stored flag is counted without solving; otherwise one invocation and one miss, the answer stored and counted; a null answer throws on unboxing |
| SatMemo.SatService1.Solve0 | src/main/java/za/ac/sun/cs/green/service/SATService1.java:74-85 | answers what the `solve` hook answers, counting one invocation and one miss |
| ModelCores.StoreKey | src/main/java/za/ac/sun/cs/green/service/ModelCoreService.java:97-100 | the key is SERVICE_KEY, then the cached string, then the slot suffix |
| ModelCores.StoreKeyInjective | src/main/java/za/ac/sun/cs/green/service/ModelCoreService.java:21-27 | distinct queries or distinct slots never share a store key |
| ModelCores.NewSatEntry | src/main/java/za/ac/sun/cs/green/service/ModelCoreService.java:113 | the entry holds the sat-delta and the model, and its size is the model's |
| ModelCores.NewUnsatEntry | src/main/java/za/ac/sun/cs/green/service/ModelCoreService.java:120 | the entry holds the sat-delta and the core, and its size is the core's |
| ModelCores.IsSat | src/main/java/za/ac/sun/cs/green/service/ModelCoreService.java:183-185 | the flag under SAT_KEY, null when absent |
| ModelCores.GetModel | src/main/java/za/ac/sun/cs/green/service/ModelCoreService.java:187-190 | the model of the entry under MODEL_KEY; a missing entry throws NullPointerException |
| ModelCores.GetCore | src/main/java/za/ac/sun/cs/green/service/ModelCoreService.java:192-195 | the core of the entry under CORE_KEY; a missing entry throws NullPointerException |
| ModelCores.SolvedReadsBack | src/main/java/za/ac/sun/cs/green/service/ModelCoreService.java:148-195 | after `solve3` the getters read back exactly the decision procedure's verdict and model or core, under two new keys |
| ModelCores.ModelCoreService.constructor | src/main/java/za/ac/sun/cs/green/service/ModelCoreService.java:29-47 | all counters start at zero |
| ModelCores.ModelCoreService.AllChildrenDone | src/main/java/za/ac/sun/cs/green/service/ModelCoreService.java:64-67 | returns the instance itself |
| ModelCores.ModelCoreService.ProcessRequest | src/main/java/za/ac/sun/cs/green/service/ModelCoreService.java:69-75 | an instance with SAT_KEY data is left alone; any other is solved once by `solve3` |
| ModelCores.ModelCoreService.Solve3 | src/main/java/za/ac/sun/cs/green/service/ModelCoreService.java:148-172 | one invocation; sets the flag and the model entry or the core entry; counts a sat or unsat miss |
| ModelCores.ModelCoreService.Solve0 | src/main/java/za/ac/sun/cs/green/service/ModelCoreService.java:78-146 | a miss asks the procedure once, counts one cache miss and one sat or unsat miss, stores flag and entry under the query's keys and gives the instance that answer; a hit changes no store entry and no miss counter, counts a sat or unsat hit, and gives the instance exactly the stored flag and stored entry, or throws ClassCastException on a wrong kind of datum |
| ModelCores.ModelCoreService.Compute | src/main/java/za/ac/sun/cs/green/service/ModelCoreService.java:101-123 | the miss branch: verdict and entry as the procedure answered, stored under the flag and entry keys, counted |
| ModelCores.Recalled | src/main/java/za/ac/sun/cs/green/service/ModelCoreService.java:124-135 | the casts of the hit branch: the stored flag, the stored entry for that verdict or null, and ClassCastException exactly when the flag or the entry present has the wrong kind |
| ModelCores.ModelCoreService.Recall | src/main/java/za/ac/sun/cs/green/service/ModelCoreService.java:124-135 | the hit branch: the stored flag and the stored entry for that verdict (null when absent); ClassCastException exactly when the flag or the entry present is of the wrong kind; the sat or unsat hit is counted before the entry's cast |
| ModelCores.ModelCoreService.Publish | src/main/java/za/ac/sun/cs/green/service/ModelCoreService.java:136-143 | the instance gets the flag and the entry; a null entry removes that slot |
| SatDelta.OperatorDeltaCases | src/main/java/za/ac/sun/cs/green/service/grulia/ModelGruliaService.java:928-987 | unknown operators push 0; a missing operand throws NullPointerException (NE compares with null instead); only `x % 0` throws ArithmeticException; results stay `int`s |
| SatDelta.RelationalDeltaIsDistance | src/main/java/za/ac/sun/cs/green/service/grulia/ModelGruliaService.java:956-973 | without overflow a comparison's delta is non-negative and zero exactly when the comparison holds |
| SatDelta.ConnectiveDelta | src/main/java/za/ac/sun/cs/green/service/grulia/ModelGruliaService.java:947-955 | OR is the smaller operand; AND and ADD the sum while it fits |
| SatDelta.ModDelta | src/main/java/za/ac/sun/cs/green/service/grulia/ModelGruliaService.java:980-982 | MOD is the truncating remainder |
| SatDelta.LtDeltaWrapsNegative | src/main/java/za/ac/sun/cs/green/service/grulia/ModelGruliaService.java:956-958 | `(l - r) + 1` wraps: `MAX_VALUE < -1` scores a negative delta |
| SatDelta.BindAllAppend | src/main/java/za/ac/sun/cs/green/service/grulia/ModelGruliaService.java:896-898 | binding a concatenation binds the first part, then the second |
| SatDelta.BindAllBindings | src/main/java/za/ac/sun/cs/green/service/grulia/ModelGruliaService.java:896-898 | existing bindings are kept and each new variable is bound to the reference value |
| SatDelta.WalkPushesDelta | src/main/java/za/ac/sun/cs/green/service/grulia/ModelGruliaService.java:884-987 | the stack machine pushes exactly the tree-recursive delta and binds the formula's variables, or fails with its exception |
| SatDelta.ProbeOfFormula | src/main/java/za/ac/sun/cs/green/service/grulia/ModelGruliaService.java:862-881 | a probe reports the formula's delta and a model binding exactly its variables to the reference value |
| SatDelta.UnaryReportsZero | src/main/java/za/ac/sun/cs/green/service/grulia/ModelGruliaService.java:932-941 | a one-operand root pops nothing and pushes 0, so the probe reports 0 |
| SatDelta.ComparisonProbe | src/main/java/za/ac/sun/cs/green/service/grulia/ModelGruliaService.java:956-970 | on a comparison the probe is zero exactly when the comparison holds at the reference value |
| SatDelta.DeltaVisitor.constructor | src/main/java/za/ac/sun/cs/green/service/grulia/ModelGruliaService.java:847-856 | empty stack, no result |
| SatDelta.DeltaVisitor.SetReferenceSolution | src/main/java/za/ac/sun/cs/green/service/grulia/ModelGruliaService.java:866-871 | clears the stack, the model and the result, and sets the reference value |
| SatDelta.DeltaVisitor.GetModel | src/main/java/za/ac/sun/cs/green/service/grulia/ModelGruliaService.java:862-864 | the variables bound so far |
| SatDelta.DeltaVisitor.GetResult | src/main/java/za/ac/sun/cs/green/service/grulia/ModelGruliaService.java:876-881 | pops the top on the first call and caches it; an empty stack throws |
| SatDelta.DeltaVisitor.PostVisitVariable | src/main/java/za/ac/sun/cs/green/service/grulia/ModelGruliaService.java:889-901 | one step of the walk on a variable |
| SatDelta.DeltaVisitor.PostVisitIntConstant | src/main/java/za/ac/sun/cs/green/service/grulia/ModelGruliaService.java:904-907 | pushes the constant |
| SatDelta.DeltaVisitor.PostVisitOperation | src/main/java/za/ac/sun/cs/green/service/grulia/ModelGruliaService.java:910-913 | one `calculateSatDelta` step on the stack |
| SatDelta.DeltaVisitor.Accept | src/main/java/za/ac/sun/cs/green/service/grulia/ModelGruliaService.java:884-913 | the visit leaves exactly the state of the walk, or the walk's exception |
| Evaluation.EvalOperator | src/main/java/za/ac/sun/cs/green/service/grulia/ModelGruliaService.java:1070-1165 | operators without a case push nothing; only comparisons and connectives push a Boolean |
| Evaluation.Arith | src/main/java/za/ac/sun/cs/green/service/grulia/ModelGruliaService.java:1095-1162 | `int` arithmetic: fails exactly on `% 0`, stays in range, the remainder below the divisor |
| Evaluation.TermIsInt | src/main/java/za/ac/sun/cs/green/service/grulia/ModelGruliaService.java:1021-1039 | under a model of `int` constants every term value fits an `int` |
| Evaluation.OperateOnInts | src/main/java/za/ac/sun/cs/green/service/grulia/ModelGruliaService.java:1071-1162 | on two integers a comparison pushes its truth and arithmetic its result or exception |
| Evaluation.OperateOnBools | src/main/java/za/ac/sun/cs/green/service/grulia/ModelGruliaService.java:1087-1147 | AND and OR on two Booleans push their conjunction and disjunction |
| Evaluation.WalkComputesTerm | src/main/java/za/ac/sun/cs/green/service/grulia/ModelGruliaService.java:1020-1166 | the evaluator pushes exactly the reference value of a term, or its exception |
| Evaluation.WalkComputesHolds | src/main/java/za/ac/sun/cs/green/service/grulia/ModelGruliaService.java:1020-1166 | the evaluator pushes exactly the reference truth of a formula, or its exception |
| Evaluation.SatisfiesAgreesWithHolds | src/main/java/za/ac/sun/cs/green/service/grulia/ModelGruliaService.java:1011-1013 | a fresh evaluator decides a formula as the reference semantics does |
| Evaluation.IntegerRootIsNotSat | src/main/java/za/ac/sun/cs/green/service/grulia/ModelGruliaService.java:1011-1013 | an integer-valued root makes `isSat` throw ClassCastException |
| Evaluation.ExpressionEvaluator.constructor | src/main/java/za/ac/sun/cs/green/service/grulia/ModelGruliaService.java:999-1002 | empty stack over the given model |
| Evaluation.ExpressionEvaluator.IsSat | src/main/java/za/ac/sun/cs/green/service/grulia/ModelGruliaService.java:1011-1013 | pops the top and casts it to Boolean |
| Evaluation.ExpressionEvaluator.PostVisitVariable | src/main/java/za/ac/sun/cs/green/service/grulia/ModelGruliaService.java:1021-1033 | pushes the bound int constant, or 0 |
| Evaluation.ExpressionEvaluator.PostVisitIntConstant | src/main/java/za/ac/sun/cs/green/service/grulia/ModelGruliaService.java:1036-1039 | pushes the constant |
| Evaluation.ExpressionEvaluator.PostVisitOperation | src/main/java/za/ac/sun/cs/green/service/grulia/ModelGruliaService.java:1042-1166 | one step of the evaluator's switch on the stack |
| Evaluation.ExpressionEvaluator.Accept | src/main/java/za/ac/sun/cs/green/service/grulia/ModelGruliaService.java:1016-1166 | the visit leaves exactly the stack of the walk, or its exception |
| DeltaSoundness.ArithDelta | src/main/java/za/ac/sun/cs/green/service/grulia/ModelGruliaService.java:953-982 | on ADD, MUL and MOD the sat-delta visitor computes what the evaluator does |
| DeltaSoundness.TermDeltaIsValue | src/main/java/za/ac/sun/cs/green/service/grulia/ModelGruliaService.java:889-982 | on subtraction-free terms the visitor's delta is the evaluator's value under the probe model |
| DeltaSoundness.FormulaDeltaIsDistance | src/main/java/za/ac/sun/cs/green/service/grulia/ModelGruliaService.java:947-973 | without wrap-around a subtraction-free formula's delta is non-negative and zero exactly when the evaluator finds it true |
| DeltaSoundness.ProbeDecidesFormula | src/main/java/za/ac/sun/cs/green/service/grulia/ModelGruliaService.java:457-463 | a zero probe means the probe's own model satisfies the formula, and conversely |
| DeltaSoundness.SubProbeIsZero | src/main/java/za/ac/sun/cs/green/service/grulia/ModelGruliaService.java:977-979 | the probe x = 100 scores `0 - x == 100` as zero |
| DeltaSoundness.SubProbeFalsifies | src/main/java/za/ac/sun/cs/green/service/grulia/ModelGruliaService.java:1102-1108 | yet the evaluator finds `0 - x == 100` false at x = 100 |
| DeltaSoundness.SubZeroDeltaIsNotAModel | src/main/java/za/ac/sun/cs/green/service/grulia/ModelGruliaService.java:977-979 | a zero sat-delta does not imply a model, because SUB pushes `abs(abs(r) - abs(l))` |
| Grulia.Probes | src/main/java/za/ac/sun/cs/green/service/grulia/ModelGruliaService.java:452-455 | one probe report per reference solution, in order |
| Grulia.ProbeFromOutcome | src/main/java/za/ac/sun/cs/green/service/grulia/ModelGruliaService.java:452-478 | a hit is the first zero-scoring probe, a miss means every probe scored nonzero, a failure is the first probe that threw |
| Grulia.ProbeFromHits | src/main/java/za/ac/sun/cs/green/service/grulia/ModelGruliaService.java:457-463 | the first zero-scoring probe is the hit, with its model |
| Grulia.ProbeFromMisses | src/main/java/za/ac/sun/cs/green/service/grulia/ModelGruliaService.java:464-471 | without a zero probe the outcome is the mean of the deltas |
| Grulia.MeanOfThree | src/main/java/za/ac/sun/cs/green/service/grulia/ModelGruliaService.java:470 | a miss over three reports is their mean |
| Grulia.MissIsMean | src/main/java/za/ac/sun/cs/green/service/grulia/ModelGruliaService.java:445-478 | without a hit the recorded sat-delta is the mean of the three probe deltas |
| Grulia.HitIsSound | src/main/java/za/ac/sun/cs/green/service/grulia/ModelGruliaService.java:384-388 | on subtraction-free formulas without wrap-around the model of a hit satisfies the query |
| Grulia.MissIsComplete | src/main/java/za/ac/sun/cs/green/service/grulia/ModelGruliaService.java:384-390 | on the same fragment a miss means none of the three probe models satisfies the query |
| Grulia.UnaryTargetHits | src/main/java/za/ac/sun/cs/green/service/grulia/ModelGruliaService.java:932-941 | a query with a one-operand root is always a hit |
| Grulia.SubTargetMisses | src/main/java/za/ac/sun/cs/green/service/grulia/ModelGruliaService.java:452-467 | the first two probes of `0 - x == 100` score nonzero |
| Grulia.SubTargetHits | src/main/java/za/ac/sun/cs/green/service/grulia/ModelGruliaService.java:457-463 | the third probe of `0 - x == 100` is a hit with x = 100 |
| Grulia.SubTargetHitFalsifies | src/main/java/za/ac/sun/cs/green/service/grulia/ModelGruliaService.java:384-388 | `solve1` answers `0 - x == 100` with x = 100, a model that falsifies it |
| Grulia.ProbeAll | src/main/java/za/ac/sun/cs/green/service/grulia/ModelGruliaService.java:445-478 | the probe loop computes the hit, the mean, or the exception |
| Grulia.Probe | src/main/java/za/ac/sun/cs/green/service/grulia/ModelGruliaService.java:453-455 | one turn of the loop reports the probe of the reference value |
| Grulia.CollectAppend | src/main/java/za/ac/sun/cs/green/service/grulia/ModelGruliaService.java:834-843 | collecting a concatenation collects the first part, then the second |
| Grulia.LeadingIntVars | src/main/java/za/ac/sun/cs/green/service/grulia/ModelGruliaService.java:836-841 | the longest prefix of int variables |
| Grulia.CollectLeading | src/main/java/za/ac/sun/cs/green/service/grulia/ModelGruliaService.java:816-843 | the collector gathers exactly the int variables before the first non-int one and is linear exactly when there is none |
| Grulia.CollectStopped | src/main/java/za/ac/sun/cs/green/service/grulia/ModelGruliaService.java:836 | once not linear, nothing more is collected |
| Grulia.VariableCollector.constructor | src/main/java/za/ac/sun/cs/green/service/grulia/ModelGruliaService.java:824-828 | empty set, linear |
| Grulia.VariableCollector.PostVisitVariable | src/main/java/za/ac/sun/cs/green/service/grulia/ModelGruliaService.java:834-843 | one collection step |
| Grulia.VariableCollector.Accept | src/main/java/za/ac/sun/cs/green/service/grulia/ModelGruliaService.java:371-378 | the visit collects the expression's variable occurrences in post-order |
| Grulia.MinByName | src/main/java/za/ac/sun/cs/green/service/grulia/ModelGruliaService.java:557-558 | the variable of least name, which the TreeMap hands out next |
| Grulia.TrimSolution | src/main/java/za/ac/sun/cs/green/service/grulia/ModelGruliaService.java:550-572 | equal or smaller size keeps the model; a larger one keeps its first entries by name up to the dummy's size |
| Grulia.TrimCanDropNeededVariable | src/main/java/za/ac/sun/cs/green/service/grulia/ModelGruliaService.java:550-564 | trimming by name can drop the variable the query needs and return a model that falsifies it |
| Grulia.NullFreeEnd | src/main/java/za/ac/sun/cs/green/service/grulia/ModelGruliaService.java:510-512 | a scan stops at the first null candidate |
| Grulia.ScanModels | src/main/java/za/ac/sun/cs/green/service/grulia/ModelGruliaService.java:508-536 | the first candidate model that satisfies the query, with every earlier one rejected; or the null-free prefix exhausted; or the evaluator's exception |
| Grulia.ScanCandidates | src/main/java/za/ac/sun/cs/green/service/grulia/ModelGruliaService.java:508-536 | the loop computes that scan |
| Grulia.SharedCoreOccurs | src/main/java/za/ac/sun/cs/green/service/grulia/ModelGruliaService.java:610-617 | every clause of a shared core occurs parenthesised in the query's string |
| Grulia.ScanCores | src/main/java/za/ac/sun/cs/green/service/grulia/ModelGruliaService.java:603-630 | the first non-empty core all of whose clauses occur, every earlier one not shared; never an exception |
| Grulia.ResetCounters | src/main/java/za/ac/sun/cs/green/service/grulia/ModelGruliaService.java:272-284 | zeroes the eleven counters `reset` sets and keeps the others |
| Grulia.GruliaService.constructor | src/main/java/za/ac/sun/cs/green/service/grulia/ModelGruliaService.java:296-356 | empty repositories, zero counters |
| Grulia.GruliaService.Reset | src/main/java/za/ac/sun/cs/green/service/grulia/ModelGruliaService.java:272-284 | the counters after `reset` |
| Grulia.GruliaService.CalculateSatDelta | src/main/java/za/ac/sun/cs/green/service/grulia/ModelGruliaService.java:445-478 | the probe outcome, with the expression's sat-delta and the counters updated as recorded |
| Grulia.GruliaService.SharesModel | src/main/java/za/ac/sun/cs/green/service/grulia/ModelGruliaService.java:489-542 | a found model is trimmed and counted as a hit; an exhausted scan counts a miss; every rejected model counts as tested (`Grulia.ModelScanCounters`) |
| Grulia.GruliaService.ClausesOccur | src/main/java/za/ac/sun/cs/green/service/grulia/ModelGruliaService.java:611-617 | true exactly when every clause occurs parenthesised in the query's string |
| Grulia.GruliaService.SharesUnsatCores | src/main/java/za/ac/sun/cs/green/service/grulia/ModelGruliaService.java:582-636 | a shared core is returned and counted as a hit, else a miss; unshared cores count as tested (`Grulia.CoreScanCounters`) |
| Grulia.GruliaService.CallSolver | src/main/java/za/ac/sun/cs/green/service/grulia/ModelGruliaService.java:646-672 | one solver call, counted by both services; a sat answer adds a model entry, an unsat one a core entry, under the query's sat-delta (`Grulia.SolverCounters`) |
| Grulia.GruliaService.Consult | src/main/java/za/ac/sun/cs/green/service/grulia/ModelGruliaService.java:649-652 | a fresh instance's data after the model-core service solved it, with one invocation and one sat or unsat miss counted there |
| Grulia.GruliaService.CacheModel | src/main/java/za/ac/sun/cs/green/service/grulia/ModelGruliaService.java:653-662 | the model is added to the repository and returned |
| Grulia.GruliaService.CacheCore | src/main/java/za/ac/sun/cs/green/service/grulia/ModelGruliaService.java:663-671 | the core is added to the repository |
| Grulia.GruliaService.Solve1 | src/main/java/za/ac/sun/cs/green/service/grulia/ModelGruliaService.java:364-421 | stages in order: delta hit, model reuse (the trimmed first satisfying candidate), core reuse, solver call; at each stage the exact counter record (one invocation, then the updates of each stage passed), the sat-delta (unchanged when a probe throws), and the model-core service's counters; the repositories and that service's counters change only on a solver call |
| SmtTerms.DeclareOne | src/main/java/za/ac/sun/cs/green/service/smtlib/ModelSMTLIBService.java:138-158 | visiting one variable declares it once |
| SmtTerms.DeclareAllAppend | src/main/java/za/ac/sun/cs/green/service/smtlib/ModelSMTLIBService.java:138-202 | visiting a concatenation visits the first part, then the second |
| SmtTerms.DeclareAllMaps | src/main/java/za/ac/sun/cs/green/service/smtlib/ModelSMTLIBService.java:138-202 | every variable met is mapped to its name and earlier entries are kept |
| SmtTerms.DeclareAllDefs | src/main/java/za/ac/sun/cs/green/service/smtlib/ModelSMTLIBService.java:138-202 | one declaration per variable met for the first time, in order |
| SmtTerms.DeclareAllDomains | src/main/java/za/ac/sun/cs/green/service/smtlib/ModelSMTLIBService.java:138-202 | one domain constraint per variable met for the first time, in order |
| SmtTerms.DeclareFromNothing | src/main/java/za/ac/sun/cs/green/service/smtlib/ModelSMTLIBService.java:73-86 | from a fresh translator: declarations and domains of the distinct variables, the map of every variable to its name |
| SmtTerms.Conjoin | src/main/java/za/ac/sun/cs/green/service/smtlib/ModelSMTLIBService.java:88-98 | the loop builds `(and d1 … dn root)` |
| SmtTerms.SignedNumeralRoundTrip | src/main/java/za/ac/sun/cs/green/service/smtlib/ModelSMTLIBService.java:100-108 | every `long` but Long.MIN_VALUE renders as a term that reads back as itself |
| SmtTerms.NegationOverflows | src/main/java/za/ac/sun/cs/green/service/smtlib/ModelSMTLIBService.java:103 | `-v` of Long.MIN_VALUE is Long.MIN_VALUE |
| SmtTerms.SignedNumeralMinValue | src/main/java/za/ac/sun/cs/green/service/smtlib/ModelSMTLIBService.java:100-108 | Long.MIN_VALUE renders as the negation of a negative numeral, which is no numeral |
| SmtTerms.ConjunctionDepth | src/main/java/za/ac/sun/cs/green/service/smtlib/ModelSMTLIBService.java:88-98 | with balanced domains the conjunction is as balanced as the root term |
| SmtTerms.QueryDepth | src/main/java/za/ac/sun/cs/green/service/smtlib/ModelSMTLIBService.java:22-28 | with balanced declarations the query is as balanced as its assertion |
| SmtLib.NumeralRoundTrip | src/main/java/za/ac/sun/cs/green/service/smtlib/ModelSMTLIBService.java:100-108 | every `long` but Long.MIN_VALUE becomes an integer term denoting itself |
| SmtLib.MinValueIsNoNumeral | src/main/java/za/ac/sun/cs/green/service/smtlib/ModelSMTLIBService.java:100-108 | Long.MIN_VALUE becomes `(- -9223372036854775808)`, which is no SMT-LIB term |
| SmtLib.SuperType | src/main/java/za/ac/sun/cs/green/service/smtlib/ModelSMTLIBService.java:204-212 | Real when either side is real, otherwise IntegerVariable; a null left side, or a null right side after a non-real left, throws |
| SmtLib.SetOperator | src/main/java/za/ac/sun/cs/green/service/smtlib/ModelSMTLIBService.java:226-277 | a symbol exactly for the fourteen listed operators; any other throws TranslatorUnsupportedOperation |
| SmtLib.SymbolRoundTrip | src/main/java/za/ac/sun/cs/green/service/smtlib/ModelSMTLIBService.java:226-277 | no two operators share a symbol |
| SmtLib.OperateBinary | src/main/java/za/ac/sun/cs/green/service/smtlib/ModelSMTLIBService.java:284-305 | two rendered operands become their combination, or the operator throws |
| SmtLib.OperateUnary | src/main/java/za/ac/sun/cs/green/service/smtlib/ModelSMTLIBService.java:306-315 | NOT wraps its operand; any other one-operand operator throws |
| SmtLib.WalkRenders | src/main/java/za/ac/sun/cs/green/service/smtlib/ModelSMTLIBService.java:120-316 | the translator pushes exactly the tree-recursive rendering and declares the tree's variables; an untranslatable tree throws TranslatorUnsupportedOperation |
| SmtLib.ModelRequestTranslates | src/main/java/za/ac/sun/cs/green/service/smtlib/ModelSMTLIBService.java:18-37 | `solve0` receives the declarations, the domains and the rendering of the tree |
| SmtLib.ModelRequestOfTree | src/main/java/za/ac/sun/cs/green/service/smtlib/ModelSMTLIBService.java:18-37 | the query over the distinct variables and the map of each to its name; an untranslatable tree answers null |
| SmtLib.DeclaredOnce | src/main/java/za/ac/sun/cs/green/service/smtlib/ModelSMTLIBService.java:138-202 | one declaration per distinct variable, and every variable is declared |
| SmtLib.RenderDepth | src/main/java/za/ac/sun/cs/green/service/smtlib/ModelSMTLIBService.java:279-316 | the rendering of a translatable tree is balanced |
| SmtLib.QueryBalanced | src/main/java/za/ac/sun/cs/green/service/smtlib/ModelSMTLIBService.java:18-37 | the whole query is balanced |
| SmtLib.IntTermsGoThroughToReal | src/main/java/za/ac/sun/cs/green/service/smtlib/ModelSMTLIBService.java:204-224 | an IntVariable compared with an IntConstant is wrapped in `to_real`, because their common type is IntegerVariable |
| SmtLib.NegatedRealComparison | src/main/java/za/ac/sun/cs/green/service/smtlib/ModelSMTLIBService.java:306-315 | NOT of a real comparison wraps the Boolean in `to_real` |
| SmtLib.Translator.constructor | src/main/java/za/ac/sun/cs/green/service/smtlib/ModelSMTLIBService.java:73-78 | empty stack, map and lists |
| SmtLib.Translator.PostVisitIntConstant | src/main/java/za/ac/sun/cs/green/service/smtlib/ModelSMTLIBService.java:120-124 | pushes the numeral tagged IntVariable |
| SmtLib.Translator.PostVisitIntegerConstant | src/main/java/za/ac/sun/cs/green/service/smtlib/ModelSMTLIBService.java:126-130 | pushes the numeral tagged IntegerVariable |
| SmtLib.Translator.PostVisitRealConstant | src/main/java/za/ac/sun/cs/green/service/smtlib/ModelSMTLIBService.java:132-136 | pushes the real text tagged RealVariable |
| SmtLib.Translator.PostVisitVariable | src/main/java/za/ac/sun/cs/green/service/smtlib/ModelSMTLIBService.java:138-202 | declares on the first visit, pushes the name on every visit |
| SmtLib.Translator.PostVisitOperation | src/main/java/za/ac/sun/cs/green/service/smtlib/ModelSMTLIBService.java:279-316 | one operation step on the stack |
| SmtLib.Translator.Accept | src/main/java/za/ac/sun/cs/green/service/smtlib/ModelSMTLIBService.java:120-316 | the visit leaves exactly the walk's state, or its exception |
| SmtLib.Translator.GetTranslation | src/main/java/za/ac/sun/cs/green/service/smtlib/ModelSMTLIBService.java:88-98 | the domains and the popped root under one `and`; an empty stack throws |
| SmtLib.Model | src/main/java/za/ac/sun/cs/green/service/smtlib/ModelSMTLIBService.java:18-37 | the query and variable map handed to `solve0` |
| SmtLibBv.NumeralRoundTrip | src/main/java/za/ac/sun/cs/green/service/smtlib/ModelSMTLIBBitVectorService.java:102-110 | every `long` but Long.MIN_VALUE becomes a term that reads back as itself |
| SmtLibBv.MinValueIsNoNumeral | src/main/java/za/ac/sun/cs/green/service/smtlib/ModelSMTLIBBitVectorService.java:102-110 | Long.MIN_VALUE becomes `(bvneg -9223372036854775808)`, no numeral |
| SmtLibBv.SuperType | src/main/java/za/ac/sun/cs/green/service/smtlib/ModelSMTLIBBitVectorService.java:206-214 | Real when either side is real, otherwise IntVariable, never IntegerVariable; null sides throw as in the integer translator |
| SmtLibBv.SetBVOperator | src/main/java/za/ac/sun/cs/green/service/smtlib/ModelSMTLIBBitVectorService.java:282-339 | a symbol for every operator except NE, the one-operand functions, ATAN2 and POWER |
| SmtLibBv.SetFPOperator | src/main/java/za/ac/sun/cs/green/service/smtlib/ModelSMTLIBBitVectorService.java:228-280 | a symbol exactly for the comparisons but NE, the connectives, arithmetic and SQRT |
| SmtLibBv.BVSymbolRoundTrip | src/main/java/za/ac/sun/cs/green/service/smtlib/ModelSMTLIBBitVectorService.java:282-339 | no two operators share a bit-vector symbol |
| SmtLibBv.FPSymbolRoundTrip | src/main/java/za/ac/sun/cs/green/service/smtlib/ModelSMTLIBBitVectorService.java:228-280 | no two operators share a floating-point symbol |
| SmtLibBv.OperateBinary | src/main/java/za/ac/sun/cs/green/service/smtlib/ModelSMTLIBBitVectorService.java:346-367 | two rendered operands become `a b)`, or `(not (= a b))` for NE |
| SmtLibBv.OperateUnary | src/main/java/za/ac/sun/cs/green/service/smtlib/ModelSMTLIBBitVectorService.java:368-377 | one operand becomes `a)`, converted to IntVariable |
| SmtLibBv.WalkRenders | src/main/java/za/ac/sun/cs/green/service/smtlib/ModelSMTLIBBitVectorService.java:122-378 | the translator pushes exactly the tree-recursive rendering and never throws on a well-formed tree |
| SmtLibBv.ModelRequestOfTree | src/main/java/za/ac/sun/cs/green/service/smtlib/ModelSMTLIBBitVectorService.java:18-39 | every well-formed tree yields a query over its distinct variables |
| SmtLibBv.RenderIgnoresOperator | src/main/java/za/ac/sun/cs/green/service/smtlib/ModelSMTLIBBitVectorService.java:360-367 | the rendering of an operation other than NE does not depend on its operator |
| SmtLibBv.QueryIgnoresOperator | src/main/java/za/ac/sun/cs/green/service/smtlib/ModelSMTLIBBitVectorService.java:363 | two trees that differ only in such an operator give the same query |
| SmtLibBv.RenderDepth | src/main/java/za/ac/sun/cs/green/service/smtlib/ModelSMTLIBBitVectorService.java:341-378 | the rendering has one unmatched `)` per operation other than NE |
| SmtLibBv.QueryUnbalanced | src/main/java/za/ac/sun/cs/green/service/smtlib/ModelSMTLIBBitVectorService.java:18-39 | the query is short of exactly that many `(` |
| SmtLibBv.IntegerTermsGoThroughToFp | src/main/java/za/ac/sun/cs/green/service/smtlib/ModelSMTLIBBitVectorService.java:216-226 | IntegerVariable operands are converted to floating point |
| SmtLibBv.Translator.constructor | src/main/java/za/ac/sun/cs/green/service/smtlib/ModelSMTLIBBitVectorService.java:75-80 | empty stack, map and lists |
| SmtLibBv.Translator.PostVisitIntConstant | src/main/java/za/ac/sun/cs/green/service/smtlib/ModelSMTLIBBitVectorService.java:122-126 | pushes the numeral tagged IntVariable |
| SmtLibBv.Translator.PostVisitIntegerConstant | src/main/java/za/ac/sun/cs/green/service/smtlib/ModelSMTLIBBitVectorService.java:128-132 | pushes the numeral tagged IntegerVariable |
| SmtLibBv.Translator.PostVisitRealConstant | src/main/java/za/ac/sun/cs/green/service/smtlib/ModelSMTLIBBitVectorService.java:134-138 | pushes the real text tagged RealVariable |
| SmtLibBv.Translator.PostVisitVariable | src/main/java/za/ac/sun/cs/green/service/smtlib/ModelSMTLIBBitVectorService.java:140-204 | declares a bit-vector or Float64 constant on the first visit, pushes the name on every visit |
| SmtLibBv.Translator.PostVisitOperation | src/main/java/za/ac/sun/cs/green/service/smtlib/ModelSMTLIBBitVectorService.java:341-378 | one operation step on the stack |
| SmtLibBv.Translator.Accept | src/main/java/za/ac/sun/cs/green/service/smtlib/ModelSMTLIBBitVectorService.java:122-378 | the visit leaves exactly the walk's state |
| SmtLibBv.Translator.GetTranslation | src/main/java/za/ac/sun/cs/green/service/smtlib/ModelSMTLIBBitVectorService.java:90-100 | the domains and the popped root under one `and`; an empty stack throws |
| SmtLibBv.Model | src/main/java/za/ac/sun/cs/green/service/smtlib/ModelSMTLIBBitVectorService.java:18-39 | the query and variable map handed to `solve0` |
| Cnr.BoundsFromAppend | src/main/java/za/ac/sun/cs/green/service/barvinok/CNRService.java:897-919 | visiting a concatenation visits the first part, then the second |
| Cnr.VisitBoundKeeps | src/main/java/za/ac/sun/cs/green/service/barvinok/CNRService.java:901-918 | one visit keeps every bound variable fixed at its value and both bounds of every seen variable recorded |
| Cnr.BoundsFromSucceeds | src/main/java/za/ac/sun/cs/green/service/barvinok/CNRService.java:904 | the visit fails exactly when a variable met for the first time is not an IntVariable, and then with ClassCastException |
| Cnr.BoundsFromVars | src/main/java/za/ac/sun/cs/green/service/barvinok/CNRService.java:901-904 | `vars` gains exactly the variables visited |
| Cnr.BoundsFromBounds | src/main/java/za/ac/sun/cs/green/service/barvinok/CNRService.java:910-914 | `bounds` gains `vmin` and `vmax` of each new variable, in order of first occurrence |
| Cnr.BoundsFromMapping | src/main/java/za/ac/sun/cs/green/service/barvinok/CNRService.java:916-917 | the model maps every bound variable to its one allowed value and covers every seen variable |
| Cnr.BoundsOfExpression | src/main/java/za/ac/sun/cs/green/service/barvinok/CNRService.java:281-284 | from fresh fields, the bounds of the distinct variables, `vmin` mapped to the lower and `vmax` to the upper bound |
| Cnr.RevisitChangesNothing | src/main/java/za/ac/sun/cs/green/service/barvinok/CNRService.java:901 | variables already seen change nothing |
| Cnr.BoundsVisitor.constructor | src/main/java/za/ac/sun/cs/green/service/barvinok/CNRService.java:886-891 | the given `vars` and `bounds`, an empty model |
| Cnr.BoundsVisitor.PostVisitVariable | src/main/java/za/ac/sun/cs/green/service/barvinok/CNRService.java:897-919 | one visit step, or ClassCastException |
| Cnr.BoundsVisitor.Accept | src/main/java/za/ac/sun/cs/green/service/barvinok/CNRService.java:284 | the visit leaves exactly the state of visiting the variable occurrences in order |
| Cnr.StripBraces | src/main/java/za/ac/sun/cs/green/service/barvinok/CNRService.java:239-242 | `{body}rest` without `}` in `rest` strips to the trimmed body |
| Cnr.NoClosingBrace | src/main/java/za/ac/sun/cs/green/service/barvinok/CNRService.java:241-242 | output without `}` makes `substring` throw |
| Cnr.BracedCountIsLost | src/main/java/za/ac/sun/cs/green/service/barvinok/CNRService.java:239-242 | a count in braces yields no cases, so `solve0` then throws |
| Cnr.Lookup | src/main/java/za/ac/sun/cs/green/service/barvinok/CNRService.java:227 | the cast of the store entry: null when absent, the cases when stored, ClassCastException otherwise |
| Cnr.StoredCount | src/main/java/za/ac/sun/cs/green/service/barvinok/CNRService.java:197 | the cast of the instance data: null when absent, the count when stored, ClassCastException otherwise |
| Cnr.CnrService.constructor | src/main/java/za/ac/sun/cs/green/service/barvinok/CNRService.java:126-188 | zero counters, the given tools and store |
| Cnr.CnrService.HitAgreesWithMiss | src/main/java/za/ac/sun/cs/green/service/barvinok/CNRService.java:243-259 | after a miss stores the cases, the next lookup finds them and the count is the same |
| Cnr.CnrService.RunTool | src/main/java/za/ac/sun/cs/green/service/barvinok/CNRService.java:232-256 | translate, run the tool, strip a count or parse a formula into cases |
| Cnr.CnrService.CountCases | src/main/java/za/ac/sun/cs/green/service/barvinok/CNRService.java:281-300 | the bounds visit, then the evaluation of the cases or -1; no cases throws |
| Cnr.CnrService.Solve0 | src/main/java/za/ac/sun/cs/green/service/barvinok/CNRService.java:219-301 | with a store: a hit skips the tool and counts a hit; a miss counts, runs the tool and stores only a formula's cases; without a store the tool runs every time; of the expression only its cached string may change |
| Cnr.CnrService.Solve | src/main/java/za/ac/sun/cs/green/service/barvinok/CNRService.java:207-217 | one more invocation, then `solve0`'s answer, hit and miss counts and store update; of the expression only its cached string may change |
| Cnr.CnrService.ProcessRequest | src/main/java/za/ac/sun/cs/green/service/barvinok/CNRService.java:195-205 | a stored count is kept with store and counters unchanged; a wrong datum throws with nothing changed; otherwise the count is solved, with `solve0`'s cache effects, and stored; of the expression only its cached string may change |

## Left out

- JavaLang.CompareStrings orders characters by Unicode code point, where Java's `String.compareTo` compares UTF-16 code units. The two orders differ when a character at or above U+10000 meets one in U+E000-U+FFFF. Expressions.Expression.CompareTo and Grulia.MinByName, the TreeMap order `trimSolution` keeps, inherit this.
- The `modelCore` hook of ModelCores.ModelCoreService.Solve0, ModelCores.ModelCoreService.Solve3 and Grulia.GruliaService.CallSolver is taken to answer a non-null `ModelCore` with a non-null flag, model and core. The NullPointerException that `isSat = modelCore.getIsSat()` and `if (isSat)` throw on a null answer or flag is not modelled.
- Timing, logging and reporting are not modelled: every `System.currentTimeMillis` measurement, `report`, `shutdown` and the histograms.
- The constructors' reading of properties and configuration is not modelled, nor the loading of earlier repository entries from the store.
- The repositories' `extract` (the K closest entries) is a parameter: the tree-set search and Redis are not part of this model. The repositories are multisets, so their order is not modelled.
- The `model`, `modelCore` and `solve` hooks, the Z3 services behind them and SMT-LIB `solve0` are treated as functions of the query tree.
- The ISL translator, `invokeISCC` (a file write and an external process) and the EvaluatorVisitor of CNRService are parameters, so their output formats are not modelled. The order in which `cases.keySet()` is iterated is inside the evaluator parameter.
- Grulia.GruliaService.CalculateSatDelta: the mean is kept as an exact rational, where the source divides `double`s.
- `Double.toString` of real constants and bounds is kept abstract. Only its sign and the absence of parentheses are used.
- Counters are unbounded integers: the `int` counters' wrap-around after 2^31 increments is not modelled.
- Variables are identified by their whole declaration, so two variables with the same name and different bounds count as distinct. `Variable.toString` is taken to be the variable's name; Variable.java is not part of this model.
- `instance.getFullExpression()` is taken to be the instance's expression; Instance.java is not part of this model.
- `Misc.join` is taken to be a join with a separator; Misc.java is not part of this model.
- Cnr.CnrService.Solve0: after a ClassCastException in the bounds visit, the `vars` and `bounds` fields hold the variables visited before it; the contract does not describe them.
- Cnr.CnrService.RunTool: a TranslatorUnsupportedOperation from `translate(String)` is not modelled; the parsing of the tool's formula is a total parameter.
- Grulia.GruliaService.Solve1: a reused model is the first candidate that satisfies the query, trimmed by `trimSolution`; it is promised to satisfy the query only before trimming (`Grulia.ScanModels`), and `Grulia.TrimCanDropNeededVariable` shows the returned, trimmed model can falsify it. A delta hit's model is likewise not promised to satisfy the query outside the subtraction-free, wrap-free fragment of `Grulia.HitIsSound` (`Grulia.SubTargetHitFalsifies`).
- Grulia.GruliaService.SharesModel: the counters are updated after the scan, not between candidates. The final values agree, but the intermediate ones are not modelled.
- The bit-vector service's unused `setBVOperator` and `setFPOperator` are modelled on their own; `postVisit` never calls them, which `SmtLibBv.QueryIgnoresOperator` states.
