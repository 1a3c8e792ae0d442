/**
 * SATService1: the base of the satisfiability services, without caching. The
 * answer of the `solve` hook is kept in the instance's data under the
 * service's class key, and every request is counted as sat or unsat.
 */
module SatMemo {
  import opened Wrappers
  import opened JavaLang
  import opened Ast
  import opened Green

  /** The cast `(Boolean) instance.getData(getClass())`; `None` stands for null. */
  function StoredFlag(data: map<DataKey, Datum>, key: DataKey): (r: Result<Option<bool>, Fault>)
    ensures r == Success(None) <==> key !in data
    ensures r.Success? && r.value.Some? <==> key in data && data[key].BoolDatum?
    ensures r.Success? && r.value.Some? ==> r.value.value == data[key].flag
    ensures r.Failure? ==> r.error == ClassCast
  {
    if key !in data then Success(None)
    else match data[key]
      case BoolDatum(b) => Success(Some(b))
      case _ => Failure(ClassCast)
  }

  class SatService1 {
    const className: string
    /** The `solve` hook of the concrete service; `None` stands for a null answer. */
    const solve: Expr -> Option<bool>
    var invocationCount: int
    var cacheHitCount: int
    var cacheMissCount: int
    var satCount: int
    var unsatCount: int

    constructor (className: string, solve: Expr -> Option<bool>)
      ensures this.className == className && this.solve == solve
      ensures invocationCount == 0 && cacheHitCount == 0 && cacheMissCount == 0 && satCount == 0 && unsatCount == 0
    {
      this.className := className;
      this.solve := solve;
      invocationCount := 0;
      cacheHitCount := 0;
      cacheMissCount := 0;
      satCount := 0;
      unsatCount := 0;
    }

    /** `allChildrenDone`: whatever is stored under the class key. */
    method AllChildrenDone(instance: Instance) returns (r: Option<Datum>)
      ensures r.Some? <==> ClassKey(className) in instance.data
      ensures r.Some? ==> r.value == instance.data[ClassKey(className)]
    {
      r := instance.GetData(ClassKey(className));
    }

    /**
     * `processRequest`: calls `solve0` only when no flag is stored, stores a
     * non-null answer, and counts the request as sat or unsat even when the
     * flag was already stored. Unboxing a null answer throws (assertions are
     * off), before anything is counted.
     */
    method ProcessRequest(instance: Instance) returns (o: Outcome<Fault>)
      modifies this`invocationCount, this`cacheMissCount, this`satCount, this`unsatCount, instance`data
      ensures cacheHitCount == old(cacheHitCount)
      ensures var stored := StoredFlag(old(instance.data), ClassKey(className));
        var answer := solve(instance.expression.tree);
        && (stored.Failure? ==> o == Fail(ClassCast) && unchanged(this) && unchanged(instance))
        && (stored == Success(None) ==>
             && invocationCount == old(invocationCount) + 1 && cacheMissCount == old(cacheMissCount) + 1
             && (answer.None? ==> o == Fail(NullPointer) && instance.data == old(instance.data)
                                  && satCount == old(satCount) && unsatCount == old(unsatCount))
             && (answer.Some? ==> o == Pass && instance.data == old(instance.data)[ClassKey(className) := BoolDatum(answer.value)]
                                  && satCount == old(satCount) + (if answer.value then 1 else 0)
                                  && unsatCount == old(unsatCount) + (if answer.value then 0 else 1)))
        && (stored.Success? && stored.value.Some? ==>
             && o == Pass && instance.data == old(instance.data)
             && invocationCount == old(invocationCount) && cacheMissCount == old(cacheMissCount)
             && satCount == old(satCount) + (if stored.value.value then 1 else 0)
             && unsatCount == old(unsatCount) + (if stored.value.value then 0 else 1))
    {
      var stored := StoredFlag(instance.data, ClassKey(className));
      if stored.Failure? {
        return Fail(stored.error);
      }
      var result := stored.value;
      if result.None? {
        result := Solve0(instance);
        if result.Some? {
          instance.SetData(ClassKey(className), Some(BoolDatum(result.value)));
        }
      }
      if result.None? {
        return Fail(NullPointer);
      }
      if result.value {
        satCount := satCount + 1;
      } else {
        unsatCount := unsatCount + 1;
      }
      o := Pass;
    }

    /** `solve0`: every call is an invocation and a cache miss; there is no cache to hit. */
    method Solve0(instance: Instance) returns (r: Option<bool>)
      modifies this`invocationCount, this`cacheMissCount
      ensures r == solve(instance.expression.tree)
      ensures invocationCount == old(invocationCount) + 1 && cacheMissCount == old(cacheMissCount) + 1
    {
      invocationCount := invocationCount + 1;
      cacheMissCount := cacheMissCount + 1;
      r := solve(instance.expression.tree);
    }
  }
}
