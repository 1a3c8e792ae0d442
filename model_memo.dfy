/**
 * ModelService1: the base of the model-producing services. A request is
 * answered at most once per instance: the model the `model` hook produces is
 * kept in the instance's data under the service's class key.
 */
module ModelMemo {
  import opened Wrappers
  import opened JavaLang
  import opened Ast
  import opened Green

  /** The cast `(Map<Variable, Object>) instance.getData(getClass())`; `None` stands for null. */
  function StoredModel(data: map<DataKey, Datum>, key: DataKey): (r: Result<Option<Model>, Fault>)
    ensures r == Success(None) <==> key !in data
    ensures r.Success? && r.value.Some? <==> key in data && data[key].ModelDatum?
    ensures r.Success? && r.value.Some? ==> r.value.value == data[key].model
    ensures r.Failure? ==> r.error == ClassCast
  {
    if key !in data then Success(None)
    else match data[key]
      case ModelDatum(m) => Success(Some(m))
      case _ => Failure(ClassCast)
  }

  class ModelService1 {
    /** The name of the concrete service class, the key of its instance data. */
    const className: string
    /** The `model` hook of the concrete service, treated as a function of the query. */
    const model: Expr -> Option<Model>
    var invocationCount: int
    var satCount: int
    var unsatCount: int

    constructor (className: string, model: Expr -> Option<Model>)
      ensures this.className == className && this.model == model
      ensures invocationCount == 0 && satCount == 0 && unsatCount == 0
    {
      this.className := className;
      this.model := model;
      invocationCount := 0;
      satCount := 0;
      unsatCount := 0;
    }

    /** `allChildrenDone`: whatever is stored under the class key. */
    method AllChildrenDone(instance: Instance) returns (r: Option<Datum>)
      ensures r.Some? <==> ClassKey(className) in instance.data
      ensures r.Some? ==> r.value == instance.data[ClassKey(className)]
    {
      r := instance.GetData(ClassKey(className));
    }

    /**
     * `processRequest`: calls `solve0` only when no model is stored under the
     * class key; `solve0` answers null, so nothing is stored here.
     */
    method ProcessRequest(instance: Instance) returns (o: Outcome<Fault>)
      modifies this`invocationCount, this`satCount, this`unsatCount, instance`data
      ensures var stored := StoredModel(old(instance.data), ClassKey(className));
        && (stored.Failure? ==> o == Fail(ClassCast) && unchanged(this) && unchanged(instance))
        && (stored == Success(None) ==> o == Pass && Solve0Effect(old(instance.data), old(invocationCount), old(satCount), old(unsatCount), instance))
        && (stored.Success? && stored.value.Some? ==> o == Pass && unchanged(this) && unchanged(instance))
    {
      var result := StoredModel(instance.data, ClassKey(className));
      if result.Failure? {
        return Fail(result.error);
      }
      if result.value.None? {
        var r := Solve0(instance);
        // `solve0` always answers null, so there is nothing to store here
        assert r == Success(None);
      }
      o := Pass;
    }

    /** What `solve0` does to an instance with no model under the class key. */
    ghost predicate Solve0Effect(oldData: map<DataKey, Datum>, oldInvocations: int, oldSat: int, oldUnsat: int, instance: Instance)
      reads this, instance
    {
      var answer := model(instance.expression.tree);
      && invocationCount == oldInvocations + 1
      && instance.data == (if answer.Some? then oldData[ClassKey(className) := ModelDatum(answer.value)] else oldData)
      && satCount == oldSat + (if answer.Some? then 1 else 0)
      && unsatCount == oldUnsat + (if answer.Some? then 0 else 1)
    }

    /**
     * `solve0`: one invocation; stores the hook's model when there is one and
     * counts the query as sat or unsat, and always answers null.
     */
    method Solve0(instance: Instance) returns (r: Result<Option<Model>, Fault>)
      requires ClassKey(className) !in instance.data
      modifies this`invocationCount, this`satCount, this`unsatCount, instance`data
      ensures r == Success(None)
      ensures Solve0Effect(old(instance.data), old(invocationCount), old(satCount), old(unsatCount), instance)
    {
      invocationCount := invocationCount + 1;
      var result := StoredModel(instance.data, ClassKey(className));
      assert result == Success(None);
      var answer := model(instance.expression.tree);
      if answer.Some? {
        instance.SetData(ClassKey(className), Some(ModelDatum(answer.value)));
      }
      if answer.Some? {
        satCount := satCount + 1;
      } else {
        unsatCount := unsatCount + 1;
      }
      r := Success(None);
    }
  }
}
