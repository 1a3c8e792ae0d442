/**
 * The Green pipeline objects the services exchange: an `Instance` (a query with
 * a per-service data map), the shared key-value `Store`, and the cache entries
 * the Grulia repositories hold. Of the `Store` interface only `get` and `put`
 * are modelled; Instance.java, SatEntry.java and UnsatEntry.java are not part of
 * this model, and only the members the services use are modelled.
 */
module Green {
  import opened Wrappers
  import opened Ast
  import opened Expressions

  /**
   * A repository entry for a satisfiable query: the query's sat-delta, its model,
   * and its size, the number of variables the model binds.
   */
  datatype SatEntry = SatEntry(satDelta: real, solution: Model, size: int)

  /** A repository entry for an unsatisfiable query: its sat-delta and its unsat core. */
  datatype UnsatEntry = UnsatEntry(satDelta: real, solution: set<Expression>, size: int)

  /** The model of a satisfiable query, or the core of an unsatisfiable one, as a solver returns them. */
  datatype ModelCore = ModelCore(isSat: bool, model: Model, core: set<Expression>)

  /** Instance data keys: a service's class, or a string key. */
  datatype DataKey = ClassKey(className: string) | NamedKey(key: string)

  /** The objects services put into instance data and the store. */
  datatype Datum =
    | ModelDatum(model: Model)
    | BoolDatum(flag: bool)
    | SatEntryDatum(satEntry: SatEntry)
    | UnsatEntryDatum(unsatEntry: UnsatEntry)
    | CountDatum(count: int)
    | CasesDatum(cases: map<Expr, Expr>)

  /** A query travelling through the service pipeline. */
  class Instance {
    const expression: Expression
    /** The per-instance data map; a key mapped to null is absent. */
    var data: map<DataKey, Datum>

    constructor (expression: Expression)
      ensures this.expression == expression && data == map[]
    {
      this.expression := expression;
      data := map[];
    }

    /** `getData(key)`: `None` stands for null. */
    function GetData(key: DataKey): (r: Option<Datum>)
      reads this
      ensures r.Some? <==> key in data
      ensures r.Some? ==> r.value == data[key]
    {
      if key in data then Some(data[key]) else None
    }

    /** `setData(key, value)`; storing null removes the key. */
    method SetData(key: DataKey, value: Option<Datum>)
      modifies this`data
      ensures value.Some? ==> data == old(data)[key := value.value]
      ensures value.None? ==> data == old(data) - {key}
    {
      if value.Some? {
        data := data[key := value.value];
      } else {
        data := data - {key};
      }
    }
  }

  /** The shared key-value store. */
  class Store {
    var entries: map<string, Datum>

    constructor ()
      ensures entries == map[]
    {
      entries := map[];
    }

    /** `get(key)`: `None` stands for null. */
    function Get(key: string): (r: Option<Datum>)
      reads this
      ensures r.Some? <==> key in entries
      ensures r.Some? ==> r.value == entries[key]
    {
      if key in entries then Some(entries[key]) else None
    }

    method Put(key: string, value: Datum)
      modifies this
      ensures entries == old(entries)[key := value]
    {
      entries := entries[key := value];
    }
  }
}
