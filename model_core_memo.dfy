/**
 * ModelCoreService: asks the decision procedure for a model or an unsat core
 * and leaves the answer in the instance's data under three string keys. The
 * service's own cache (`solve0`) keeps the answers in the shared store under
 * keys built from the expression's canonical string.
 */
module ModelCores {
  import opened Wrappers
  import opened JavaLang
  import opened Ast
  import opened Expressions
  import opened Green

  const SERVICE_KEY: string := "MODELCORE:"
  const SAT_KEY: string := "-SAT"
  const MODEL_KEY: string := "-MODEL"
  const CORE_KEY: string := "-CORE"

  /** The store key of one slot of an expression's answer. */
  function StoreKey(cached: string, slot: string): (k: string)
    ensures StartsWith(k, SERVICE_KEY)
    ensures |k| == |SERVICE_KEY| + |cached| + |slot|
    ensures k[|SERVICE_KEY|..|SERVICE_KEY| + |cached|] == cached
    ensures k[|k| - |slot|..] == slot
  {
    SERVICE_KEY + cached + slot
  }

  predicate IsSlot(slot: string)
  {
    slot == SAT_KEY || slot == MODEL_KEY || slot == CORE_KEY
  }

  /**
   * Different slots never share a store key, whatever the two expressions,
   * and one slot of two different expressions never does either: the flag,
   * model and core of every expression have keys of their own.
   */
  lemma StoreKeyInjective(a: string, s: string, b: string, t: string)
    requires IsSlot(s) && IsSlot(t)
    requires StoreKey(a, s) == StoreKey(b, t)
    ensures a == b && s == t
  {
    var k := StoreKey(a, s);
    // the three slots end in three different letters
    assert k[|k| - 1] == s[|s| - 1];
    assert k == SERVICE_KEY + b + t;
    assert k[|k| - 1] == t[|t| - 1];
    assert s == t;
    assert a == k[|SERVICE_KEY|..|SERVICE_KEY| + |a|];
    assert b == k[|SERVICE_KEY|..|SERVICE_KEY| + |b|];
  }

  /** The entry `new SatEntry(satDelta, model)` builds; SatEntry.java is not part of this model, its size is taken to be the model's. */
  function NewSatEntry(satDelta: real, model: Model): (e: SatEntry)
    ensures e.satDelta == satDelta && e.solution == model && e.size == |model|
  {
    SatEntry(satDelta, model, |model|)
  }

  /** The entry `new UnsatEntry(satDelta, core)` builds; its size is taken to be the core's. */
  function NewUnsatEntry(satDelta: real, core: set<Expression>): (e: UnsatEntry)
    ensures e.satDelta == satDelta && e.solution == core && e.size == |core|
  {
    UnsatEntry(satDelta, core, |core|)
  }

  /** `isSat(instance)`: the cast `(Boolean) instance.getData(SAT_KEY)`; `None` stands for null. */
  function IsSat(data: map<DataKey, Datum>): (r: Result<Option<bool>, Fault>)
    ensures r.Success? && r.value.Some? <==> NamedKey(SAT_KEY) in data && data[NamedKey(SAT_KEY)].BoolDatum?
    ensures r.Success? && r.value.Some? ==> r.value.value == data[NamedKey(SAT_KEY)].flag
    ensures r == Success(None) <==> NamedKey(SAT_KEY) !in data
  {
    if NamedKey(SAT_KEY) !in data then Success(None)
    else match data[NamedKey(SAT_KEY)]
      case BoolDatum(b) => Success(Some(b))
      case _ => Failure(ClassCast)
  }

  /** `getModel(instance)`: the solution of the SatEntry under MODEL_KEY; a missing entry is dereferenced as null. */
  function GetModel(data: map<DataKey, Datum>): (r: Result<Model, Fault>)
    ensures r.Success? <==> NamedKey(MODEL_KEY) in data && data[NamedKey(MODEL_KEY)].SatEntryDatum?
    ensures r.Success? ==> r.value == data[NamedKey(MODEL_KEY)].satEntry.solution
    ensures r == Failure(NullPointer) <==> NamedKey(MODEL_KEY) !in data
  {
    if NamedKey(MODEL_KEY) !in data then Failure(NullPointer)
    else match data[NamedKey(MODEL_KEY)]
      case SatEntryDatum(e) => Success(e.solution)
      case _ => Failure(ClassCast)
  }

  /** `getCore(instance)`: the solution of the UnsatEntry under CORE_KEY. */
  function GetCore(data: map<DataKey, Datum>): (r: Result<set<Expression>, Fault>)
    ensures r.Success? <==> NamedKey(CORE_KEY) in data && data[NamedKey(CORE_KEY)].UnsatEntryDatum?
    ensures r.Success? ==> r.value == data[NamedKey(CORE_KEY)].unsatEntry.solution
    ensures r == Failure(NullPointer) <==> NamedKey(CORE_KEY) !in data
  {
    if NamedKey(CORE_KEY) !in data then Failure(NullPointer)
    else match data[NamedKey(CORE_KEY)]
      case UnsatEntryDatum(e) => Success(e.solution)
      case _ => Failure(ClassCast)
  }

  /** The instance data `solve3` leaves: the flag, and the model entry or the core entry. */
  function Solved(data: map<DataKey, Datum>, answer: ModelCore, satDelta: real): map<DataKey, Datum>
  {
    var flagged := data[NamedKey(SAT_KEY) := BoolDatum(answer.isSat)];
    if answer.isSat then flagged[NamedKey(MODEL_KEY) := SatEntryDatum(NewSatEntry(satDelta, answer.model))]
    else flagged[NamedKey(CORE_KEY) := UnsatEntryDatum(NewUnsatEntry(satDelta, answer.core))]
  }

  /** After `solve3` the getters read back exactly what the decision procedure answered. */
  lemma SolvedReadsBack(data: map<DataKey, Datum>, answer: ModelCore, satDelta: real)
    ensures IsSat(Solved(data, answer, satDelta)) == Success(Some(answer.isSat))
    ensures answer.isSat ==> GetModel(Solved(data, answer, satDelta)) == Success(answer.model)
    ensures !answer.isSat ==> GetCore(Solved(data, answer, satDelta)) == Success(answer.core)
    ensures answer.isSat ==> Solved(data, answer, satDelta).Keys == data.Keys + {NamedKey(SAT_KEY), NamedKey(MODEL_KEY)}
    ensures !answer.isSat ==> Solved(data, answer, satDelta).Keys == data.Keys + {NamedKey(SAT_KEY), NamedKey(CORE_KEY)}
  {
  }

  /**
   * The hit branch of `solve0` on the stored flag datum `flag`: the cast
   * `(Boolean)` of the flag, then the cast `(SatEntry)` or `(UnsatEntry)` of
   * the entry the store holds for that verdict; a missing entry is null.
   */
  function Recalled(entries: map<string, Datum>, key: string, flag: Datum): (r: Result<(bool, Option<SatEntry>, Option<UnsatEntry>), Fault>)
    ensures r.Failure? <==>
      || !flag.BoolDatum?
      || (flag.flag && key + MODEL_KEY in entries && !entries[key + MODEL_KEY].SatEntryDatum?)
      || (!flag.flag && key + CORE_KEY in entries && !entries[key + CORE_KEY].UnsatEntryDatum?)
    ensures r.Failure? ==> r.error == ClassCast
    ensures r.Success? ==>
      && r.value.0 == flag.flag
      && r.value.1 == (if flag.flag && key + MODEL_KEY in entries then Some(entries[key + MODEL_KEY].satEntry) else None)
      && r.value.2 == (if !flag.flag && key + CORE_KEY in entries then Some(entries[key + CORE_KEY].unsatEntry) else None)
  {
    if !flag.BoolDatum? then Failure(ClassCast)
    else if flag.flag then
      if key + MODEL_KEY !in entries then Success((true, None, None))
      else match entries[key + MODEL_KEY]
        case SatEntryDatum(e) => Success((true, Some(e), None))
        case _ => Failure(ClassCast)
    else
      if key + CORE_KEY !in entries then Success((false, None, None))
      else match entries[key + CORE_KEY]
        case UnsatEntryDatum(e) => Success((false, None, Some(e)))
        case _ => Failure(ClassCast)
  }

  /** The instance data the end of `solve0` leaves: the flag, and the entry for it; a null entry removes the slot. */
  function Published(data: map<DataKey, Datum>, isSat: bool, se: Option<SatEntry>, ue: Option<UnsatEntry>): map<DataKey, Datum>
  {
    var flagged := data[NamedKey(SAT_KEY) := BoolDatum(isSat)];
    if isSat then (if se.Some? then flagged[NamedKey(MODEL_KEY) := SatEntryDatum(se.value)] else flagged - {NamedKey(MODEL_KEY)})
    else (if ue.Some? then flagged[NamedKey(CORE_KEY) := UnsatEntryDatum(ue.value)] else flagged - {NamedKey(CORE_KEY)})
  }

  class ModelCoreService {
    /** The `modelCore` hook: the decision procedure, treated as a function of the query. */
    const modelCore: Expr -> ModelCore
    /** The shared key-value store `solve0` caches answers in. */
    const store: Store
    var invocationCount: int
    var cacheHitCount: int
    var satHitCount: int
    var unsatHitCount: int
    var cacheMissCount: int
    var satMissCount: int
    var unsatMissCount: int

    constructor (modelCore: Expr -> ModelCore, store: Store)
      ensures this.modelCore == modelCore && this.store == store
      ensures invocationCount == 0 && cacheHitCount == 0 && satHitCount == 0 && unsatHitCount == 0
      ensures cacheMissCount == 0 && satMissCount == 0 && unsatMissCount == 0
    {
      this.modelCore := modelCore;
      this.store := store;
      invocationCount := 0;
      cacheHitCount := 0;
      satHitCount := 0;
      unsatHitCount := 0;
      cacheMissCount := 0;
      satMissCount := 0;
      unsatMissCount := 0;
    }

    /** `allChildrenDone`: hands back the instance itself. */
    method AllChildrenDone(instance: Instance) returns (r: Instance)
      ensures r == instance
    {
      r := instance;
    }

    /** `processRequest`: solves only an instance that carries no SAT_KEY data yet. */
    method ProcessRequest(instance: Instance)
      modifies this`invocationCount, this`satMissCount, this`unsatMissCount, instance`data
      ensures NamedKey(SAT_KEY) in old(instance.data) ==>
        instance.data == old(instance.data) && invocationCount == old(invocationCount)
        && satMissCount == old(satMissCount) && unsatMissCount == old(unsatMissCount)
      ensures NamedKey(SAT_KEY) !in old(instance.data) ==>
        && instance.data == Solved(old(instance.data), modelCore(instance.expression.tree), instance.expression.satDelta)
        && invocationCount == old(invocationCount) + 1
        && satMissCount == old(satMissCount) + (if modelCore(instance.expression.tree).isSat then 1 else 0)
        && unsatMissCount == old(unsatMissCount) + (if modelCore(instance.expression.tree).isSat then 0 else 1)
    {
      if NamedKey(SAT_KEY) !in instance.data {
        Solve3(instance);
      }
    }

    /** `solve3`: one call of the decision procedure; the flag and exactly one of model entry and core entry are set. */
    method Solve3(instance: Instance)
      modifies this`invocationCount, this`satMissCount, this`unsatMissCount, instance`data
      ensures instance.data == Solved(old(instance.data), modelCore(instance.expression.tree), instance.expression.satDelta)
      ensures invocationCount == old(invocationCount) + 1
      ensures satMissCount == old(satMissCount) + (if modelCore(instance.expression.tree).isSat then 1 else 0)
      ensures unsatMissCount == old(unsatMissCount) + (if modelCore(instance.expression.tree).isSat then 0 else 1)
    {
      invocationCount := invocationCount + 1;
      var answer := modelCore(instance.expression.tree);
      instance.SetData(NamedKey(SAT_KEY), Some(BoolDatum(answer.isSat)));
      if answer.isSat {
        satMissCount := satMissCount + 1;
        var se := NewSatEntry(instance.expression.satDelta, answer.model);
        instance.SetData(NamedKey(MODEL_KEY), Some(SatEntryDatum(se)));
      } else {
        unsatMissCount := unsatMissCount + 1;
        var ue := NewUnsatEntry(instance.expression.satDelta, answer.core);
        instance.SetData(NamedKey(CORE_KEY), Some(UnsatEntryDatum(ue)));
      }
    }

    /**
     * `solve0`, the store-backed variant: a miss asks the decision procedure
     * and stores the flag and exactly one of model entry and core entry; a hit
     * reads them back without asking. Either way the instance gets the flag
     * and the entry (an entry missing from the store removes the slot).
     */
    method Solve0(instance: Instance) returns (o: Outcome<Fault>)
      requires instance.expression.Valid()
      requires instance.expression != store as object
      modifies this`invocationCount, this`cacheHitCount, this`cacheMissCount, this`satHitCount, this`unsatHitCount
      modifies this`satMissCount, this`unsatMissCount, instance`data, store
      modifies instance.expression`stringRep, instance.expression`toStringCalls
      ensures instance.expression.Valid()
      ensures invocationCount == old(invocationCount) + 1
      ensures var key := SERVICE_KEY + instance.expression.rendering;
        var answer := modelCore(instance.expression.tree);
        var delta := instance.expression.satDelta;
        && (StoreKey(instance.expression.rendering, SAT_KEY) !in old(store.entries) ==>
             && o == Pass
             && cacheMissCount == old(cacheMissCount) + 1 && cacheHitCount == old(cacheHitCount)
             && satMissCount == old(satMissCount) + (if answer.isSat then 1 else 0)
             && unsatMissCount == old(unsatMissCount) + (if answer.isSat then 0 else 1)
             && satHitCount == old(satHitCount) && unsatHitCount == old(unsatHitCount)
             && store.entries == (if answer.isSat
                  then old(store.entries)[key + SAT_KEY := BoolDatum(true)][key + MODEL_KEY := SatEntryDatum(NewSatEntry(delta, answer.model))]
                  else old(store.entries)[key + SAT_KEY := BoolDatum(false)][key + CORE_KEY := UnsatEntryDatum(NewUnsatEntry(delta, answer.core))])
             && instance.data == Solved(old(instance.data), answer, delta))
        && (StoreKey(instance.expression.rendering, SAT_KEY) in old(store.entries) ==>
             var d := old(store.entries)[StoreKey(instance.expression.rendering, SAT_KEY)];
             var recalled := Recalled(old(store.entries), key, d);
             && store.entries == old(store.entries)
             && cacheMissCount == old(cacheMissCount)
             && satMissCount == old(satMissCount) && unsatMissCount == old(unsatMissCount)
             && satHitCount == old(satHitCount) + (if d.BoolDatum? && d.flag then 1 else 0)
             && unsatHitCount == old(unsatHitCount) + (if d.BoolDatum? && !d.flag then 1 else 0)
             && (recalled.Failure? ==>
                   o == Fail(ClassCast) && instance.data == old(instance.data) && cacheHitCount == old(cacheHitCount))
             && (recalled.Success? ==>
                   && o == Pass && cacheHitCount == old(cacheHitCount) + 1
                   && instance.data == Published(old(instance.data), d.flag, recalled.value.1, recalled.value.2)))
        && (o.Pass? ==> IsSat(instance.data).Success? && IsSat(instance.data).value.Some?)
    {
      invocationCount := invocationCount + 1;
      var cached := instance.expression.GetCachedString();
      var key := SERVICE_KEY + cached;
      var flag := store.Get(key + SAT_KEY);
      var isSat: bool;
      var se: Option<SatEntry>;
      var ue: Option<UnsatEntry>;
      if flag.None? {
        isSat, se, ue := Compute(instance.expression, key);
      } else {
        var recalled := Recall(key, flag.value);
        if recalled.Failure? {
          return Fail(recalled.error);
        }
        isSat, se, ue := recalled.value.0, recalled.value.1, recalled.value.2;
      }
      Publish(instance, isSat, se, ue);
      o := Pass;
    }

    /** The miss branch of `solve0`: the decision procedure is asked, and its answer stored under `key`. */
    method Compute(expr: Expression, key: string) returns (isSat: bool, se: Option<SatEntry>, ue: Option<UnsatEntry>)
      modifies this`cacheMissCount, this`satMissCount, this`unsatMissCount, store
      ensures var answer := modelCore(expr.tree);
        && isSat == answer.isSat
        && se == (if isSat then Some(NewSatEntry(expr.satDelta, answer.model)) else None)
        && ue == (if isSat then None else Some(NewUnsatEntry(expr.satDelta, answer.core)))
        && store.entries == (if isSat
             then old(store.entries)[key + SAT_KEY := BoolDatum(true)][key + MODEL_KEY := SatEntryDatum(se.value)]
             else old(store.entries)[key + SAT_KEY := BoolDatum(false)][key + CORE_KEY := UnsatEntryDatum(ue.value)])
      ensures cacheMissCount == old(cacheMissCount) + 1
      ensures satMissCount == old(satMissCount) + (if isSat then 1 else 0)
      ensures unsatMissCount == old(unsatMissCount) + (if isSat then 0 else 1)
    {
      cacheMissCount := cacheMissCount + 1;
      var answer := modelCore(expr.tree);
      isSat := answer.isSat;
      store.Put(key + SAT_KEY, BoolDatum(isSat));
      if isSat {
        satMissCount := satMissCount + 1;
        se, ue := Some(NewSatEntry(expr.satDelta, answer.model)), None;
        store.Put(key + MODEL_KEY, SatEntryDatum(se.value));
      } else {
        unsatMissCount := unsatMissCount + 1;
        se, ue := None, Some(NewUnsatEntry(expr.satDelta, answer.core));
        store.Put(key + CORE_KEY, UnsatEntryDatum(ue.value));
      }
    }

    /**
     * The hit branch of `solve0`: the stored flag, and the stored model entry
     * or core entry when there is one; a datum of the wrong kind throws.
     */
    method Recall(key: string, flag: Datum) returns (r: Result<(bool, Option<SatEntry>, Option<UnsatEntry>), Fault>)
      modifies this`cacheHitCount, this`satHitCount, this`unsatHitCount
      ensures r == Recalled(store.entries, key, flag)
      ensures cacheHitCount == old(cacheHitCount) + (if r.Success? then 1 else 0)
      ensures satHitCount == old(satHitCount) + (if flag.BoolDatum? && flag.flag then 1 else 0)
      ensures unsatHitCount == old(unsatHitCount) + (if flag.BoolDatum? && !flag.flag then 1 else 0)
    {
      if !flag.BoolDatum? {
        return Failure(ClassCast);
      }
      var isSat := flag.flag;
      var se: Option<SatEntry> := None;
      var ue: Option<UnsatEntry> := None;
      if isSat {
        satHitCount := satHitCount + 1;
        var d := store.Get(key + MODEL_KEY);
        if d.Some? {
          if !d.value.SatEntryDatum? {
            return Failure(ClassCast);
          }
          se := Some(d.value.satEntry);
        }
      } else {
        unsatHitCount := unsatHitCount + 1;
        var d := store.Get(key + CORE_KEY);
        if d.Some? {
          if !d.value.UnsatEntryDatum? {
            return Failure(ClassCast);
          }
          ue := Some(d.value.unsatEntry);
        }
      }
      cacheHitCount := cacheHitCount + 1;
      r := Success((isSat, se, ue));
    }

    /** The end of `solve0`: the flag and the model entry or core entry go into the instance; a missing entry removes the slot. */
    method Publish(instance: Instance, isSat: bool, se: Option<SatEntry>, ue: Option<UnsatEntry>)
      modifies instance`data
      ensures var flagged := old(instance.data)[NamedKey(SAT_KEY) := BoolDatum(isSat)];
        && (isSat && se.Some? ==> instance.data == flagged[NamedKey(MODEL_KEY) := SatEntryDatum(se.value)])
        && (isSat && se.None? ==> instance.data == flagged - {NamedKey(MODEL_KEY)})
        && (!isSat && ue.Some? ==> instance.data == flagged[NamedKey(CORE_KEY) := UnsatEntryDatum(ue.value)])
        && (!isSat && ue.None? ==> instance.data == flagged - {NamedKey(CORE_KEY)})
      ensures instance.data == Published(old(instance.data), isSat, se, ue)
      ensures IsSat(instance.data) == Success(Some(isSat))
    {
      instance.SetData(NamedKey(SAT_KEY), Some(BoolDatum(isSat)));
      if isSat {
        instance.SetData(NamedKey(MODEL_KEY), if se.Some? then Some(SatEntryDatum(se.value)) else None);
      } else {
        instance.SetData(NamedKey(CORE_KEY), if ue.Some? then Some(UnsatEntryDatum(ue.value)) else None);
      }
    }
  }
}
