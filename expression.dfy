/**
 * Expression.java: every expression node caches its canonical string on first
 * use, carries a mutable sat-delta annotation, and is ordered by its string.
 */
module Expressions {
  import opened Wrappers
  import opened JavaLang
  import opened Ast

  class Expression {
    /** The node's immutable tree. */
    const tree: Expr
    /** What the node's `toString()` yields; how subclasses render themselves is not part of this model. */
    const rendering: string
    /** The lazily filled `stringRep` field; `None` stands for null. */
    var stringRep: Option<string>
    /** The public `satDelta` field written by the sat-delta computation. */
    var satDelta: real
    /** How many times `toString()` has been called to fill the cache. */
    ghost var toStringCalls: nat

    /** The cache, once filled, holds the rendering, and it was filled by exactly one `toString()` call. */
    ghost predicate Valid()
      reads this
    {
      && (stringRep.None? ==> toStringCalls == 0)
      && (stringRep.Some? ==> stringRep.value == rendering && toStringCalls == 1)
    }

    constructor (tree: Expr, rendering: string)
      ensures this.tree == tree && this.rendering == rendering
      ensures stringRep.None? && toStringCalls == 0 && Valid()
      ensures satDelta == 0.0
    {
      this.tree := tree;
      this.rendering := rendering;
      stringRep := None;
      satDelta := 0.0;
      toStringCalls := 0;
    }

    /** `getCachedString`: calls `toString()` on the first call only and returns the same string on every call. */
    method GetCachedString() returns (s: string)
      requires Valid()
      modifies this`stringRep, this`toStringCalls
      ensures Valid()
      ensures s == rendering && stringRep == Some(rendering)
      ensures toStringCalls == old(toStringCalls) + (if old(stringRep).None? then 1 else 0)
    {
      if stringRep.None? {
        stringRep := Some(rendering);
        toStringCalls := toStringCalls + 1;
      }
      s := stringRep.value;
    }

    /** `compareTo`: the lexicographic comparison of the two cached strings. */
    method CompareTo(other: Expression) returns (c: int)
      requires Valid() && other.Valid()
      modifies this`stringRep, this`toStringCalls, other`stringRep, other`toStringCalls
      ensures Valid() && other.Valid()
      ensures c == CompareStrings(rendering, other.rendering)
      ensures c == 0 <==> rendering == other.rendering
    {
      var a := GetCachedString();
      var b := other.GetCachedString();
      c := CompareStrings(a, b);
      CompareZeroIffEqual(a, b);
    }
  }
}
