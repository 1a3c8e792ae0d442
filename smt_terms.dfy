/**
 * What the two SMT-LIB translators of the Green services share: the type tag
 * every rendered term carries, the declarations a translator collects on the
 * first visit of each variable, the conjunction `getTranslation` builds, the
 * query `model` assembles for `solve0`, and the parenthesis balance used to
 * say whether a rendering is a well-nested S-expression (section 3.1 of the
 * SMT-LIB 2.6 standard).
 */
module SmtTerms {
  import opened Wrappers
  import opened JavaLang
  import opened Ast

  /** The variable class a rendered term is tagged with: IntVariable, IntegerVariable or RealVariable. */
  datatype TypeTag = IntTag | IntegerTag | RealTag

  /** TranslatorPair: a rendered term and its tag. */
  datatype Pair = Pair(text: string, tag: TypeTag)

  /** The declarations a translator has collected: `varMap`, `defs` and `domains`. */
  datatype Declarations = Declarations(varMap: map<Variable, string>, defs: seq<string>, domains: seq<string>)

  /** A translator's state: its stack of rendered terms and its declarations. */
  datatype TState = TState(stack: seq<Pair>, decls: Declarations)

  /** The state of a new Translator. */
  const Fresh: TState := TState([], Declarations(map[], [], []))

  /** Pops the top of the stack when there is one; `None` stands for the null the translator keeps then. */
  function Pop(stack: seq<Pair>): (Option<Pair>, seq<Pair>)
  {
    if stack == [] then (None, stack) else (Some(stack[|stack| - 1]), stack[..|stack| - 1])
  }

  /** An S-expression list: `s` between parentheses. */
  function Parens(s: string): string
  {
    "(" + s + ")"
  }

  /**
   * The first visit of `v` maps it to its name and adds its declaration and
   * its domain constraint; a later visit finds it in `varMap` and adds nothing.
   */
  function Declare(d: Declarations, v: Variable, decl: string, domain: string): Declarations
  {
    if v in d.varMap then d
    else Declarations(d.varMap[v := v.name], d.defs + [decl], d.domains + [domain])
  }

  /** Visiting the variables of `vs` in order, with `decl` and `domain` rendering one variable. */
  function DeclareAll(d: Declarations, vs: seq<Variable>, decl: Variable -> string, domain: Variable -> string): Declarations
    decreases |vs|
  {
    if vs == [] then d else DeclareAll(Declare(d, vs[0], decl(vs[0]), domain(vs[0])), vs[1..], decl, domain)
  }

  /** Visiting a single variable is one `Declare`. */
  lemma DeclareOne(d: Declarations, v: Variable, decl: Variable -> string, domain: Variable -> string)
    ensures DeclareAll(d, [v], decl, domain) == Declare(d, v, decl(v), domain(v))
  {
    assert [v][1..] == [];
  }

  /** `f` applied to every variable of `vs`, in order. */
  function Each(vs: seq<Variable>, f: Variable -> string): seq<string>
    decreases |vs|
  {
    if vs == [] then [] else [f(vs[0])] + Each(vs[1..], f)
  }

  lemma {:induction false} EachAt(vs: seq<Variable>, f: Variable -> string)
    ensures |Each(vs, f)| == |vs|
    ensures forall k :: 0 <= k < |vs| ==> Each(vs, f)[k] == f(vs[k])
    decreases |vs|
  {
    if vs != [] {
      EachAt(vs[1..], f);
    }
  }

  lemma {:induction false} DeclareAllAppend(d: Declarations, a: seq<Variable>, b: seq<Variable>,
                                            decl: Variable -> string, domain: Variable -> string)
    ensures DeclareAll(d, a + b, decl, domain) == DeclareAll(DeclareAll(d, a, decl, domain), b, decl, domain)
    decreases |a|
  {
    if a == [] {
      assert a + b == b;
    } else {
      assert (a + b)[1..] == a[1..] + b;
      DeclareAllAppend(Declare(d, a[0], decl(a[0]), domain(a[0])), a[1..], b, decl, domain);
    }
  }

  /** Visiting `vs` maps every variable met to its name and keeps the earlier entries. */
  lemma {:induction false} DeclareAllMaps(d: Declarations, vs: seq<Variable>, decl: Variable -> string, domain: Variable -> string)
    ensures var r := DeclareAll(d, vs, decl, domain);
      && r.varMap.Keys == d.varMap.Keys + (set v | v in vs)
      && (forall v :: v in d.varMap ==> r.varMap[v] == d.varMap[v])
      && (forall v :: v in vs && v !in d.varMap ==> r.varMap[v] == v.name)
    decreases |vs|
  {
    if vs != [] {
      var v := vs[0];
      DeclareAllMaps(Declare(d, v, decl(v), domain(v)), vs[1..], decl, domain);
      assert (set u | u in vs) == {v} + set u | u in vs[1..];
    }
  }

  /**
   * Visiting `vs` declares exactly the variables met for the first time, each
   * once, in the order of their first visit.
   */
  lemma {:induction false} DeclareAllDefs(d: Declarations, vs: seq<Variable>, decl: Variable -> string, domain: Variable -> string)
    ensures DeclareAll(d, vs, decl, domain).defs == d.defs + Each(FirstOccurrences(vs, d.varMap.Keys), decl)
    decreases |vs|
  {
    if vs != [] {
      var v := vs[0];
      var d' := Declare(d, v, decl(v), domain(v));
      DeclareAllDefs(d', vs[1..], decl, domain);
      if v in d.varMap {
        assert FirstOccurrences(vs, d.varMap.Keys) == FirstOccurrences(vs[1..], d.varMap.Keys);
      } else {
        var firsts := FirstOccurrences(vs[1..], d.varMap.Keys + {v});
        assert d'.varMap.Keys == d.varMap.Keys + {v};
        assert FirstOccurrences(vs, d.varMap.Keys) == [v] + firsts;
        assert Each([v] + firsts, decl) == [decl(v)] + Each(firsts, decl) by {
          assert ([v] + firsts)[1..] == firsts;
        }
        assert d'.defs == d.defs + [decl(v)];
      }
    }
  }

  /** Visiting `vs` adds one domain constraint for each variable met for the first time, in the order of their first visit. */
  lemma {:induction false} DeclareAllDomains(d: Declarations, vs: seq<Variable>, decl: Variable -> string, domain: Variable -> string)
    ensures DeclareAll(d, vs, decl, domain).domains == d.domains + Each(FirstOccurrences(vs, d.varMap.Keys), domain)
    decreases |vs|
  {
    if vs != [] {
      var v := vs[0];
      var d' := Declare(d, v, decl(v), domain(v));
      DeclareAllDomains(d', vs[1..], decl, domain);
      if v in d.varMap {
        assert FirstOccurrences(vs, d.varMap.Keys) == FirstOccurrences(vs[1..], d.varMap.Keys);
      } else {
        var firsts := FirstOccurrences(vs[1..], d.varMap.Keys + {v});
        assert d'.varMap.Keys == d.varMap.Keys + {v};
        assert FirstOccurrences(vs, d.varMap.Keys) == [v] + firsts;
        assert Each([v] + firsts, domain) == [domain(v)] + Each(firsts, domain) by {
          assert ([v] + firsts)[1..] == firsts;
        }
        assert d'.domains == d.domains + [domain(v)];
      }
    }
  }

  /**
   * From a fresh translator, visiting `vs` declares every distinct variable
   * once, in the order of first visit, and maps each variable to its name.
   */
  lemma DeclareFromNothing(vs: seq<Variable>, decl: Variable -> string, domain: Variable -> string)
    ensures var r := DeclareAll(Fresh.decls, vs, decl, domain);
      && r.defs == Each(FirstOccurrences(vs, {}), decl)
      && r.domains == Each(FirstOccurrences(vs, {}), domain)
      && r.varMap.Keys == (set v | v in vs)
      && (forall v :: v in vs ==> r.varMap[v] == v.name)
  {
    var d := Fresh.decls;
    assert d.varMap.Keys == {};
    DeclareAllDefs(d, vs, decl, domain);
    DeclareAllDomains(d, vs, decl, domain);
    DeclareAllMaps(d, vs, decl, domain);
    assert [] + Each(FirstOccurrences(vs, {}), decl) == Each(FirstOccurrences(vs, {}), decl);
    assert [] + Each(FirstOccurrences(vs, {}), domain) == Each(FirstOccurrences(vs, {}), domain);
  }

  /** `Misc.join(ss, sep)`: the strings of `ss` with `sep` between neighbours. Misc.java is not part of this model. */
  function Join(ss: seq<string>, sep: string): string
  {
    if ss == [] then "" else ss[0] + Prefixed(ss[1..], sep)
  }

  /** Every string of `ss` preceded by `sep`, in order. */
  function Prefixed(ss: seq<string>, sep: string): string
  {
    if ss == [] then "" else Prefixed(ss[..|ss| - 1], sep) + sep + ss[|ss| - 1]
  }

  /** What `getTranslation` builds: the domain constraints and the root term under one `and`. */
  function Conjunction(domains: seq<string>, root: string): string
  {
    Parens("and" + Prefixed(domains, " ") + " " + root)
  }

  /** The loop of `getTranslation` over the domain constraints, with the popped root term. */
  method Conjoin(domains: seq<string>, root: string) returns (s: string)
    ensures s == Conjunction(domains, root)
  {
    s := "(and";
    for i := 0 to |domains|
      invariant s == "(and" + Prefixed(domains[..i], " ")
    {
      assert domains[..i + 1][..i] == domains[..i];
      s := s + " " + domains[i];
    }
    assert domains[..|domains|] == domains;
    s := s + " " + root + ")";
  }

  /** The query `model` hands to `solve0`: produce models, the declarations, the assertion, check-sat. */
  function Query(defs: seq<string>, translation: string): string
  {
    Parens("set-option :produce-models true") + Join(defs, " ") + Parens("assert " + translation) + Parens("check-sat")
  }

  /**
   * What `model` assembles once the walk has finished: the query around the
   * popped root term, and the variable map; popping an empty stack throws.
   */
  function Assemble(s: TState): Result<Option<(string, map<Variable, string>)>, Fault>
  {
    if s.stack == [] then Failure(EmptyStack)
    else Success(Some((Query(s.decls.defs, Conjunction(s.decls.domains, s.stack[|s.stack| - 1].text)), s.decls.varMap)))
  }

  /** How many more opening than closing parentheses `s` holds. */
  function Depth(s: string): int
  {
    if s == [] then 0
    else Depth(s[..|s| - 1]) + (if s[|s| - 1] == '(' then 1 else if s[|s| - 1] == ')' then -1 else 0)
  }

  predicate ParenFree(s: string)
  {
    '(' !in s && ')' !in s
  }

  lemma {:induction false} DepthAppend(a: string, b: string)
    ensures Depth(a + b) == Depth(a) + Depth(b)
    decreases |b|
  {
    if b == [] {
      assert a + b == a;
    } else {
      assert (a + b)[..|a + b| - 1] == a + b[..|b| - 1];
      assert (a + b)[|a + b| - 1] == b[|b| - 1];
      DepthAppend(a, b[..|b| - 1]);
    }
  }

  /** Depth adds up over concatenation. */
  lemma DepthAdds()
    ensures forall a, b :: Depth(a + b) == Depth(a) + Depth(b)
  {
    forall a, b
      ensures Depth(a + b) == Depth(a) + Depth(b)
    {
      DepthAppend(a, b);
    }
  }

  lemma {:induction false} ParenFreeDepth(s: string)
    requires ParenFree(s)
    ensures Depth(s) == 0
    decreases |s|
  {
    if s != [] {
      assert s[|s| - 1] in s;
      ParenFreeDepth(s[..|s| - 1]);
    }
  }

  /** A list is as deep as its contents. */
  lemma ParensDepth(s: string)
    ensures Depth(Parens(s)) == Depth(s)
  {
    DepthAppend("(", s);
    DepthAppend("(" + s, ")");
    assert "("[..0] == [] && ")"[..0] == [];
  }

  /** Text in parentheses: a list with paren-free text around `s`. */
  lemma WrappedDepth(before: string, s: string, after: string)
    requires ParenFree(before) && ParenFree(after)
    ensures Depth(Parens(before + s + after)) == Depth(s)
  {
    ParensDepth(before + s + after);
    DepthAppend(before, s);
    DepthAppend(before + s, after);
    ParenFreeDepth(before);
    ParenFreeDepth(after);
  }

  /** Decimal numerals hold no parentheses. */
  lemma LongToStringParenFree(v: int)
    ensures ParenFree(LongToString(v))
  {
    var s := if v < 0 then NatToDecimal(-v) else NatToDecimal(v);
    assert forall k :: 0 <= k < |s| ==> IsDigit(s[k]);
    assert '(' !in s && ')' !in s;
  }

  lemma {:induction false} PrefixedDepth(ss: seq<string>, sep: string)
    requires ParenFree(sep) && forall k :: 0 <= k < |ss| ==> Depth(ss[k]) == 0
    ensures Depth(Prefixed(ss, sep)) == 0
    decreases |ss|
  {
    if ss != [] {
      PrefixedDepth(ss[..|ss| - 1], sep);
      DepthAppend(Prefixed(ss[..|ss| - 1], sep), sep);
      DepthAppend(Prefixed(ss[..|ss| - 1], sep) + sep, ss[|ss| - 1]);
      ParenFreeDepth(sep);
    }
  }

  /** A variable whose name, and whose real bounds' text, hold no parentheses. */
  predicate PlainVariable(v: Variable)
  {
    ParenFree(v.name) && (v.RealVar? ==> ParenFree(v.realLower.magnitude) && ParenFree(v.realUpper.magnitude))
  }

  /** An expression whose variables are plain and whose real literals hold no parentheses. */
  predicate Plain(e: Expr)
  {
    match e
    case Var(v) => PlainVariable(v)
    case RealConst(lit) => ParenFree(lit.magnitude)
    case Unary(_, x) => Plain(x)
    case Binary(_, l, r) => Plain(l) && Plain(r)
    case _ => true
  }

  lemma {:induction false} PlainVars(e: Expr)
    requires Plain(e)
    ensures forall v :: v in Vars(e) ==> PlainVariable(v)
  {
    match e
    case Unary(_, x) => PlainVars(x);
    case Binary(_, l, r) => PlainVars(l); PlainVars(r);
    case _ =>
  }

  /** The opening text of a negated numeral is one level deep. */
  lemma OpenerDepth(neg: string)
    requires neg != [] && neg[0] == '(' && ParenFree(neg[1..])
    ensures Depth(neg) == 1
  {
    assert neg == "(" + neg[1..];
    LeadDepthOpen(neg[1..]);
  }

  lemma LeadDepthOpen(s: string)
    requires ParenFree(s)
    ensures Depth("(" + s) == 1
  {
    DepthAppend("(", s);
    ParenFreeDepth(s);
    assert "("[..0] == [];
  }

  /** A list of paren-free text is balanced. */
  lemma ParenFreeListDepth(s: string)
    requires ParenFree(s)
    ensures Depth(Parens(s)) == 0
  {
    ParensDepth(s);
    ParenFreeDepth(s);
  }

  /** Paren-free text followed by `s` is as deep as `s`. */
  lemma LeadDepth(lead: string, s: string)
    requires ParenFree(lead)
    ensures Depth(lead + s) == Depth(s)
  {
    DepthAppend(lead, s);
    ParenFreeDepth(lead);
  }

  /** The application `(f x)` of a symbol to one argument. */
  function Apply1(f: string, x: string): string
  {
    Parens(f + " " + x)
  }

  /** The application `(f x y)` of a symbol to two arguments. */
  function Apply2(f: string, x: string, y: string): string
  {
    Parens(f + " " + x + " " + y)
  }

  /** An application of a paren-free symbol is as deep as its argument. */
  lemma Apply1Depth(f: string, x: string)
    requires ParenFree(f)
    ensures Depth(Apply1(f, x)) == Depth(x)
  {
    assert ParenFree(f + " ");
    ParensDepth(f + " " + x);
    LeadDepth(f + " ", x);
  }

  /** An application of a paren-free symbol is as deep as its two arguments together. */
  lemma Apply2Depth(f: string, x: string, y: string)
    requires ParenFree(f)
    ensures Depth(Apply2(f, x, y)) == Depth(x) + Depth(y)
  {
    assert ParenFree(f + " ");
    LeadDepth(f + " ", x);
    DepthAppend(f + " " + x, " " + y);
    LeadDepth(" ", y);
    assert f + " " + x + " " + y == (f + " " + x) + (" " + y);
    ParensDepth(f + " " + x + " " + y);
  }

  /** The signature `() sort` of a constant: no argument sorts, then the result sort. */
  function ConstantSignature(sort: string): string
  {
    Parens("") + " " + sort
  }

  lemma ConstantSignatureDepth(sort: string)
    ensures Depth(ConstantSignature(sort)) == Depth(sort)
  {
    ParenFreeListDepth("");
    DepthAppend(Parens(""), " " + sort);
    LeadDepth(" ", sort);
    assert Parens("") + " " + sort == Parens("") + (" " + sort);
  }

  /** With balanced domain constraints, the conjunction is exactly as balanced as the root term. */
  lemma ConjunctionDepth(domains: seq<string>, root: string)
    requires forall k :: 0 <= k < |domains| ==> Depth(domains[k]) == 0
    ensures Depth(Conjunction(domains, root)) == Depth(root)
  {
    var p := Prefixed(domains, " ");
    PrefixedDepth(domains, " ");
    LeadDepth("and", p);
    DepthAppend("and" + p, " " + root);
    LeadDepth(" ", root);
    assert "and" + p + " " + root == ("and" + p) + (" " + root);
    ParensDepth("and" + p + " " + root);
  }

  /** Balanced strings joined by a space make a balanced string. */
  lemma JoinDepth(ss: seq<string>)
    requires forall k :: 0 <= k < |ss| ==> Depth(ss[k]) == 0
    ensures Depth(Join(ss, " ")) == 0
  {
    if ss != [] {
      PrefixedDepth(ss[1..], " ");
      DepthAppend(ss[0], Prefixed(ss[1..], " "));
    }
  }

  /** The commands around the assertion are balanced, and the assertion is as balanced as its formula. */
  lemma CommandsDepth(translation: string)
    ensures Depth(Parens("set-option :produce-models true")) == 0
    ensures Depth(Parens("check-sat")) == 0
    ensures Depth(Parens("assert " + translation)) == Depth(translation)
  {
    ParenFreeListDepth("set-option :produce-models true");
    ParenFreeListDepth("check-sat");
    AssertDepth(translation);
  }

  lemma AssertDepth(translation: string)
    ensures Depth(Parens("assert " + translation)) == Depth(translation)
  {
    ParensDepth("assert " + translation);
    LeadDepth("assert ", translation);
  }

  /** With balanced declarations, the query is exactly as balanced as the asserted translation. */
  lemma QueryDepth(defs: seq<string>, translation: string)
    requires forall k :: 0 <= k < |defs| ==> Depth(defs[k]) == 0
    ensures Depth(Query(defs, translation)) == Depth(translation)
  {
    var j := Join(defs, " ");
    var a := Parens("set-option :produce-models true");
    var b := Parens("assert " + translation);
    var c := Parens("check-sat");
    JoinDepth(defs);
    CommandsDepth(translation);
    DepthAppend(a, j);
    DepthAppend(a + j, b);
    DepthAppend(a + j + b, c);
  }

  /**
   * `b.append(neg).append(-v).append(')')` for a negative `v` and
   * `Long.toString(v)` otherwise. Negating Long.MIN_VALUE overflows back to
   * Long.MIN_VALUE, whose numeral keeps its minus sign.
   */
  function SignedNumeral(neg: string, v: int): string
  {
    if v < 0 then neg + LongToString(WrapLong(-v)) + ")" else LongToString(v)
  }

  predicate AllDigits(s: string)
  {
    forall k :: 0 <= k < |s| ==> IsDigit(s[k])
  }

  /** Reads back an SMT-LIB numeral, or `neg` applied to one; `None` for any other text. */
  function ReadSigned(neg: string, s: string): Option<int>
  {
    if |s| > |neg| + 1 && s[..|neg|] == neg && s[|s| - 1] == ')' && AllDigits(s[|neg|..|s| - 1]) then
      var magnitude: int := ParseDecimal(s[|neg|..|s| - 1]);
      Some(-magnitude)
    else if s != [] && AllDigits(s) then Some(ParseDecimal(s))
    else None
  }

  /** `neg` applied to digits reads back as the negated digits. */
  lemma ReadNegative(neg: string, digits: string)
    requires digits != [] && AllDigits(digits)
    ensures ReadSigned(neg, neg + digits + ")") == Some(-(ParseDecimal(digits) as int))
  {
    var s := neg + digits + ")";
    assert s[..|neg|] == neg;
    assert s[|neg|..|s| - 1] == digits;
  }

  /** Digits alone read back as themselves when `neg` does not start with a digit. */
  lemma ReadPositive(neg: string, digits: string)
    requires neg != [] && !IsDigit(neg[0])
    requires digits != [] && AllDigits(digits)
    ensures ReadSigned(neg, digits) == Some(ParseDecimal(digits))
  {
    if |digits| > |neg| + 1 {
      assert digits[..|neg|][0] == digits[0];
    }
  }

  /** Every `long` except Long.MIN_VALUE is rendered as a numeral that reads back as itself. */
  lemma SignedNumeralRoundTrip(neg: string, v: int)
    requires neg != [] && !IsDigit(neg[0])
    requires IsLong(v) && v != LONG_MIN
    ensures ReadSigned(neg, SignedNumeral(neg, v)) == Some(v)
  {
    if v < 0 {
      var digits := NatToDecimal(-v);
      assert IsLong(-v);
      assert SignedNumeral(neg, v) == neg + digits + ")";
      ReadNegative(neg, digits);
      DecimalRoundTrip(-v);
    } else {
      var digits := NatToDecimal(v);
      assert SignedNumeral(neg, v) == digits;
      ReadPositive(neg, digits);
      DecimalRoundTrip(v);
    }
  }

  /** `neg` applied to a minus sign and digits is no numeral. */
  lemma ReadMinus(neg: string, digits: string)
    requires neg != [] && !IsDigit(neg[0])
    ensures ReadSigned(neg, neg + "-" + digits + ")") == None
  {
    var s := neg + "-" + digits + ")";
    assert s[|neg|] == '-';
    assert s[0] == neg[0];
  }

  /** Negating Long.MIN_VALUE gives Long.MIN_VALUE back. */
  lemma NegationOverflows(v: int)
    requires v == LONG_MIN
    ensures WrapLong(-v) == v
  {
  }

  /** Long.MIN_VALUE is rendered as `neg` applied to a negative numeral, which is no numeral. */
  lemma SignedNumeralMinValue(neg: string, v: int)
    requires neg != [] && !IsDigit(neg[0])
    requires v == LONG_MIN
    ensures SignedNumeral(neg, v) == neg + "-" + NatToDecimal(-v) + ")"
    ensures ReadSigned(neg, SignedNumeral(neg, v)) == None
  {
    NegationOverflows(v);
    assert SignedNumeral(neg, v) == neg + "-" + NatToDecimal(-v) + ")";
    ReadMinus(neg, NatToDecimal(-v));
  }

  /** A negative numeral is `neg` applied to digits; with a balanced `neg ... )` it is balanced. */
  lemma SignedNumeralDepth(neg: string, v: int)
    requires Depth(neg) == 1
    ensures Depth(SignedNumeral(neg, v)) == 0
  {
    LongToStringParenFree(v);
    ParenFreeDepth(LongToString(v));
    LongToStringParenFree(WrapLong(-v));
    ParenFreeDepth(LongToString(WrapLong(-v)));
    DepthAdds();
    assert ")"[..0] == [];
  }
}
