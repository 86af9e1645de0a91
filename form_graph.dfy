/**
 * The form as a graph of fields. The page is a store of input elements keyed
 * by id; each derived line has one rule over the values of the lines it
 * depends on, and a recompute pass applies the rules of a list of lines in
 * order, each reading what the earlier ones wrote.
 */
module FormGraph {
  import opened Wrappers
  import opened Decimal
  import opened Filing
  import FederalTax
  import IndianaTax

  /** Which part of a numbered line an element holds: `line9` is the whole
      line, `line11a` its part a, `line1z` the total of line 1. */
  datatype Part = Whole | A | B | C | D | E | F | G | H | Z

  /** Element ids: `line<n><part>` on Form 1040 and `indianaLine<n>` on IT-40. */
  datatype FieldId = Federal(line: nat, part: Part) | Indiana(line: nat)


  /** `type="text"` inputs show grouped currency, `type="number"` ones plain decimals. */
  datatype InputType = TextInput | NumberInput

  /** An input element: its text, its type and whether it is read-only or has
      the `calculated` class. */
  datatype Element = Element(value: string, inputType: InputType, readOnly: bool, calculated: bool)

  /** The elements present on the page. */
  type Fields = map<FieldId, Element>

  /** getFieldValue: a missing element reads as 0, an existing one through the lenient parser. */
  function FieldValue(e: Fields, f: FieldId): real
  {
    if f in e then ParseFieldText(e[f].value) else 0.0
  }

  /** setFieldValue writes only read-only or calculated elements. */
  predicate Writable(e: Fields, f: FieldId)
  {
    f in e && (e[f].readOnly || e[f].calculated)
  }

  /** The text setFieldValue puts into an element of the given type. */
  function Render(t: InputType, v: real): string
  {
    match t
    case TextInput => ToLocale2(v)
    case NumberInput => ToFixed2(v)
  }

  /** The two stores hold the same elements with the same types and flags. */
  predicate SameShape(e1: Fields, e2: Fields)
  {
    && e1.Keys == e2.Keys
    && forall k :: k in e1 ==>
         e1[k].inputType == e2[k].inputType && e1[k].readOnly == e2[k].readOnly && e1[k].calculated == e2[k].calculated
  }

  /** The page after setFieldValue(f, v). */
  function Written(e: Fields, f: FieldId, v: real): (r: Fields)
    ensures SameShape(e, r)
    ensures forall k :: k in e && k != f ==> r[k] == e[k]
    ensures !Writable(e, f) ==> r == e
  {
    if Writable(e, f) then
      var el := e[f];
      e[f := el.(value := Render(el.inputType, v))]
    else e
  }

  /** A written element reads back as the value rounded to cents, whichever
      of the two renderings its type selects. */
  lemma WrittenReadsBack(e: Fields, f: FieldId, v: real)
    requires Writable(e, f)
    ensures FieldValue(Written(e, f, v), f) == Cents(v)
  {
    ToFixed2ReadsBack(v);
    ToLocale2ReadsBack(v);
  }

  /** Writing the same value twice leaves the page as writing it once. */
  lemma WrittenTwice(e: Fields, f: FieldId, v: real)
    ensures Written(Written(e, f, v), f, v) == Written(e, f, v)
  {
  }

  /** Writes to two different elements commute. */
  lemma WrittenCommute(e: Fields, f: FieldId, v: real, g: FieldId, w: real)
    requires f != g
    ensures Written(Written(e, f, v), g, w) == Written(Written(e, g, w), f, v)
  {
    var r1 := Written(Written(e, f, v), g, w);
    var r2 := Written(Written(e, g, w), f, v);
    assert r1.Keys == r2.Keys;
    forall k | k in r1
      ensures r1[k] == r2[k]
    {
    }
  }

  /** What the rules read besides the page: the filing status, the standard
      amount kept in the session state, and the county rate in percent. */
  datatype Context = Context(filingStatus: Option<FilingStatus>, standardAmount: real, countyRate: real)

  /** Lines with an update function. */
  predicate IsDerived(f: FieldId)
  {
    match f
    case Federal(n, p) =>
      || (p == Whole && n in {9, 14, 15, 16, 18, 21, 22, 24, 32, 33, 34, 37})
      || (p == A && n in {11, 35})
      || (p == B && n == 11)
      || (p == D && n == 25)
      || (p == E && n == 12)
      || (p == Z && n == 1)
    case Indiana(n) => n in {1, 3, 5, 7, 8, 9, 11, 14, 15, 16, 18, 21, 23, 26}
  }

  /** Lines whose rule is "a minus b, but not below zero". */
  predicate IsClamped(f: FieldId)
  {
    match f
    case Federal(n, p) => (p == Whole && n in {15, 22, 34, 37}) || (p == A && n in {11, 35})
    case Indiana(n) => n in {5, 7, 18, 21, 23}
  }

  /** The value of a Form 1040 line. */
  function Fed(e: Fields, n: nat, p: Part): real
  {
    FieldValue(e, Federal(n, p))
  }

  /** The value of an IT-40 line. */
  function Ind(e: Fields, n: nat): real
  {
    FieldValue(e, Indiana(n))
  }

  /** The lines each derived line reads. */
  function Deps(f: FieldId): set<FieldId>
  {
    match f
    case Federal(1, Z) =>
      {Federal(1, A), Federal(1, B), Federal(1, C), Federal(1, D),
       Federal(1, E), Federal(1, F), Federal(1, G), Federal(1, H)}
    case Federal(9, Whole) =>
      {Federal(1, Z), Federal(2, B), Federal(3, B), Federal(4, B),
       Federal(5, B), Federal(6, B), Federal(7, Whole), Federal(8, Whole)}
    case Federal(11, A) => {Federal(9, Whole), Federal(10, Whole)}
    case Federal(11, B) => {Federal(11, A)}
    case Federal(14, Whole) => {Federal(12, E), Federal(13, A), Federal(13, B)}
    case Federal(15, Whole) => {Federal(11, B), Federal(14, Whole)}
    case Federal(16, Whole) => {Federal(15, Whole)}
    case Federal(18, Whole) => {Federal(16, Whole), Federal(17, Whole)}
    case Federal(21, Whole) => {Federal(19, Whole), Federal(20, Whole)}
    case Federal(22, Whole) => {Federal(18, Whole), Federal(21, Whole)}
    case Federal(24, Whole) => {Federal(22, Whole), Federal(23, Whole)}
    case Federal(25, D) => {Federal(25, A), Federal(25, B), Federal(25, C)}
    case Federal(32, Whole) =>
      {Federal(26, Whole), Federal(27, Whole), Federal(28, Whole),
       Federal(29, Whole), Federal(30, Whole), Federal(31, Whole)}
    case Federal(33, Whole) => {Federal(25, D), Federal(32, Whole)}
    case Federal(34, Whole) | Federal(35, A) | Federal(37, Whole) => {Federal(24, Whole), Federal(33, Whole)}
    case Indiana(1) => {Federal(11, A)}
    case Indiana(3) => {Indiana(1), Indiana(2)}
    case Indiana(5) => {Indiana(3), Indiana(4)}
    case Indiana(7) => {Indiana(5), Indiana(6)}
    case Indiana(8) | Indiana(9) => {Indiana(7)}
    case Indiana(11) => {Indiana(8), Indiana(9), Indiana(10)}
    case Indiana(14) => {Indiana(12), Indiana(13)}
    case Indiana(15) => {Indiana(11)}
    case Indiana(16) | Indiana(23) => {Indiana(14), Indiana(15)}
    case Indiana(18) => {Indiana(16), Indiana(17)}
    case Indiana(21) => {Indiana(18), Indiana(19), Indiana(20)}
    case Indiana(26) => {Indiana(23), Indiana(24), Indiana(25)}
    case _ => {}
  }

  /** The value each update function computes for its line from the values it reads. */
  function Rule(ctx: Context, f: FieldId, e: Fields): real
    requires IsDerived(f)
  {
    match f
    case Federal(n, p) => FederalRule(ctx, n, p, e)
    case Indiana(n) => IndianaRule(ctx, n, e)
  }

  /** The update functions of the Form 1040 lines; the line number alone
      picks the rule except on line 11, whose parts a and b both have one. */
  function FederalRule(ctx: Context, n: nat, p: Part, e: Fields): real
    requires IsDerived(Federal(n, p))
  {
    match n
    case 1 =>
      Fed(e, 1, A) + Fed(e, 1, B) + Fed(e, 1, C) + Fed(e, 1, D) + Fed(e, 1, E) + Fed(e, 1, F) + Fed(e, 1, G) + Fed(e, 1, H)
    case 9 =>
      Fed(e, 1, Z) + Fed(e, 2, B) + Fed(e, 3, B) + Fed(e, 4, B) + Fed(e, 5, B) + Fed(e, 6, B) + Fed(e, 7, Whole) + Fed(e, 8, Whole)
    case 11 => if p == A then Max0(Fed(e, 9, Whole) - Fed(e, 10, Whole)) else Fed(e, 11, A)
    case 12 => ctx.standardAmount
    case 14 => Fed(e, 12, E) + Fed(e, 13, A) + Fed(e, 13, B)
    case 15 => Max0(Fed(e, 11, B) - Fed(e, 14, Whole))
    case 16 =>
      (match ctx.filingStatus
       case None => 0.0
       case Some(s) => FederalTax.FederalTax(Fed(e, 15, Whole), s))
    case 18 => Fed(e, 16, Whole) + Fed(e, 17, Whole)
    case 21 => Fed(e, 19, Whole) + Fed(e, 20, Whole)
    case 22 => Max0(Fed(e, 18, Whole) - Fed(e, 21, Whole))
    case 24 => Fed(e, 22, Whole) + Fed(e, 23, Whole)
    case 25 => Fed(e, 25, A) + Fed(e, 25, B) + Fed(e, 25, C)
    case 32 =>
      Fed(e, 26, Whole) + Fed(e, 27, Whole) + Fed(e, 28, Whole) + Fed(e, 29, Whole) + Fed(e, 30, Whole) + Fed(e, 31, Whole)
    case 33 => Fed(e, 25, D) + Fed(e, 32, Whole)
    case 34 | 35 => Max0(Fed(e, 33, Whole) - Fed(e, 24, Whole))
    case 37 => Max0(Fed(e, 24, Whole) - Fed(e, 33, Whole))
    case _ => 0.0
  }

  /** The update functions of the IT-40 lines. */
  function IndianaRule(ctx: Context, n: nat, e: Fields): real
    requires IsDerived(Indiana(n))
  {
    match n
    case 1 => Fed(e, 11, A)
    case 3 => Ind(e, 1) + Ind(e, 2)
    case 5 => Max0(Ind(e, 3) - Ind(e, 4))
    case 7 => Max0(Ind(e, 5) - Ind(e, 6))
    case 8 => IndianaTax.StateTax(Ind(e, 7))
    case 9 => IndianaTax.CountyTax(Ind(e, 7), ctx.countyRate)
    case 11 => Ind(e, 8) + Ind(e, 9) + Ind(e, 10)
    case 14 => Ind(e, 12) + Ind(e, 13)
    case 15 => Ind(e, 11)
    case 16 => Ind(e, 14) - Ind(e, 15)
    case 18 => Max0(Ind(e, 16) - Ind(e, 17))
    case 21 => Max0(Ind(e, 18) - Ind(e, 19) - Ind(e, 20))
    case 23 => Max0(Ind(e, 15) - Ind(e, 14))
    case 26 => Ind(e, 23) + Ind(e, 24) + Ind(e, 25)
    case _ => 0.0
  }

  /** The update functions of the refund and amount-owed lines. */
  lemma RefundOrOwedRules(ctx: Context, e: Fields)
    ensures Rule(ctx, Federal(34, Whole), e) == Max0(Fed(e, 33, Whole) - Fed(e, 24, Whole))
    ensures Rule(ctx, Federal(35, A), e) == Max0(Fed(e, 33, Whole) - Fed(e, 24, Whole))
    ensures Rule(ctx, Federal(37, Whole), e) == Max0(Fed(e, 24, Whole) - Fed(e, 33, Whole))
  {
  }

  /** The update function of the tax line. */
  lemma TaxRule(ctx: Context, e: Fields)
    ensures ctx.filingStatus.None? ==> Rule(ctx, Federal(16, Whole), e) == 0.0
    ensures ctx.filingStatus.Some? ==>
      Rule(ctx, Federal(16, Whole), e) == FederalTax.FederalTax(Fed(e, 15, Whole), ctx.filingStatus.value)
  {
  }

  /** The update functions of the IT-40 tax lines and of line 16. */
  lemma IndianaTaxRules(ctx: Context, e: Fields)
    ensures Rule(ctx, Indiana(1), e) == Fed(e, 11, A)
    ensures Rule(ctx, Indiana(8), e) == IndianaTax.StateTax(Ind(e, 7))
    ensures Rule(ctx, Indiana(9), e) == IndianaTax.CountyTax(Ind(e, 7), ctx.countyRate)
    ensures Rule(ctx, Indiana(16), e) == Ind(e, 14) - Ind(e, 15)
  {
  }

  /** The update functions of the IT-40 refund and amount-owed lines. */
  lemma IndianaBalanceRules(ctx: Context, e: Fields)
    ensures Rule(ctx, Indiana(18), e) == Max0(Ind(e, 16) - Ind(e, 17))
    ensures Rule(ctx, Indiana(21), e) == Max0(Ind(e, 18) - Ind(e, 19) - Ind(e, 20))
    ensures Rule(ctx, Indiana(23), e) == Max0(Ind(e, 15) - Ind(e, 14))
  {
  }

  /** The two stores read the same on every line of S. */
  predicate AgreeOn(e1: Fields, e2: Fields, S: set<FieldId>)
  {
    forall d :: d in S ==> FieldValue(e1, d) == FieldValue(e2, d)
  }

  /** A rule reads nothing but its dependencies: the dependency table is complete. */
  lemma RuleReadsOnlyDeps(ctx: Context, f: FieldId, e1: Fields, e2: Fields)
    requires IsDerived(f) && AgreeOn(e1, e2, Deps(f))
    ensures Rule(ctx, f, e1) == Rule(ctx, f, e2)
  {
    match f
    case Federal(n, p) => FederalReadsOnlyDeps(ctx, n, p, e1, e2);
    case Indiana(n) => IndianaReadsOnlyDeps(ctx, n, e1, e2);
  }

  lemma FederalReadsOnlyDeps(ctx: Context, n: nat, p: Part, e1: Fields, e2: Fields)
    requires IsDerived(Federal(n, p)) && AgreeOn(e1, e2, Deps(Federal(n, p)))
    ensures FederalRule(ctx, n, p, e1) == FederalRule(ctx, n, p, e2)
  {
    if n == 11 && p == A {
    } else if n == 11 {
    } else if n in {1, 9, 12, 14, 15, 16} {
    } else {
    }
  }

  lemma IndianaReadsOnlyDeps(ctx: Context, n: nat, e1: Fields, e2: Fields)
    requires IsDerived(Indiana(n)) && AgreeOn(e1, e2, Deps(Indiana(n)))
    ensures IndianaRule(ctx, n, e1) == IndianaRule(ctx, n, e2)
  {
    if n in {1, 3, 5, 7, 8, 9, 11} {
    } else {
    }
  }

  /** Every clamped line's rule is non-negative, whatever the page holds. */
  lemma ClampedRulesNonNegative(ctx: Context, f: FieldId, e: Fields)
    requires IsDerived(f) && IsClamped(f)
    ensures Rule(ctx, f, e) >= 0.0
  {
  }

  /** Running one update function. */
  function Step(ctx: Context, e: Fields, f: FieldId): Fields
    requires IsDerived(f)
  {
    Written(e, f, Rule(ctx, f, e))
  }

  predicate AllDerived(order: seq<FieldId>)
  {
    forall i :: 0 <= i < |order| ==> IsDerived(order[i])
  }

  /** Running the update functions of `order` one after the other. */
  function RunPass(ctx: Context, e: Fields, order: seq<FieldId>): Fields
    requires AllDerived(order)
  {
    if order == [] then e else RunPass(ctx, Step(ctx, e, order[0]), order[1..])
  }

  /** An order fit for a recompute pass: derived lines, each once, and no line
      reads a line that is written at or after its own position. */
  predicate WellOrdered(order: seq<FieldId>)
  {
    && AllDerived(order)
    && (forall i, j :: 0 <= i < j < |order| ==> order[i] != order[j])
    && (forall i, j :: 0 <= i <= j < |order| ==> order[j] !in Deps(order[i]))
  }

  /** A line's position on the two forms, top to bottom: Form 1040 by line
      number and part, then IT-40 by line number. */
  function Rank(f: FieldId): nat
  {
    match f
    case Federal(n, p) => 16 * n + PartRank(p)
    case Indiana(n) => 1000 + n
  }

  function PartRank(p: Part): nat
  {
    match p
    case Whole => 0
    case A => 1
    case B => 2
    case C => 3
    case D => 4
    case E => 5
    case F => 6
    case G => 7
    case H => 8
    case Z => 9
  }

  /** Every line a rule reads is printed above the rule's line. */
  lemma RankRespectsDeps(f: FieldId, d: FieldId)
    requires IsDerived(f) && d in Deps(f)
    ensures Rank(d) < Rank(f)
  {
  }

  /** Derived lines in strictly rising rank. */
  predicate RankRising(order: seq<FieldId>)
  {
    && AllDerived(order)
    && forall i :: 0 <= i < |order| - 1 ==> Rank(order[i]) < Rank(order[i + 1])
  }

  lemma {:induction false} RankRisingApart(order: seq<FieldId>, i: int, j: int)
    requires RankRising(order) && 0 <= i < j < |order|
    ensures Rank(order[i]) < Rank(order[j])
    decreases j - i
  {
    if i + 1 < j {
      RankRisingApart(order, i + 1, j);
    }
  }

  /** Any order of rising rank is fit for a recompute pass. */
  lemma RankRisingIsWellOrdered(order: seq<FieldId>)
    requires RankRising(order)
    ensures WellOrdered(order)
  {
    forall i, j | 0 <= i < j < |order|
      ensures order[i] != order[j]
    {
      RankRisingApart(order, i, j);
    }
    forall i, j | 0 <= i <= j < |order|
      ensures order[j] !in Deps(order[i])
    {
      if order[j] in Deps(order[i]) {
        RankRespectsDeps(order[i], order[j]);
        if i < j {
          RankRisingApart(order, i, j);
        }
      }
    }
  }

  /** A pass keeps the page's elements and their flags, changes no line outside
      its order, and leaves a line that cannot be written as it was. */
  lemma {:induction false} PassFrame(ctx: Context, e: Fields, order: seq<FieldId>)
    requires AllDerived(order)
    ensures SameShape(e, RunPass(ctx, e, order))
    ensures forall k :: k in e && (k !in order || !Writable(e, k)) ==> RunPass(ctx, e, order)[k] == e[k]
  {
    if order != [] {
      var s1 := Step(ctx, e, order[0]);
      PassFrame(ctx, s1, order[1..]);
      forall k | k in e && (k !in order || !Writable(e, k))
        ensures RunPass(ctx, e, order)[k] == e[k]
      {
        assert Writable(s1, k) == Writable(e, k);
        if k in order[1..] {
          assert !Writable(e, k);
        }
      }
    }
  }

  /** Lines a pass does not write read the same afterwards. */
  lemma PassKeepsOthers(ctx: Context, e: Fields, order: seq<FieldId>, S: set<FieldId>)
    requires AllDerived(order)
    requires forall k :: k in S ==> k !in order
    ensures AgreeOn(e, RunPass(ctx, e, order), S)
  {
    PassFrame(ctx, e, order);
  }

  /** After a well-ordered pass every writable line of the order holds its
      rule's value over the page as it now stands, rounded to cents. */
  lemma {:induction false} PassConsistent(ctx: Context, e: Fields, order: seq<FieldId>)
    requires WellOrdered(order)
    ensures var r := RunPass(ctx, e, order);
      forall f :: f in order && Writable(r, f) ==> FieldValue(r, f) == Cents(Rule(ctx, f, r))
  {
    if order != [] {
      var a, rest := order[0], order[1..];
      var s1 := Step(ctx, e, a);
      var r := RunPass(ctx, e, order);
      assert r == RunPass(ctx, s1, rest);
      PassConsistent(ctx, s1, rest);
      PassFrame(ctx, s1, rest);
      assert a !in rest;
      forall f | f in order && Writable(r, f)
        ensures FieldValue(r, f) == Cents(Rule(ctx, f, r))
      {
        if f == a {
          FirstRuleUnaffected(ctx, e, order);
          WrittenReadsBack(e, a, Rule(ctx, a, e));
          assert r[a] == s1[a];
        }
      }
    }
  }

  /** The first line of a well-ordered pass reads the same before and after the pass. */
  lemma FirstRuleUnaffected(ctx: Context, e: Fields, order: seq<FieldId>)
    requires WellOrdered(order) && order != []
    ensures Rule(ctx, order[0], RunPass(ctx, e, order)) == Rule(ctx, order[0], e)
  {
    var a, rest := order[0], order[1..];
    var s1 := Step(ctx, e, a);
    PassKeepsOthers(ctx, s1, rest, Deps(a));
    forall d | d in Deps(a)
      ensures FieldValue(s1, d) == FieldValue(e, d)
    {
      assert d != a;
    }
    RuleReadsOnlyDeps(ctx, a, e, RunPass(ctx, e, order));
  }

  /** Running a well-ordered pass a second time changes nothing. */
  lemma {:induction false} PassIdempotent(ctx: Context, e: Fields, order: seq<FieldId>)
    requires WellOrdered(order)
    ensures RunPass(ctx, RunPass(ctx, e, order), order) == RunPass(ctx, e, order)
  {
    if order != [] {
      hide Rule, FieldValue;
      var a, rest := order[0], order[1..];
      var s1 := Step(ctx, e, a);
      var p := RunPass(ctx, e, order);
      assert p == RunPass(ctx, s1, rest);
      PassFrame(ctx, s1, rest);
      FirstRuleUnaffected(ctx, e, order);
      assert a !in rest;
      var v := Rule(ctx, a, e);
      assert Rule(ctx, a, p) == v;
      if Writable(p, a) {
        assert Writable(e, a);
        assert p[a] == s1[a] == e[a].(value := Render(e[a].inputType, v));
        assert p[a].(value := Render(p[a].inputType, v)) == p[a];
        assert Step(ctx, p, a) == p[a := p[a]] == p;
      } else {
        assert Step(ctx, p, a) == p;
      }
      PassIdempotent(ctx, s1, rest);
    }
  }

  /** Line f holds its update function's value over the page as it stands. */
  predicate Settled(ctx: Context, e: Fields, f: FieldId)
  {
    IsDerived(f) && Writable(e, f) && FieldValue(e, f) == Cents(Rule(ctx, f, e))
  }

  /** PassConsistent for one writable line of the order. */
  lemma PassSettles(ctx: Context, e: Fields, order: seq<FieldId>, f: FieldId)
    requires RankRising(order) && f in order && Writable(e, f)
    ensures Settled(ctx, RunPass(ctx, e, order), f)
  {
    RankRisingIsWellOrdered(order);
    PassFrame(ctx, e, order);
    PassConsistent(ctx, e, order);
  }

  /** PassFrame for one line outside the order. */
  lemma PassUntouched(ctx: Context, e: Fields, order: seq<FieldId>, f: FieldId)
    requires AllDerived(order) && f !in order
    ensures FieldValue(RunPass(ctx, e, order), f) == FieldValue(e, f)
    ensures Writable(RunPass(ctx, e, order), f) == Writable(e, f)
  {
    PassFrame(ctx, e, order);
  }

  /** A settled clamped line never reads below zero. */
  lemma SettledClampedNonNegative(ctx: Context, e: Fields, f: FieldId)
    requires Settled(ctx, e, f) && IsClamped(f)
    ensures FieldValue(e, f) >= 0.0
  {
    ClampedRulesNonNegative(ctx, f, e);
  }
}
