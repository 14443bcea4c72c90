/** The income statement (compte de résultat, SYSCOHADA layout): 38 leaf
  * cells, each with an amount for the current year N and the previous year
  * N-1, and fifteen totals computed from them. */
module CompteDeResultat {
  import opened Base

  /** The leaf references; no other key exists. */
  datatype Code =
    | RA | RB | RC | RD | RE | RH | RI | RJ | RK | RL | RP | RQ | RS
    | SA | SC | SD | SK | SL | SM | SQ | SR
    | TA | TC | TD | TE | TF | TH | TS | TT
    | UA | UC | UD | UE | UK | UL | UM | UN | UJ

  /** Which year column: `exerciceN` or `exerciceN1`. */
  datatype Year = N | N1

  /** An amount for each year; also the shape of every total. */
  datatype Amounts = Amounts(exerciceN: real, exerciceN1: real)
  {
    function At(y: Year): real
    {
      match y
      case N => exerciceN
      case N1 => exerciceN1
    }
  }

  /** The entered cells. A missing cell reads as zero in every total. */
  type Values = map<Code, Amounts>

  /** `v[k]?.exerciceN || 0` */
  function Leaf(v: Values, k: Code, y: Year): real
  {
    if k in v then v[k].At(y) else 0.0
  }

  /** One year of `calc(keys)`: a left-to-right sum of the listed leaves. */
  function SumYear(v: Values, keys: seq<Code>, y: Year): real
  {
    if keys == [] then 0.0 else SumYear(v, keys[..|keys| - 1], y) + Leaf(v, keys[|keys| - 1], y)
  }

  /** `calc(keys)`: both years summed independently. */
  function Calc(v: Values, keys: seq<Code>): Amounts
  {
    Amounts(SumYear(v, keys, N), SumYear(v, keys, N1))
  }

  function Plus(a: Amounts, b: Amounts): Amounts
  {
    Amounts(a.exerciceN + b.exerciceN, a.exerciceN1 + b.exerciceN1)
  }

  function Minus(a: Amounts, b: Amounts): Amounts
  {
    Amounts(a.exerciceN - b.exerciceN, a.exerciceN1 - b.exerciceN1)
  }

  const Zero := Amounts(0.0, 0.0)

  const ExploitationCharges: seq<Code> := [RA, RB, RC, RD, RE, RH, RI, RJ, RK, RL, RP, RQ, RS]
  const ExploitationProducts: seq<Code> := [TA, TC, TD, TE, TF, TH, TS, TT]
  const FinancialCharges: seq<Code> := [SA, SC, SD]
  const FinancialProducts: seq<Code> := [UA, UC, UD, UE]
  const HaoCharges: seq<Code> := [SK, SL, SM]
  const HaoProducts: seq<Code> := [UK, UL, UM, UN]

  /** The fifteen computed lines of the statement. */
  datatype Totals = Totals(
    RW: Amounts, TW: Amounts, TX: Amounts,
    SF: Amounts, UF: Amounts, UG: Amounts,
    SH: Amounts, UH: Amounts, UI: Amounts,
    SO: Amounts, UO: Amounts, UP: Amounts,
    ST: Amounts, UT: Amounts, UZ: Amounts)

  const ZeroTotals := Totals(Zero, Zero, Zero, Zero, Zero, Zero, Zero, Zero, Zero,
                             Zero, Zero, Zero, Zero, Zero, Zero)

  /** How the computed lines follow from the six leaf sums and the two tax
    * lines SQ and SR. */
  function Combine(RW: Amounts, TW: Amounts, SF: Amounts, UF: Amounts, SO: Amounts, UO: Amounts,
                   sq: Amounts, sr: Amounts): Totals
  {
    var TX := Minus(TW, RW);
    var UG := Minus(UF, SF);
    var SH := Plus(RW, SF);
    var UH := Plus(TW, UF);
    var UI := Plus(TX, UG);
    var UP := Minus(UO, SO);
    var ST := Plus(Plus(Plus(SH, SO), sq), sr);
    var UT := Plus(UH, UO);
    var UZ := Minus(UT, ST);
    Totals(RW, TW, TX, SF, UF, UG, SH, UH, UI, SO, UO, UP, ST, UT, UZ)
  }

  /** The page's `calculations`: every total is zero when there are no
    * values at all; otherwise exploitation, financial, ordinary, H.A.O. and
    * net result lines in that order. */
  function Calculations(values: Option<Values>): Totals
  {
    match values
    case None => ZeroTotals
    case Some(v) =>
      Combine(Calc(v, ExploitationCharges), Calc(v, ExploitationProducts),
              Calc(v, FinancialCharges), Calc(v, FinancialProducts),
              Calc(v, HaoCharges), Calc(v, HaoProducts),
              Amounts(Leaf(v, SQ, N), Leaf(v, SQ, N1)), Amounts(Leaf(v, SR, N), Leaf(v, SR, N1)))
  }

  /** `handleValueChange`: a read-only page ignores the edit; otherwise the
    * chosen year of the chosen cell takes `parseFloat(value) || 0`. */
  function SetValue(v: Values, readOnly: bool, k: Code, y: Year, input: Input): (r: Values)
    ensures readOnly ==> r == v
    ensures !readOnly ==> k in r && r[k].At(y) == NumberOrZero(input)
    ensures !readOnly ==> forall y' :: y' != y ==> Leaf(r, k, y') == Leaf(v, k, y')
    ensures forall k' :: k' != k ==> (k' in r <==> k' in v) && (k' in v ==> r[k'] == v[k'])
  {
    if readOnly then v
    else
      var cell := if k in v then v[k] else Zero;
      var x := NumberOrZero(input);
      v[k := match y case N => cell.(exerciceN := x) case N1 => cell.(exerciceN1 := x)]
  }

  // ---------------------------------------------------------------------
  // Properties of the statement

  /** Without values, every total is zero. */
  lemma AbsentValuesGiveZero()
    ensures var t := Calculations(None);
      t.RW == Zero && t.TW == Zero && t.TX == Zero && t.SF == Zero && t.UF == Zero
      && t.UG == Zero && t.SH == Zero && t.UH == Zero && t.UI == Zero && t.SO == Zero
      && t.UO == Zero && t.UP == Zero && t.ST == Zero && t.UT == Zero && t.UZ == Zero
  {
  }

  lemma {:induction false} SumYearConcat(v: Values, a: seq<Code>, b: seq<Code>, y: Year)
    ensures SumYear(v, a + b, y) == SumYear(v, a, y) + SumYear(v, b, y)
    decreases |b|
  {
    if b == [] {
      assert a + b == a;
    } else {
      assert (a + b)[..|a + b| - 1] == a + b[..|b| - 1];
      SumYearConcat(v, a, b[..|b| - 1], y);
    }
  }

  /** With no cell entered, every sum is zero. */
  lemma {:induction false} SumYearZero(keys: seq<Code>)
    ensures forall y :: SumYear(map[], keys, y) == 0.0
  {
    if keys != [] {
      SumYearZero(keys[..|keys| - 1]);
    }
  }

  /** A sum over listed leaves depends only on those leaves, and only in the
    * year it is taken for. */
  lemma {:induction false} SumYearDependsOnListedLeaves(v: Values, w: Values, keys: seq<Code>, y: Year)
    requires forall k :: k in keys ==> Leaf(v, k, y) == Leaf(w, k, y)
    ensures SumYear(v, keys, y) == SumYear(w, keys, y)
  {
    if keys != [] {
      SumYearDependsOnListedLeaves(v, w, keys[..|keys| - 1], y);
    }
  }

  /** The identities of the statement's layout, whatever the leaf sums: the
    * ordinary result is ordinary products minus ordinary charges, and the
    * net result is the ordinary result plus the H.A.O. result minus the two
    * tax lines. */
  lemma LayoutIdentities(RW: Amounts, TW: Amounts, SF: Amounts, UF: Amounts, SO: Amounts, UO: Amounts,
                         sq: Amounts, sr: Amounts)
    ensures var t := Combine(RW, TW, SF, UF, SO, UO, sq, sr);
      t.UI == Minus(t.UH, t.SH) && t.UZ == Minus(Plus(t.UI, t.UP), Plus(sq, sr))
  {
  }

  /** All products of the statement, in the order the balance sheet lists them. */
  const Products: seq<Code> := ExploitationProducts + FinancialProducts + HaoProducts
  /** All charges of the statement, in the order the balance sheet lists them. */
  const Charges: seq<Code> := ExploitationCharges + FinancialCharges + HaoCharges + [SQ, SR]

  /** The net result UZ equals all products minus all charges, year by year:
    * this is the figure the balance sheet recomputes as its year's result. */
  lemma NetResultIsProductsMinusCharges(v: Values)
    ensures Calculations(Some(v)).UZ == Minus(Calc(v, Products), Calc(v, Charges))
  {
    NetResultOfYear(v, N);
    NetResultOfYear(v, N1);
  }

  lemma NetResultOfYear(v: Values, y: Year)
    ensures Calculations(Some(v)).UZ.At(y) == SumYear(v, Products, y) - SumYear(v, Charges, y)
  {
    ProductsByGroup(v, y);
    ChargesByGroup(v, y);
  }

  /** The products are the exploitation, financial and H.A.O. products. */
  lemma ProductsByGroup(v: Values, y: Year)
    ensures SumYear(v, Products, y)
            == SumYear(v, ExploitationProducts, y) + SumYear(v, FinancialProducts, y) + SumYear(v, HaoProducts, y)
  {
    SumYearConcat(v, ExploitationProducts + FinancialProducts, HaoProducts, y);
    SumYearConcat(v, ExploitationProducts, FinancialProducts, y);
  }

  /** The charges are the three groups of charges and the two tax lines. */
  lemma ChargesByGroup(v: Values, y: Year)
    ensures SumYear(v, Charges, y)
            == SumYear(v, ExploitationCharges, y) + SumYear(v, FinancialCharges, y) + SumYear(v, HaoCharges, y)
               + Leaf(v, SQ, y) + Leaf(v, SR, y)
  {
    SumYearConcat(v, ExploitationCharges + FinancialCharges + HaoCharges, [SQ, SR], y);
    SumYearConcat(v, ExploitationCharges + FinancialCharges, HaoCharges, y);
    SumYearConcat(v, ExploitationCharges, FinancialCharges, y);
    assert [SQ, SR][..1] == [SQ] && [SQ][..0] == [];
    assert SumYear(v, [SQ], y) == Leaf(v, SQ, y);
    assert SumYear(v, [SQ, SR], y) == Leaf(v, SQ, y) + Leaf(v, SR, y);
  }

  /** The two years never mix: the totals of one year are determined by
    * that year's leaves alone. */
  lemma YearsAreIndependent(v: Values, w: Values, y: Year)
    requires forall k :: Leaf(v, k, y) == Leaf(w, k, y)
    ensures var tv, tw := Calculations(Some(v)), Calculations(Some(w));
      tv.RW.At(y) == tw.RW.At(y) && tv.TW.At(y) == tw.TW.At(y) && tv.TX.At(y) == tw.TX.At(y)
      && tv.SF.At(y) == tw.SF.At(y) && tv.UF.At(y) == tw.UF.At(y) && tv.UG.At(y) == tw.UG.At(y)
      && tv.SH.At(y) == tw.SH.At(y) && tv.UH.At(y) == tw.UH.At(y) && tv.UI.At(y) == tw.UI.At(y)
      && tv.SO.At(y) == tw.SO.At(y) && tv.UO.At(y) == tw.UO.At(y) && tv.UP.At(y) == tw.UP.At(y)
      && tv.ST.At(y) == tw.ST.At(y) && tv.UT.At(y) == tw.UT.At(y) && tv.UZ.At(y) == tw.UZ.At(y)
  {
    SumYearDependsOnListedLeaves(v, w, ExploitationCharges, y);
    SumYearDependsOnListedLeaves(v, w, ExploitationProducts, y);
    SumYearDependsOnListedLeaves(v, w, FinancialCharges, y);
    SumYearDependsOnListedLeaves(v, w, FinancialProducts, y);
    SumYearDependsOnListedLeaves(v, w, HaoCharges, y);
    SumYearDependsOnListedLeaves(v, w, HaoProducts, y);
  }

  /** UJ is shown on the page but enters no total. */
  lemma UJEntersNoTotal(v: Values, a: Amounts)
    ensures Calculations(Some(v[UJ := a])) == Calculations(Some(v))
  {
    CalcIgnoresUJ(v, a, ExploitationCharges);
    CalcIgnoresUJ(v, a, ExploitationProducts);
    CalcIgnoresUJ(v, a, FinancialCharges);
    CalcIgnoresUJ(v, a, FinancialProducts);
    CalcIgnoresUJ(v, a, HaoCharges);
    CalcIgnoresUJ(v, a, HaoProducts);
  }

  lemma CalcIgnoresUJ(v: Values, a: Amounts, keys: seq<Code>)
    requires UJ !in keys
    ensures Calc(v[UJ := a], keys) == Calc(v, keys)
  {
    SumYearDependsOnListedLeaves(v[UJ := a], v, keys, N);
    SumYearDependsOnListedLeaves(v[UJ := a], v, keys, N1);
  }

  /** An edit of one year of one cell leaves every total of the other year as it was. */
  lemma EditTouchesOneYear(v: Values, k: Code, y: Year, input: Input, other: Year)
    requires other != y
    ensures var before, after := Calculations(Some(v)), Calculations(Some(SetValue(v, false, k, y, input)));
      before.UZ.At(other) == after.UZ.At(other) && before.UI.At(other) == after.UI.At(other)
      && before.TX.At(other) == after.TX.At(other) && before.UP.At(other) == after.UP.At(other)
  {
    var w := SetValue(v, false, k, y, input);
    assert forall k' :: Leaf(w, k', other) == Leaf(v, k', other);
    YearsAreIndependent(w, v, other);
  }
}
