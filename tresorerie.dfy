/** The twelve-month cash-flow plan (plan de trésorerie): fixed rows and
  * user-extensible sections of monthly amounts, each row with a reasoned
  * monthly average; the aggregates built from them, the cash flows, and
  * the running balance. */
module Tresorerie {
  import opened Base
  import Rows

  // ---------------------------------------------------------------------
  // Data

  const Months := 12

  datatype StaticKey =
    | VentesJustifiees | VentesAutreCompte | VentesCompteConfrere
    | AchatsJustifies | AchatsAutreCompte | AchatsCompteConfrere
    | SalaireDirigeant | Salaires | Cnss | ImpotsRevenu
    | Loyer | Electricite | Transport | Deplacements | ServicesExterieurs | Telephone
    | ImpotsTaxes | FraisDouanes | FraisFinanciers | TvaAPayer
    | Emprunts | AugmentationCapital | ApportCC | RembEmprunts
    | RevenusMenage | DepensesMenage

  datatype SectionKey =
    | VentesAutres | AutresRecettes | AchatsAutres | AutresDepenses
    | AutresSalaires | AutresCharges | AutresRessources | Dividendes

  /** Twelve monthly amounts, the reasoned monthly average and a comment. */
  datatype RowData = RowData(values: seq<real>, moyenneRaisonnee: real, commentaire: string)

  /** A user row: `label` is named `rowLabel` here (`label` is a Dafny keyword). */
  datatype DynamicRow = DynamicRow(id: string, rowLabel: string, data: RowData)

  datatype PlanRows = PlanRows(statics: map<StaticKey, RowData>, sections: map<SectionKey, seq<DynamicRow>>)

  /** Every fixed row and every section is present. */
  predicate Complete(rows: PlanRows)
  {
    (forall k: StaticKey :: k in rows.statics) && (forall s: SectionKey :: s in rows.sections)
  }

  /** Every row of the plan has exactly twelve months. */
  predicate TwelveMonths(rows: PlanRows)
  {
    (forall k :: k in rows.statics ==> |rows.statics[k].values| == Months)
    && (forall s, j :: s in rows.sections && 0 <= j < |rows.sections[s]|
          ==> |rows.sections[s][j].data.values| == Months)
  }

  datatype TresorerieData = TresorerieData(
    soldeDate: string, soldeInitial: real, rows: PlanRows,
    justificationVentes: string, justificationAchats: string, justificationAutresFlux: string)

  // ---------------------------------------------------------------------
  // Column sums

  /** `arr[i] || 0`: a month past the end of a row counts as zero. */
  function At(values: seq<real>, i: nat): real
  {
    if i < |values| then values[i] else 0.0
  }

  /** Month `i` summed over the rows, left to right. */
  function ColumnSum(arrays: seq<seq<real>>, i: nat): real
  {
    if arrays == [] then 0.0 else ColumnSum(arrays[..|arrays| - 1], i) + At(arrays[|arrays| - 1], i)
  }

  /** `sumRowDataArrays`: twelve zeros for no rows, otherwise the twelve
    * monthly column sums. */
  function SumRowDataArrays(arrays: seq<seq<real>>): (r: seq<real>)
    ensures |r| == Months
  {
    if |arrays| == 0 then seq(Months, _ => 0.0) else seq(Months, i requires 0 <= i < Months => ColumnSum(arrays, i))
  }

  /** One element of `calc`'s argument: a fixed row (or an aggregate), or a
    * whole section of user rows. */
  datatype Item = Fixed(row: RowData) | Section(rows: seq<DynamicRow>)

  function SectionValues(rows: seq<DynamicRow>): (r: seq<seq<real>>)
    ensures |r| == |rows|
  {
    if rows == [] then [] else SectionValues(rows[..|rows| - 1]) + [rows[|rows| - 1].data.values]
  }

  function ItemValues(item: Item): seq<seq<real>>
  {
    match item
    case Fixed(r) => [r.values]
    case Section(rows) => SectionValues(rows)
  }

  function RowMr(d: DynamicRow): real
  {
    d.data.moyenneRaisonnee
  }

  function ItemMr(item: Item): real
  {
    match item
    case Fixed(r) => r.moyenneRaisonnee
    case Section(rows) => Rows.SumOf(rows, RowMr)
  }

  /** The month arrays `calc` collects, in order. */
  function ValuesOf(items: seq<Item>): seq<seq<real>>
  {
    if items == [] then [] else ValuesOf(items[..|items| - 1]) + ItemValues(items[|items| - 1])
  }

  /** The reasoned averages `calc` adds up. */
  function MrOf(items: seq<Item>): real
  {
    if items == [] then 0.0 else MrOf(items[..|items| - 1]) + ItemMr(items[|items| - 1])
  }

  /** What `calc(items)` returns. */
  function CalcSpec(items: seq<Item>): RowData
  {
    RowData(SumRowDataArrays(ValuesOf(items)), MrOf(items), "")
  }

  /** `calc`: walk the items, collecting each row's months and adding its
    * reasoned average, then sum the collected months column by column. */
  method Calc(items: seq<Item>) returns (r: RowData)
    ensures r == CalcSpec(items)
  {
    var valuesArrays: seq<seq<real>> := [];
    var mrSum := 0.0;
    var i := 0;
    while i < |items|
      invariant 0 <= i <= |items|
      invariant valuesArrays == ValuesOf(items[..i]) && mrSum == MrOf(items[..i])
    {
      CalcStep(items, i);
      match items[i] {
        case Fixed(row) =>
          valuesArrays := valuesArrays + [row.values];
          mrSum := mrSum + row.moyenneRaisonnee;
        case Section(rows) =>
          valuesArrays, mrSum := CollectSection(rows, valuesArrays, mrSum);
      }
      i := i + 1;
    }
    assert items[..i] == items;
    r := RowData(SumRowDataArrays(valuesArrays), mrSum, "");
  }

  /** The inner walk over one section's rows. */
  method CollectSection(rows: seq<DynamicRow>, values0: seq<seq<real>>, mr0: real)
    returns (values: seq<seq<real>>, mr: real)
    ensures values == values0 + SectionValues(rows)
    ensures mr == mr0 + Rows.SumOf(rows, RowMr)
  {
    values, mr := values0, mr0;
    var j := 0;
    while j < |rows|
      invariant 0 <= j <= |rows|
      invariant values == values0 + SectionValues(rows[..j])
      invariant mr == mr0 + Rows.SumOf(rows[..j], RowMr)
    {
      assert rows[..j + 1][..j] == rows[..j];
      values := values + [rows[j].data.values];
      mr := mr + rows[j].data.moyenneRaisonnee;
      j := j + 1;
    }
    assert rows[..j] == rows;
  }

  /** One more item adds its month arrays and its reasoned average. */
  lemma CalcStep(items: seq<Item>, i: nat)
    requires i < |items|
    ensures ValuesOf(items[..i + 1]) == ValuesOf(items[..i]) + ItemValues(items[i])
    ensures MrOf(items[..i + 1]) == MrOf(items[..i]) + ItemMr(items[i])
  {
    assert items[..i + 1][..i] == items[..i];
  }

  // ---------------------------------------------------------------------
  // What `calc` computes

  /** Month `i` summed over a section's rows. */
  function SectionMonth(rows: seq<DynamicRow>, i: nat): real
  {
    if rows == [] then 0.0 else SectionMonth(rows[..|rows| - 1], i) + At(rows[|rows| - 1].data.values, i)
  }

  function ItemMonth(item: Item, i: nat): real
  {
    match item
    case Fixed(r) => At(r.values, i)
    case Section(rows) => SectionMonth(rows, i)
  }

  /** Month `i` summed over the items. */
  function MonthOf(items: seq<Item>, i: nat): real
  {
    if items == [] then 0.0 else MonthOf(items[..|items| - 1], i) + ItemMonth(items[|items| - 1], i)
  }

  lemma {:induction false} ColumnSumConcat(a: seq<seq<real>>, b: seq<seq<real>>, i: nat)
    ensures ColumnSum(a + b, i) == ColumnSum(a, i) + ColumnSum(b, i)
    decreases |b|
  {
    if b == [] {
      assert a + b == a;
    } else {
      assert (a + b)[..|a + b| - 1] == a + b[..|b| - 1];
      ColumnSumConcat(a, b[..|b| - 1], i);
    }
  }

  lemma {:induction false} SectionColumn(rows: seq<DynamicRow>, i: nat)
    ensures ColumnSum(SectionValues(rows), i) == SectionMonth(rows, i)
  {
    if rows != [] {
      SectionColumn(rows[..|rows| - 1], i);
      ColumnSumConcat(SectionValues(rows[..|rows| - 1]), [rows[|rows| - 1].data.values], i);
      assert [rows[|rows| - 1].data.values][..0] == [];
    }
  }

  lemma {:induction false} ValuesOfColumn(items: seq<Item>, i: nat)
    ensures ColumnSum(ValuesOf(items), i) == MonthOf(items, i)
  {
    if items != [] {
      var last := items[|items| - 1];
      ValuesOfColumn(items[..|items| - 1], i);
      ColumnSumConcat(ValuesOf(items[..|items| - 1]), ItemValues(last), i);
      match last {
        case Fixed(r) => assert [r.values][..0] == [];
        case Section(rows) => SectionColumn(rows, i);
      }
    }
  }

  /** An aggregate's month is the sum of that month over its items (fixed
    * rows and every row of each section), and its reasoned average is the
    * sum of their reasoned averages, which the monthly values never enter. */
  lemma CalcTotals(items: seq<Item>)
    ensures |CalcSpec(items).values| == Months
    ensures forall i :: 0 <= i < Months ==> CalcSpec(items).values[i] == MonthOf(items, i)
    ensures CalcSpec(items).moyenneRaisonnee == MrOf(items)
  {
    forall i | 0 <= i < Months
      ensures CalcSpec(items).values[i] == MonthOf(items, i)
    {
      ValuesOfColumn(items, i);
    }
  }

  lemma {:induction false} MonthOfCongruent(items: seq<Item>, items': seq<Item>, i: nat)
    requires |items| == |items'|
    requires forall k :: 0 <= k < |items| ==> ItemMonth(items[k], i) == ItemMonth(items'[k], i)
    ensures MonthOf(items, i) == MonthOf(items', i)
  {
    if items != [] {
      MonthOfCongruent(items[..|items| - 1], items'[..|items| - 1], i);
    }
  }

  lemma {:induction false} MrOfCongruent(items: seq<Item>, items': seq<Item>)
    requires |items| == |items'|
    requires forall k :: 0 <= k < |items| ==> ItemMr(items[k]) == ItemMr(items'[k])
    ensures MrOf(items) == MrOf(items')
  {
    if items != [] {
      MrOfCongruent(items[..|items| - 1], items'[..|items| - 1]);
    }
  }

  /** A row of twelve zeros, as `addDynamicRow` creates it. */
  function NewRow(id: string, name: string): DynamicRow
  {
    DynamicRow(id, name, RowData(seq(Months, _ => 0.0), 0.0, ""))
  }

  // ---------------------------------------------------------------------
  // The plan's aggregates

  /** A computed line: monthly amounts and reasoned average. */
  datatype Flow = Flow(values: seq<real>, moyenneRaisonnee: real)

  function AsFlow(r: RowData): Flow
  {
    Flow(r.values, r.moyenneRaisonnee)
  }

  /** `a.values.map((x, i) => x - b.values[i])`, and the averages subtracted. */
  function FlowMinus(a: Flow, b: Flow): Flow
  {
    Flow(seq(|a.values|, i requires 0 <= i < |a.values| => a.values[i] - At(b.values, i)),
         a.moyenneRaisonnee - b.moyenneRaisonnee)
  }

  /** `a.values.map((x, i) => x + b.values[i])`, and the averages added. */
  function FlowPlus(a: Flow, b: Flow): Flow
  {
    Flow(seq(|a.values|, i requires 0 <= i < |a.values| => a.values[i] + At(b.values, i)),
         a.moyenneRaisonnee + b.moyenneRaisonnee)
  }

  /** The aggregates taken directly from the plan's rows. */
  datatype Groups = Groups(
    recettesVentes: RowData, autresRecettes: RowData,
    achatsTTC: RowData, autresDepenses: RowData, fraisPersonnel: RowData, chargesExternes: RowData,
    impotsTaxes: RowData, fraisDouanes: RowData, fraisFinanciers: RowData, tvaAPayer: RowData,
    ressourcesHorsExploitation: RowData, sortiesHorsExploitation: RowData,
    revenusMenage: RowData, depensesMenage: RowData)

  /** A reference, in a group's definition, to a fixed row or a section. */
  datatype RowRef = StaticRef(key: StaticKey) | SectionRef(section: SectionKey)

  /** The rows each group is computed from, in the order of `Groups`. */
  const GroupTemplates: seq<seq<RowRef>> := [
    [StaticRef(VentesJustifiees), StaticRef(VentesAutreCompte), StaticRef(VentesCompteConfrere),
     SectionRef(VentesAutres)],
    [SectionRef(AutresRecettes)],
    [StaticRef(AchatsJustifies), StaticRef(AchatsAutreCompte), StaticRef(AchatsCompteConfrere),
     SectionRef(AchatsAutres)],
    [SectionRef(AutresDepenses)],
    [StaticRef(SalaireDirigeant), StaticRef(Salaires), SectionRef(AutresSalaires), StaticRef(Cnss),
     StaticRef(ImpotsRevenu)],
    [StaticRef(Loyer), StaticRef(Electricite), StaticRef(Transport), StaticRef(Deplacements),
     StaticRef(ServicesExterieurs), StaticRef(Telephone), SectionRef(AutresCharges)],
    [StaticRef(ImpotsTaxes)],
    [StaticRef(FraisDouanes)],
    [StaticRef(FraisFinanciers)],
    [StaticRef(TvaAPayer)],
    [StaticRef(Emprunts), StaticRef(AugmentationCapital), StaticRef(ApportCC), SectionRef(AutresRessources)],
    [StaticRef(RembEmprunts), SectionRef(Dividendes)],
    [StaticRef(RevenusMenage)],
    [StaticRef(DepensesMenage)]
  ]

  /** The items `calc` receives for a group definition. */
  function Resolve(rows: PlanRows, refs: seq<RowRef>): (items: seq<Item>)
    requires Complete(rows)
    ensures |items| == |refs|
  {
    seq(|refs|, k requires 0 <= k < |refs| =>
      match refs[k]
      case StaticRef(key) => Fixed(rows.statics[key])
      case SectionRef(sec) => Section(rows.sections[sec]))
  }

  function GroupsOf(rows: PlanRows): Groups
    requires Complete(rows)
  {
    var G := GroupTemplates;
    Groups(CalcSpec(Resolve(rows, G[0])), CalcSpec(Resolve(rows, G[1])), CalcSpec(Resolve(rows, G[2])),
           CalcSpec(Resolve(rows, G[3])), CalcSpec(Resolve(rows, G[4])), CalcSpec(Resolve(rows, G[5])),
           CalcSpec(Resolve(rows, G[6])), CalcSpec(Resolve(rows, G[7])), CalcSpec(Resolve(rows, G[8])),
           CalcSpec(Resolve(rows, G[9])), CalcSpec(Resolve(rows, G[10])), CalcSpec(Resolve(rows, G[11])),
           CalcSpec(Resolve(rows, G[12])), CalcSpec(Resolve(rows, G[13])))
  }

  /** Every aggregate taken from the plan has twelve months. */
  predicate Sized(g: Groups)
  {
    |g.recettesVentes.values| == Months && |g.autresRecettes.values| == Months
    && |g.achatsTTC.values| == Months && |g.autresDepenses.values| == Months
    && |g.fraisPersonnel.values| == Months && |g.chargesExternes.values| == Months
    && |g.impotsTaxes.values| == Months && |g.fraisDouanes.values| == Months
    && |g.fraisFinanciers.values| == Months && |g.tvaAPayer.values| == Months
    && |g.ressourcesHorsExploitation.values| == Months && |g.sortiesHorsExploitation.values| == Months
    && |g.revenusMenage.values| == Months && |g.depensesMenage.values| == Months
  }

  datatype Results = Results(
    groups: Groups,
    recettesExploitation: RowData, depensesExploitation: RowData,
    cashFlowExploitation: Flow, cashFlowHorsExploitation: Flow, cashFlowActivite: Flow,
    cashFlowMenage: Flow, cashFlowTotal: Flow, soldeCumule: seq<real>)

  /** The eight expense groups that make up operating expenses, in order. */
  function ExpenseGroups(g: Groups): seq<RowData>
  {
    [g.achatsTTC, g.autresDepenses, g.fraisPersonnel, g.chargesExternes,
     g.impotsTaxes, g.fraisDouanes, g.fraisFinanciers, g.tvaAPayer]
  }

  function Fixeds(rs: seq<RowData>): (items: seq<Item>)
    ensures |items| == |rs| && forall k :: 0 <= k < |rs| ==> items[k] == Fixed(rs[k])
  {
    seq(|rs|, k requires 0 <= k < |rs| => Fixed(rs[k]))
  }

  /** `soldeCumule`: each month's balance is the previous month's (the
    * initial balance for the first) plus that month's total cash flow. */
  function SoldeCumule(soldeInitial: real, cashFlows: seq<real>): (r: seq<real>)
    ensures |r| == |cashFlows|
  {
    if cashFlows == [] then []
    else
      var acc := SoldeCumule(soldeInitial, cashFlows[..|cashFlows| - 1]);
      var prev := if |acc| > 0 then acc[|acc| - 1] else soldeInitial;
      acc + [prev + cashFlows[|cashFlows| - 1]]
  }

  /** The derived lines: operating receipts and expenses, the cash flows
    * and the running balance. */
  function Combine(g: Groups, soldeInitial: real): Results
  {
    var recettesExploitation := CalcSpec([Fixed(g.recettesVentes), Fixed(g.autresRecettes)]);
    var depensesExploitation := CalcSpec(Fixeds(ExpenseGroups(g)));
    var cashFlowExploitation := FlowMinus(AsFlow(recettesExploitation), AsFlow(depensesExploitation));
    var cashFlowHorsExploitation := FlowMinus(AsFlow(g.ressourcesHorsExploitation), AsFlow(g.sortiesHorsExploitation));
    var cashFlowActivite := FlowPlus(cashFlowExploitation, cashFlowHorsExploitation);
    var cashFlowMenage := FlowMinus(AsFlow(g.revenusMenage), AsFlow(g.depensesMenage));
    var cashFlowTotal := FlowPlus(cashFlowActivite, cashFlowMenage);
    Results(g, recettesExploitation, depensesExploitation, cashFlowExploitation, cashFlowHorsExploitation,
            cashFlowActivite, cashFlowMenage, cashFlowTotal, SoldeCumule(soldeInitial, cashFlowTotal.values))
  }

  /** The page's `calculations`. */
  function Calculations(t: TresorerieData): Results
    requires Complete(t.rows)
  {
    Combine(GroupsOf(t.rows), t.soldeInitial)
  }

  // ---------------------------------------------------------------------
  // Properties of the aggregates

  /** Month `i` summed over aggregates. */
  function GroupsMonth(rs: seq<RowData>, i: nat): real
  {
    if rs == [] then 0.0 else GroupsMonth(rs[..|rs| - 1], i) + At(rs[|rs| - 1].values, i)
  }

  function GroupsMr(rs: seq<RowData>): real
  {
    if rs == [] then 0.0 else GroupsMr(rs[..|rs| - 1]) + rs[|rs| - 1].moyenneRaisonnee
  }

  lemma {:induction false} FixedsSums(rs: seq<RowData>, i: nat)
    ensures MonthOf(Fixeds(rs), i) == GroupsMonth(rs, i) && MrOf(Fixeds(rs)) == GroupsMr(rs)
  {
    if rs != [] {
      assert Fixeds(rs)[..|rs| - 1] == Fixeds(rs[..|rs| - 1]);
      FixedsSums(rs[..|rs| - 1], i);
    }
  }

  /** The plan is built bottom-up: operating receipts are sales plus other
    * receipts, operating expenses the sum of the eight expense groups, month
    * by month and on reasoned averages. */
  lemma OperatingTotals(g: Groups, soldeInitial: real, i: nat)
    requires i < Months
    ensures var r := Combine(g, soldeInitial);
      r.recettesExploitation.values[i]
        == At(r.groups.recettesVentes.values, i) + At(r.groups.autresRecettes.values, i)
      && r.recettesExploitation.moyenneRaisonnee
        == r.groups.recettesVentes.moyenneRaisonnee + r.groups.autresRecettes.moyenneRaisonnee
      && r.depensesExploitation.values[i] == GroupsMonth(ExpenseGroups(r.groups), i)
      && r.depensesExploitation.moyenneRaisonnee == GroupsMr(ExpenseGroups(r.groups))
  {
    var items := [Fixed(g.recettesVentes), Fixed(g.autresRecettes)];
    CalcTotals(items);
    assert items[..1] == [Fixed(g.recettesVentes)] && items[..1][..0] == [];
    assert MonthOf(items, i) == MonthOf(items[..1], i) + At(g.autresRecettes.values, i);
    assert MonthOf(items[..1], i) == MonthOf([], i) + At(g.recettesVentes.values, i);
    assert MrOf(items) == MrOf(items[..1]) + g.autresRecettes.moyenneRaisonnee;
    assert MrOf(items[..1]) == MrOf([]) + g.recettesVentes.moyenneRaisonnee;
    CalcTotals(Fixeds(ExpenseGroups(g)));
    FixedsSums(ExpenseGroups(g), i);
  }

  /** Each cash flow is inflows minus outflows, and the total cash flow is
    * the operating, non-operating and household flows together. */
  lemma CashFlowIdentities(g: Groups, soldeInitial: real, i: nat)
    requires Sized(g) && i < Months
    ensures var r := Combine(g, soldeInitial);
      |r.cashFlowTotal.values| == Months
      && r.cashFlowTotal.values[i]
        == (r.recettesExploitation.values[i] - r.depensesExploitation.values[i])
         + (g.ressourcesHorsExploitation.values[i] - g.sortiesHorsExploitation.values[i])
         + (g.revenusMenage.values[i] - g.depensesMenage.values[i])
      && r.cashFlowTotal.moyenneRaisonnee
        == (r.recettesExploitation.moyenneRaisonnee - r.depensesExploitation.moyenneRaisonnee)
         + (g.ressourcesHorsExploitation.moyenneRaisonnee - g.sortiesHorsExploitation.moyenneRaisonnee)
         + (g.revenusMenage.moyenneRaisonnee - g.depensesMenage.moyenneRaisonnee)
  {
    CalcTotals([Fixed(g.recettesVentes), Fixed(g.autresRecettes)]);
    CalcTotals(Fixeds(ExpenseGroups(g)));
  }

  function PrefixSum(s: seq<real>, n: nat): real
    requires n <= |s|
  {
    if n == 0 then 0.0 else PrefixSum(s, n - 1) + s[n - 1]
  }

  /** The running balance at month `i` is the initial balance plus every
    * cash flow up to and including month `i`. */
  lemma {:induction false} SoldeCumuleIsRunningTotal(soldeInitial: real, cashFlows: seq<real>, i: nat)
    requires i < |cashFlows|
    ensures SoldeCumule(soldeInitial, cashFlows)[i] == soldeInitial + PrefixSum(cashFlows, i + 1)
    decreases |cashFlows|
  {
    var n := |cashFlows| - 1;
    var init := cashFlows[..n];
    assert forall m: nat :: m <= n ==> PrefixSum(init, m) == PrefixSum(cashFlows, m) by {
      forall m: nat | m <= n ensures PrefixSum(init, m) == PrefixSum(cashFlows, m) {
        PrefixSumOfPrefix(cashFlows, n, m);
      }
    }
    if i < n {
      SoldeCumuleIsRunningTotal(soldeInitial, init, i);
    } else if n > 0 {
      SoldeCumuleIsRunningTotal(soldeInitial, init, n - 1);
    }
  }

  lemma {:induction false} PrefixSumOfPrefix(s: seq<real>, n: nat, m: nat)
    requires m <= n <= |s|
    ensures PrefixSum(s[..n], m) == PrefixSum(s, m)
  {
    if m > 0 {
      PrefixSumOfPrefix(s, n, m - 1);
    }
  }

  /** A row's displayed total: the sum of its months. */
  function RowTotal(values: seq<real>): real
  {
    if values == [] then 0.0 else RowTotal(values[..|values| - 1]) + values[|values| - 1]
  }

  /** A row's displayed monthly average: the total over the number of
    * months the plan covers, zero while that number is not positive. */
  function RowAverage(values: seq<real>, numMonths: int): (avg: real)
    ensures numMonths > 0 ==> avg * (numMonths as real) == RowTotal(values)
    ensures numMonths <= 0 ==> avg == 0.0
  {
    if numMonths > 0 then RowTotal(values) / (numMonths as real) else 0.0
  }

  // ---------------------------------------------------------------------
  // Edits

  /** The editable cells of a row. */
  datatype CellField = Month(month: nat) | Average | Comment

  function EditRowData(r: RowData, field: CellField, input: Input): (r': RowData)
    requires field.Month? ==> field.month < |r.values|
    ensures |r'.values| == |r.values|
    ensures field.Month? ==> r'.values[field.month] == NumberOrZero(input)
    ensures forall j :: 0 <= j < |r.values| && field != Month(j) ==> r'.values[j] == r.values[j]
    ensures r'.moyenneRaisonnee == if field == Average then NumberOrZero(input) else r.moyenneRaisonnee
    ensures r'.commentaire == if field == Comment then input.text else r.commentaire
  {
    match field
    case Month(m) => r.(values := r.values[m := NumberOrZero(input)])
    case Average => r.(moyenneRaisonnee := NumberOrZero(input))
    case Comment => r.(commentaire := input.text)
  }

  /** The editable cells of a user row: its label or one of its data cells. */
  datatype DynamicField = Label | Cell(field: CellField)

  function EditDynamicRow(d: DynamicRow, field: DynamicField, input: Input): (d': DynamicRow)
    requires field.Cell? && field.field.Month? ==> field.field.month < |d.data.values|
    ensures d'.id == d.id
    ensures d'.rowLabel == if field == Label then input.text else d.rowLabel
    ensures d'.data == if field.Cell? then EditRowData(d.data, field.field, input) else d.data
  {
    match field
    case Label => d.(rowLabel := input.text)
    case Cell(f) => d.(data := EditRowData(d.data, f, input))
  }

  /** Two complete plans whose rows agree on month `i`. */
  predicate SameMonth(rows: PlanRows, rows': PlanRows, i: nat)
    requires Complete(rows) && Complete(rows')
  {
    (forall key :: At(rows.statics[key].values, i) == At(rows'.statics[key].values, i))
    && (forall sec :: SectionMonth(rows.sections[sec], i) == SectionMonth(rows'.sections[sec], i))
  }

  /** Two complete plans whose rows agree on their reasoned averages. */
  predicate SameAverages(rows: PlanRows, rows': PlanRows)
    requires Complete(rows) && Complete(rows')
  {
    (forall key :: rows.statics[key].moyenneRaisonnee == rows'.statics[key].moyenneRaisonnee)
    && (forall sec :: Rows.SumOf(rows.sections[sec], RowMr) == Rows.SumOf(rows'.sections[sec], RowMr))
  }

  /** An aggregate depends on the rows only through their months: plans
    * that agree on month `i` give every aggregate the same month `i`. */
  lemma AggregateMonthFollowsRows(rows: PlanRows, rows': PlanRows, refs: seq<RowRef>, i: nat)
    requires Complete(rows) && Complete(rows') && i < Months && SameMonth(rows, rows', i)
    ensures CalcSpec(Resolve(rows, refs)).values[i] == CalcSpec(Resolve(rows', refs)).values[i]
  {
    var items, items' := Resolve(rows, refs), Resolve(rows', refs);
    forall k | 0 <= k < |items|
      ensures ItemMonth(items[k], i) == ItemMonth(items'[k], i)
    {
      match refs[k] {
        case StaticRef(key) => assert At(rows.statics[key].values, i) == At(rows'.statics[key].values, i);
        case SectionRef(sec) => assert SectionMonth(rows.sections[sec], i) == SectionMonth(rows'.sections[sec], i);
      }
    }
    MonthOfCongruent(items, items', i);
    CalcTotals(items);
    CalcTotals(items');
  }

  /** ... and plans that agree on the reasoned averages give every aggregate
    * the same reasoned average. */
  lemma AggregateAverageFollowsRows(rows: PlanRows, rows': PlanRows, refs: seq<RowRef>)
    requires Complete(rows) && Complete(rows') && SameAverages(rows, rows')
    ensures CalcSpec(Resolve(rows, refs)).moyenneRaisonnee == CalcSpec(Resolve(rows', refs)).moyenneRaisonnee
  {
    var items, items' := Resolve(rows, refs), Resolve(rows', refs);
    forall k | 0 <= k < |items|
      ensures ItemMr(items[k]) == ItemMr(items'[k])
    {
      match refs[k] {
        case StaticRef(key) =>
          assert rows.statics[key].moyenneRaisonnee == rows'.statics[key].moyenneRaisonnee;
        case SectionRef(sec) =>
          assert Rows.SumOf(rows.sections[sec], RowMr) == Rows.SumOf(rows'.sections[sec], RowMr);
      }
    }
    MrOfCongruent(items, items');
  }

  /** Plans that agree on every month and every average have the same
    * aggregates, cash flows and running balance. */
  lemma SameFiguresSameResults(t: TresorerieData, rows': PlanRows)
    requires Complete(t.rows) && Complete(rows')
    requires SameAverages(t.rows, rows') && forall i :: 0 <= i < Months ==> SameMonth(t.rows, rows', i)
    ensures Calculations(t.(rows := rows')) == Calculations(t)
  {
    forall refs: seq<RowRef>
      ensures CalcSpec(Resolve(rows', refs)) == CalcSpec(Resolve(t.rows, refs))
    {
      SameFiguresSameAggregate(t.rows, rows', refs);
    }
    assert GroupsOf(rows') == GroupsOf(t.rows);
  }

  /** One aggregate of such plans is the same. */
  lemma SameFiguresSameAggregate(rows: PlanRows, rows': PlanRows, refs: seq<RowRef>)
    requires Complete(rows) && Complete(rows')
    requires SameAverages(rows, rows') && forall i :: 0 <= i < Months ==> SameMonth(rows, rows', i)
    ensures CalcSpec(Resolve(rows', refs)) == CalcSpec(Resolve(rows, refs))
  {
    AggregateAverageFollowsRows(rows, rows', refs);
    forall i | 0 <= i < Months
      ensures CalcSpec(Resolve(rows', refs)).values[i] == CalcSpec(Resolve(rows, refs)).values[i]
    {
      AggregateMonthFollowsRows(rows, rows', refs, i);
    }
    assert CalcSpec(Resolve(rows', refs)).values == CalcSpec(Resolve(rows, refs)).values;
  }

  /** `addDynamicRow` on the rows. */
  function AddRowTo(rows: PlanRows, s: SectionKey, id: string, name: string): (r: PlanRows)
    requires Complete(rows)
    ensures Complete(r) && r.statics == rows.statics
    ensures |r.sections[s]| == |rows.sections[s]| + 1 && r.sections[s][..|rows.sections[s]|] == rows.sections[s]
    ensures r.sections[s][|rows.sections[s]|] == NewRow(id, name)
    ensures forall s' :: s' != s ==> r.sections[s'] == rows.sections[s']
  {
    rows.(sections := rows.sections[s := Rows.Append(rows.sections[s], NewRow(id, name))])
  }

  /** Adding a row to a section leaves every aggregate, cash flow and the
    * running balance as they were. */
  lemma AddedRowChangesNothing(t: TresorerieData, s: SectionKey, id: string, name: string)
    requires Complete(t.rows)
    ensures Calculations(t.(rows := AddRowTo(t.rows, s, id, name))) == Calculations(t)
  {
    var rows := t.rows;
    var rows' := AddRowTo(rows, s, id, name);
    var sec := rows.sections[s];
    assert (sec + [NewRow(id, name)])[..|sec|] == sec;
    assert Rows.SumOf(rows'.sections[s], RowMr) == Rows.SumOf(sec, RowMr) + 0.0;
    forall i | 0 <= i < Months ensures SameMonth(rows, rows', i) {
      assert SectionMonth(rows'.sections[s], i) == SectionMonth(sec, i) + 0.0;
    }
    SameFiguresSameResults(t, rows');
  }

  /** `handleStaticRowChange` on the rows. */
  function EditStatic(rows: PlanRows, key: StaticKey, field: CellField, input: Input): (r: PlanRows)
    requires Complete(rows) && (field.Month? ==> field.month < |rows.statics[key].values|)
    ensures Complete(r) && r.sections == rows.sections
    ensures r.statics[key] == EditRowData(rows.statics[key], field, input)
    ensures forall k :: k != key ==> r.statics[k] == rows.statics[k]
  {
    rows.(statics := rows.statics[key := EditRowData(rows.statics[key], field, input)])
  }

  /** `handleDynamicRowChange` on the rows. */
  function EditDynamic(rows: PlanRows, s: SectionKey, index: nat, field: DynamicField, input: Input): (r: PlanRows)
    requires Complete(rows) && index < |rows.sections[s]|
    requires field.Cell? && field.field.Month? ==> field.field.month < |rows.sections[s][index].data.values|
    ensures Complete(r) && r.statics == rows.statics
    ensures forall s' :: s' != s ==> r.sections[s'] == rows.sections[s']
    ensures |r.sections[s]| == |rows.sections[s]|
    ensures r.sections[s][index] == EditDynamicRow(rows.sections[s][index], field, input)
    ensures forall j :: 0 <= j < |rows.sections[s]| && j != index ==> r.sections[s][j] == rows.sections[s][j]
  {
    rows.(sections := rows.sections[s := Rows.UpdateAt(rows.sections[s], index,
                                                          EditDynamicRow(rows.sections[s][index], field, input))])
  }

  /** An edit of a fixed row keeps every row at twelve months. */
  lemma EditsKeepTwelveMonths(rows: PlanRows, key: StaticKey, field: CellField, input: Input)
    requires Complete(rows) && TwelveMonths(rows) && (field.Month? ==> field.month < Months)
    ensures TwelveMonths(EditStatic(rows, key, field, input))
  {
  }

  /** So does an edit of a user row. */
  lemma DynamicEditsKeepTwelveMonths(rows: PlanRows, s: SectionKey, index: nat, field: DynamicField, input: Input)
    requires Complete(rows) && TwelveMonths(rows) && index < |rows.sections[s]|
    requires field.Cell? && field.field.Month? ==> field.field.month < Months
    ensures TwelveMonths(EditDynamic(rows, s, index, field, input))
  {
  }

  /** How often a group definition names a row or section. */
  function Occurrences(refs: seq<RowRef>, ref: RowRef): (n: nat)
    ensures n <= |refs|
  {
    if refs == [] then 0
    else Occurrences(refs[..|refs| - 1], ref) + (if refs[|refs| - 1] == ref then 1 else 0)
  }

  /** `n` times `delta`, as repeated addition. */
  function Times(n: nat, delta: real): (r: real)
    ensures r == (n as real) * delta
  {
    if n == 0 then 0.0 else Times(n - 1, delta) + delta
  }

  /** Month `i` over items that each move by `delta` where their reference
    * is `moved`: the total moves by `delta` for each such item. */
  lemma {:induction false} MonthOfShifts(items: seq<Item>, items': seq<Item>, refs: seq<RowRef>, moved: RowRef,
                                         i: nat, delta: real)
    requires |items| == |items'| == |refs|
    requires forall k :: 0 <= k < |items| ==>
               ItemMonth(items'[k], i) == ItemMonth(items[k], i) + (if refs[k] == moved then delta else 0.0)
    ensures MonthOf(items', i) == MonthOf(items, i) + Times(Occurrences(refs, moved), delta)
  {
    if items != [] {
      var n := |items| - 1;
      MonthOfShifts(items[..n], items'[..n], refs[..n], moved, i, delta);
      MonthOfShiftStep(items, items', refs, moved, i, delta);
    }
  }

  /** The last item's shift added to the shift of the others. */
  lemma MonthOfShiftStep(items: seq<Item>, items': seq<Item>, refs: seq<RowRef>, moved: RowRef, i: nat, delta: real)
    requires |items| == |items'| == |refs| > 0
    requires var n := |items| - 1;
      MonthOf(items'[..n], i) == MonthOf(items[..n], i) + Times(Occurrences(refs[..n], moved), delta)
      && ItemMonth(items'[n], i) == ItemMonth(items[n], i) + (if refs[n] == moved then delta else 0.0)
    ensures MonthOf(items', i) == MonthOf(items, i) + Times(Occurrences(refs, moved), delta)
  {
    var n := |items| - 1;
    if refs[n] == moved {
      assert Occurrences(refs, moved) == Occurrences(refs[..n], moved) + 1;
    } else {
      assert Occurrences(refs, moved) == Occurrences(refs[..n], moved);
    }
  }

  /** Month `i` of every fixed row moves by `delta` if it is `moved`, and
    * not at all otherwise. */
  predicate StaticsShift(rows: PlanRows, rows': PlanRows, i: nat, moved: RowRef, delta: real)
    requires Complete(rows) && Complete(rows')
  {
    forall key :: At(rows'.statics[key].values, i)
                  == At(rows.statics[key].values, i) + (if moved == StaticRef(key) then delta else 0.0)
  }

  /** The same for month `i` of every section. */
  predicate SectionsShift(rows: PlanRows, rows': PlanRows, i: nat, moved: RowRef, delta: real)
    requires Complete(rows) && Complete(rows')
  {
    forall sec :: SectionMonth(rows'.sections[sec], i)
                  == SectionMonth(rows.sections[sec], i) + (if moved == SectionRef(sec) then delta else 0.0)
  }

  /** Month `i` of an aggregate, when one row or section moves its month `i`
    * by `delta` and nothing else moves month `i`: the aggregate moves by
    * `delta` for every time its definition names what moved. */
  lemma {:induction false} MonthOfMoves(rows: PlanRows, rows': PlanRows, refs: seq<RowRef>, moved: RowRef, i: nat, delta: real)
    requires Complete(rows) && Complete(rows')
    requires StaticsShift(rows, rows', i, moved, delta) && SectionsShift(rows, rows', i, moved, delta)
    ensures MonthOf(Resolve(rows', refs), i)
            == MonthOf(Resolve(rows, refs), i) + Times(Occurrences(refs, moved), delta)
  {
    var items, items' := Resolve(rows, refs), Resolve(rows', refs);
    forall k | 0 <= k < |items|
      ensures ItemMonth(items'[k], i) == ItemMonth(items[k], i) + (if refs[k] == moved then delta else 0.0)
    {
      match refs[k] {
        case StaticRef(key) =>
          assert At(rows'.statics[key].values, i)
                 == At(rows.statics[key].values, i) + (if moved == StaticRef(key) then delta else 0.0);
        case SectionRef(sec) =>
          assert SectionMonth(rows'.sections[sec], i)
                 == SectionMonth(rows.sections[sec], i) + (if moved == SectionRef(sec) then delta else 0.0);
      }
    }
    MonthOfShifts(items, items', refs, moved, i, delta);
  }

  /** What an edit of month `m` of a fixed row does to month `m` of the plan. */
  lemma StaticMonthEditShifts(rows: PlanRows, rows': PlanRows, key: StaticKey, m: nat, input: Input)
    requires Complete(rows) && m < |rows.statics[key].values|
    requires rows' == EditStatic(rows, key, Month(m), input)
    ensures Complete(rows')
    ensures var delta := NumberOrZero(input) - rows.statics[key].values[m];
      StaticsShift(rows, rows', m, StaticRef(key), delta) && SectionsShift(rows, rows', m, StaticRef(key), delta)
  {
  }

  /** What an edit of month `m` of a user row does to month `m` of the plan. */
  lemma DynamicMonthEditShifts(rows: PlanRows, rows': PlanRows, s: SectionKey, index: nat, m: nat, input: Input)
    requires Complete(rows) && index < |rows.sections[s]| && m < |rows.sections[s][index].data.values|
    requires rows' == EditDynamic(rows, s, index, Cell(Month(m)), input)
    ensures Complete(rows')
    ensures var delta := NumberOrZero(input) - rows.sections[s][index].data.values[m];
      StaticsShift(rows, rows', m, SectionRef(s), delta) && SectionsShift(rows, rows', m, SectionRef(s), delta)
  {
    var d := EditDynamicRow(rows.sections[s][index], Cell(Month(m)), input);
    assert rows'.sections[s] == rows.sections[s][index := d];
    SectionMonthReplace(rows.sections[s], index, d, m);
  }

  /** Replacing one user row moves its section's month `i` by the change
    * in that row's month `i`. */
  lemma {:induction false} SectionMonthReplace(rows: seq<DynamicRow>, index: nat, d: DynamicRow, i: nat)
    requires index < |rows|
    ensures SectionMonth(rows[index := d], i)
            == SectionMonth(rows, i) + (At(d.data.values, i) - At(rows[index].data.values, i))
  {
    var n := |rows| - 1;
    assert rows[index := d][..n] == if index < n then rows[..n][index := d] else rows[..n];
    if index < n {
      SectionMonthReplace(rows[..n], index, d, i);
    }
  }

  /** An aggregate, as `calc` reports it, when one row or section moves its
    * month `i` by `delta` and nothing else moves month `i`. */
  lemma {:induction false} AggregateMoves(rows: PlanRows, rows': PlanRows, refs: seq<RowRef>, moved: RowRef, i: nat, delta: real)
    requires Complete(rows) && Complete(rows') && i < Months
    requires StaticsShift(rows, rows', i, moved, delta) && SectionsShift(rows, rows', i, moved, delta)
    ensures CalcSpec(Resolve(rows', refs)).values[i]
            == CalcSpec(Resolve(rows, refs)).values[i] + Times(Occurrences(refs, moved), delta)
  {
    MonthOfMoves(rows, rows', refs, moved, i, delta);
    CalcTotals(Resolve(rows, refs));
    CalcTotals(Resolve(rows', refs));
  }

  /** Entering a figure in month `m` of a fixed row moves month `m` of every
    * aggregate that lists the row by the new figure less the old one. */
  lemma {:induction false} StaticMonthEditMovesItsMonth(rows: PlanRows, rows': PlanRows, key: StaticKey, m: nat,
                                                        input: Input, refs: seq<RowRef>)
    requires Complete(rows) && m < |rows.statics[key].values|
    requires rows' == EditStatic(rows, key, Month(m), input)
    ensures MonthOf(Resolve(rows', refs), m)
            == MonthOf(Resolve(rows, refs), m)
               + Times(Occurrences(refs, StaticRef(key)), NumberOrZero(input) - rows.statics[key].values[m])
  {
    StaticMonthEditShifts(rows, rows', key, m, input);
    MonthOfMoves(rows, rows', refs, StaticRef(key), m, NumberOrZero(input) - rows.statics[key].values[m]);
  }

  /** The same for month `m` of a user row, through its section. */
  lemma {:induction false} DynamicMonthEditMovesItsMonth(rows: PlanRows, rows': PlanRows, s: SectionKey, index: nat,
                                                         m: nat, input: Input, refs: seq<RowRef>)
    requires Complete(rows) && index < |rows.sections[s]| && m < |rows.sections[s][index].data.values|
    requires rows' == EditDynamic(rows, s, index, Cell(Month(m)), input)
    ensures MonthOf(Resolve(rows', refs), m)
            == MonthOf(Resolve(rows, refs), m)
               + Times(Occurrences(refs, SectionRef(s)), NumberOrZero(input) - rows.sections[s][index].data.values[m])
  {
    DynamicMonthEditShifts(rows, rows', s, index, m, input);
    MonthOfMoves(rows, rows', refs, SectionRef(s), m, NumberOrZero(input) - rows.sections[s][index].data.values[m]);
  }

  /** A group definition that names no row or section twice. */
  predicate NoRepeats(refs: seq<RowRef>)
  {
    forall a, b :: 0 <= a < b < |refs| ==> refs[a] != refs[b]
  }

  lemma {:induction false} NoRepeatsOccurOnce(refs: seq<RowRef>, ref: RowRef)
    requires NoRepeats(refs)
    ensures Occurrences(refs, ref) <= 1
  {
    if refs != [] {
      var n := |refs| - 1;
      assert NoRepeats(refs[..n]);
      NoRepeatsOccurOnce(refs[..n], ref);
      if refs[n] == ref {
        AbsentNeverOccurs(refs[..n], ref);
      }
    }
  }

  lemma {:induction false} AbsentNeverOccurs(refs: seq<RowRef>, ref: RowRef)
    requires forall k :: 0 <= k < |refs| ==> refs[k] != ref
    ensures Occurrences(refs, ref) == 0
  {
    if refs != [] {
      AbsentNeverOccurs(refs[..|refs| - 1], ref);
    }
  }

  /** Each aggregate lists a row or a section at most once, so an edit moves
    * an aggregate by exactly the change, or not at all. */
  lemma GroupsListEachRowOnce(g: nat, ref: RowRef)
    requires g < |GroupTemplates|
    ensures Occurrences(GroupTemplates[g], ref) <= 1
  {
    assert NoRepeats(GroupTemplates[g]);
    NoRepeatsOccurOnce(GroupTemplates[g], ref);
  }

  lemma {:induction false} SectionMonthUpdate(rows: seq<DynamicRow>, index: nat, d: DynamicRow, i: nat)
    requires index < |rows| && At(d.data.values, i) == At(rows[index].data.values, i)
    ensures SectionMonth(rows[index := d], i) == SectionMonth(rows, i)
  {
    var n := |rows| - 1;
    assert rows[index := d][..n] == if index < n then rows[..n][index := d] else rows[..n];
    if index < n {
      SectionMonthUpdate(rows[..n], index, d, i);
    }
  }

  /** Replacing one user row: the plan keeps month `i` if the new row
    * does, and the averages if the new row keeps its average. */
  lemma ReplacedRowKeeps(rows: PlanRows, s: SectionKey, index: nat, d: DynamicRow, i: nat)
    requires Complete(rows) && index < |rows.sections[s]|
    ensures var rows' := rows.(sections := rows.sections[s := rows.sections[s][index := d]]);
      Complete(rows')
      && (At(d.data.values, i) == At(rows.sections[s][index].data.values, i) ==> SameMonth(rows, rows', i))
      && (RowMr(d) == RowMr(rows.sections[s][index]) ==> SameAverages(rows, rows'))
  {
    var sec := rows.sections[s];
    if At(d.data.values, i) == At(sec[index].data.values, i) {
      SectionMonthUpdate(sec, index, d, i);
    }
    Rows.SumOfUpdateAt(sec, index, d, RowMr);
  }

  /** A comment is text only: editing a fixed row's comment changes no figure. */
  lemma StaticCommentChangesNoFigure(t: TresorerieData, key: StaticKey, input: Input)
    requires Complete(t.rows)
    ensures Calculations(t.(rows := EditStatic(t.rows, key, Comment, input))) == Calculations(t)
  {
    var rows' := EditStatic(t.rows, key, Comment, input);
    CommentKeepsFigures(t.rows, key, input);
    SameFiguresSameResults(t, rows');
  }

  /** A comment edit keeps every month and every average of the plan. */
  lemma CommentKeepsFigures(rows: PlanRows, key: StaticKey, input: Input)
    requires Complete(rows)
    ensures var rows' := EditStatic(rows, key, Comment, input);
      SameAverages(rows, rows') && forall i :: 0 <= i < Months ==> SameMonth(rows, rows', i)
  {
    var rows' := EditStatic(rows, key, Comment, input);
    assert rows'.statics[key].values == rows.statics[key].values;
    assert rows'.sections == rows.sections;
  }

  /** Nor does editing a user row's label or comment. */
  lemma DynamicTextChangesNoFigure(t: TresorerieData, s: SectionKey, index: nat, field: DynamicField, input: Input)
    requires Complete(t.rows) && index < |t.rows.sections[s]|
    requires field == Label || field == Cell(Comment)
    ensures Calculations(t.(rows := EditDynamic(t.rows, s, index, field, input))) == Calculations(t)
  {
    var d := EditDynamicRow(t.rows.sections[s][index], field, input);
    var rows' := EditDynamic(t.rows, s, index, field, input);
    assert d.data.values == t.rows.sections[s][index].data.values;
    forall i | 0 <= i < Months ensures SameMonth(t.rows, rows', i) {
      ReplacedRowKeeps(t.rows, s, index, d, i);
    }
    ReplacedRowKeeps(t.rows, s, index, d, 0);
    SameFiguresSameResults(t, rows');
  }

  /** Editing month `m` of a fixed row leaves every other month of every
    * aggregate, and every reasoned average, as it was. */
  lemma StaticMonthEditStaysInItsMonth(rows: PlanRows, key: StaticKey, m: nat, input: Input,
                                       refs: seq<RowRef>, i: nat)
    requires Complete(rows) && m < |rows.statics[key].values| && i < Months && i != m
    ensures var rows' := EditStatic(rows, key, Month(m), input);
      CalcSpec(Resolve(rows', refs)).values[i] == CalcSpec(Resolve(rows, refs)).values[i]
      && CalcSpec(Resolve(rows', refs)).moyenneRaisonnee == CalcSpec(Resolve(rows, refs)).moyenneRaisonnee
  {
    var rows' := EditStatic(rows, key, Month(m), input);
    StaticMonthEditKeeps(rows, key, m, input, i);
    AggregateMonthFollowsRows(rows, rows', refs, i);
    AggregateAverageFollowsRows(rows, rows', refs);
  }

  lemma StaticMonthEditKeeps(rows: PlanRows, key: StaticKey, m: nat, input: Input, i: nat)
    requires Complete(rows) && m < |rows.statics[key].values| && i != m
    ensures var rows' := EditStatic(rows, key, Month(m), input);
      SameMonth(rows, rows', i) && SameAverages(rows, rows')
  {
    var rows' := EditStatic(rows, key, Month(m), input);
    forall k ensures At(rows.statics[k].values, i) == At(rows'.statics[k].values, i) {
      if k == key {
        assert rows'.statics[k].values == rows.statics[k].values[m := NumberOrZero(input)];
      }
    }
    assert rows'.sections == rows.sections;
  }

  /** The same holds for month `m` of a user row. */
  lemma DynamicMonthEditStaysInItsMonth(rows: PlanRows, s: SectionKey, index: nat, m: nat, input: Input,
                                        refs: seq<RowRef>, i: nat)
    requires Complete(rows) && index < |rows.sections[s]| && m < |rows.sections[s][index].data.values|
    requires i < Months && i != m
    ensures var rows' := EditDynamic(rows, s, index, Cell(Month(m)), input);
      CalcSpec(Resolve(rows', refs)).values[i] == CalcSpec(Resolve(rows, refs)).values[i]
      && CalcSpec(Resolve(rows', refs)).moyenneRaisonnee == CalcSpec(Resolve(rows, refs)).moyenneRaisonnee
  {
    var d := EditDynamicRow(rows.sections[s][index], Cell(Month(m)), input);
    var rows' := EditDynamic(rows, s, index, Cell(Month(m)), input);
    ReplacedRowKeeps(rows, s, index, d, i);
    AggregateMonthFollowsRows(rows, rows', refs, i);
    AggregateAverageFollowsRows(rows, rows', refs);
  }

  /** Removing the row just added restores the section. */
  lemma AddThenRemoveRestores(rows: PlanRows, s: SectionKey, id: string, name: string)
    requires Complete(rows)
    ensures var rows' := AddRowTo(rows, s, id, name);
      rows'.(sections := rows'.sections[s := Rows.RemoveAt(rows'.sections[s], |rows.sections[s]|)]) == rows
  {
    Rows.RemoveAppended(rows.sections[s], NewRow(id, name));
  }

  // ---------------------------------------------------------------------
  // The page's state and its change handlers

  /** The three free-text justifications of the plan. */
  datatype Justification = Ventes | Achats | AutresFlux

  /** The plan being edited, with the page's own month count. Every handler
    * does nothing on a read-only page. */
  class CashFlowSheet {
    var soldeDate: string
    var soldeInitial: real
    var rows: PlanRows
    var justificationVentes: string
    var justificationAchats: string
    var justificationAutresFlux: string
    /** Number of months the averages divide by. Entering the balance date
      * sets it to twelve for a valid date and to zero otherwise; the page
      * also lets it be typed in directly, any whole number. */
    var numMonths: int

    function Data(): TresorerieData
      reads this
    {
      TresorerieData(soldeDate, soldeInitial, rows, justificationVentes, justificationAchats, justificationAutresFlux)
    }

    /** Every row is present and has twelve months. */
    predicate Valid()
      reads this
    {
      Complete(rows) && TwelveMonths(rows)
    }

    constructor (data: TresorerieData)
      requires Complete(data.rows) && TwelveMonths(data.rows)
      ensures Valid() && Data() == data && numMonths == 0
    {
      soldeDate := data.soldeDate;
      soldeInitial := data.soldeInitial;
      rows := data.rows;
      justificationVentes := data.justificationVentes;
      justificationAchats := data.justificationAchats;
      justificationAutresFlux := data.justificationAutresFlux;
      numMonths := 0;
    }

    /** `handleDateChange`: whether the text is a valid date is decided by the
      * date parser, taken here as `isValidDate`. */
    method SetSoldeDate(readOnly: bool, text: string, isValidDate: bool)
      modifies this
      ensures readOnly ==> Data() == old(Data()) && numMonths == old(numMonths)
      ensures !readOnly ==> Data() == old(Data()).(soldeDate := text)
                            && numMonths == (if text != "" && isValidDate then Months else 0)
    {
      if readOnly {
        return;
      }
      soldeDate := text;
      if text != "" && isValidDate {
        numMonths := Months;
      } else {
        numMonths := 0;
      }
    }

    /** The month-count input, `setNumMonths(parseInt(v, 10) || 0)`.
      * `parsed` is what `parseInt` gives, `None` standing for NaN. The
      * count may become zero or negative, and every average then shows 0
      * (`RowAverage`). The plan itself is untouched. */
    method SetNumMonths(readOnly: bool, parsed: Option<int>)
      modifies this
      ensures Data() == old(Data())
      ensures numMonths == if readOnly then old(numMonths) else parsed.GetOr(0)
    {
      if !readOnly {
        numMonths := parsed.GetOr(0);
      }
    }

    /** `handleFieldChange('soldeInitial', parseFloat(v) || 0)`. */
    method SetSoldeInitial(readOnly: bool, input: Input)
      modifies this
      ensures numMonths == old(numMonths)
      ensures Data() == if readOnly then old(Data()) else old(Data()).(soldeInitial := NumberOrZero(input))
    {
      if !readOnly {
        soldeInitial := NumberOrZero(input);
      }
    }

    /** `handleFieldChange` on one of the justification texts. */
    method SetJustification(readOnly: bool, which: Justification, text: string)
      modifies this
      ensures numMonths == old(numMonths)
      ensures Data() == if readOnly then old(Data()) else
        match which
        case Ventes => old(Data()).(justificationVentes := text)
        case Achats => old(Data()).(justificationAchats := text)
        case AutresFlux => old(Data()).(justificationAutresFlux := text)
    {
      if readOnly {
        return;
      }
      match which {
        case Ventes => justificationVentes := text;
        case Achats => justificationAchats := text;
        case AutresFlux => justificationAutresFlux := text;
      }
    }

    /** `handleStaticRowChange`. */
    method SetStaticCell(readOnly: bool, key: StaticKey, field: CellField, input: Input)
      requires Valid() && (field.Month? ==> field.month < Months)
      modifies this
      ensures Valid() && numMonths == old(numMonths)
      ensures Data() == if readOnly then old(Data()) else old(Data()).(rows := EditStatic(old(rows), key, field, input))
    {
      if !readOnly {
        EditsKeepTwelveMonths(rows, key, field, input);
        rows := EditStatic(rows, key, field, input);
      }
    }

    /** `handleDynamicRowChange`. */
    method SetDynamicCell(readOnly: bool, s: SectionKey, index: nat, field: DynamicField, input: Input)
      requires Valid() && index < |rows.sections[s]|
      requires field.Cell? && field.field.Month? ==> field.field.month < Months
      modifies this
      ensures Valid() && numMonths == old(numMonths)
      ensures Data() == if readOnly then old(Data()) else old(Data()).(rows := EditDynamic(old(rows), s, index, field, input))
    {
      if !readOnly {
        DynamicEditsKeepTwelveMonths(rows, s, index, field, input);
        rows := EditDynamic(rows, s, index, field, input);
      }
    }

    /** `addDynamicRow`: the new row's identifier is generated from the clock
      * and a random number, taken here as `id`. */
    method AddDynamicRow(readOnly: bool, s: SectionKey, name: string, id: string)
      requires Valid()
      modifies this
      ensures Valid() && numMonths == old(numMonths)
      ensures Data() == if readOnly then old(Data()) else old(Data()).(rows := AddRowTo(old(rows), s, id, name))
    {
      if !readOnly {
        rows := AddRowTo(rows, s, id, name);
      }
    }

    /** `removeDynamicRow`. */
    method RemoveDynamicRow(readOnly: bool, s: SectionKey, index: int)
      requires Valid()
      modifies this
      ensures Valid() && numMonths == old(numMonths)
      ensures Data() == if readOnly then old(Data()) else
        old(Data()).(rows := old(rows).(sections := old(rows.sections)[s := Rows.RemoveAt(old(rows.sections[s]), index)]))
    {
      if !readOnly {
        rows := rows.(sections := rows.sections[s := Rows.RemoveAt(rows.sections[s], index)]);
      }
    }
  }
}
