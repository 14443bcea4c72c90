/** The optional worksheets that back up the cash-flow plan: sales lines,
  * purchase lines and trading margins, each an editable table with totals. */
module CalculsOptionnels {
  import opened Base
  import Rows
  import opened Records

  datatype TableKey = Ventes | Achats | Marges

  const VenteSchema: Schema := map[
    "id" := TextField, "nomProduit" := TextField, "quantite" := NumberField,
    "prixVenteUnitaire" := NumberField, "tva" := NumberField]

  const AchatSchema: Schema := map[
    "id" := TextField, "nomProduit" := TextField, "quantite" := NumberField,
    "prixAchatUnitaire" := NumberField, "tva" := NumberField, "fournisseur" := TextField]

  const MargeSchema: Schema := map[
    "id" := TextField, "nomProduit" := TextField, "quantite" := NumberField,
    "prixAchatUnitaire" := NumberField, "prixVenteUnitaire" := NumberField]

  function SchemaOf(k: TableKey): Schema
  {
    match k
    case Ventes => VenteSchema
    case Achats => AchatSchema
    case Marges => MargeSchema
  }

  datatype Tables = Tables(ventes: seq<Record>, achats: seq<Record>, marges: seq<Record>)
  {
    function Get(k: TableKey): seq<Record>
    {
      match k
      case Ventes => ventes
      case Achats => achats
      case Marges => marges
    }

    function With(k: TableKey, rows: seq<Record>): (t: Tables)
      ensures t.Get(k) == rows && forall k' :: k' != k ==> t.Get(k') == Get(k')
    {
      match k
      case Ventes => this.(ventes := rows)
      case Achats => this.(achats := rows)
      case Marges => this.(marges := rows)
    }
  }

  /** The row `addRow` appends: empty text, zero numbers, and a VAT rate of
    * 18 % on sales and purchase lines. */
  function NewRow(k: TableKey, id: string): (r: Record)
    ensures Conforms(r, SchemaOf(k)) && r["id"] == Text(id)
    ensures NumOf(r, "quantite") == 0.0
    ensures k != Marges ==> NumOf(r, "tva") == 18.0
  {
    match k
    case Ventes => NewVente(id)
    case Achats => NewAchat(id)
    case Marges => NewMarge(id)
  }

  function NewVente(id: string): (r: Record)
    ensures Conforms(r, VenteSchema) && r["id"] == Text(id)
    ensures NumOf(r, "quantite") == 0.0 && NumOf(r, "tva") == 18.0
  {
    map["id" := Text(id), "nomProduit" := Text(""), "quantite" := Num(0.0),
        "prixVenteUnitaire" := Num(0.0), "tva" := Num(18.0)]
  }

  function NewAchat(id: string): (r: Record)
    ensures Conforms(r, AchatSchema) && r["id"] == Text(id)
    ensures NumOf(r, "quantite") == 0.0 && NumOf(r, "tva") == 18.0
  {
    map["id" := Text(id), "nomProduit" := Text(""), "quantite" := Num(0.0),
        "prixAchatUnitaire" := Num(0.0), "tva" := Num(18.0), "fournisseur" := Text("")]
  }

  function NewMarge(id: string): (r: Record)
    ensures Conforms(r, MargeSchema) && r["id"] == Text(id)
    ensures NumOf(r, "quantite") == 0.0
  {
    map["id" := Text(id), "nomProduit" := Text(""), "quantite" := Num(0.0),
        "prixAchatUnitaire" := Num(0.0), "prixVenteUnitaire" := Num(0.0)]
  }

  // ---------------------------------------------------------------------
  // Change handlers; each leaves the tables as they were on a read-only page

  /** `handleTableChange`. */
  function TableChange(t: Tables, readOnly: bool, k: TableKey, index: nat, field: string, input: Input): (r: Tables)
    requires index < |t.Get(k)|
    ensures readOnly ==> r == t
    ensures !readOnly ==> r == t.With(k, EditRow(t.Get(k), index, field, input))
  {
    if readOnly then t else t.With(k, EditRow(t.Get(k), index, field, input))
  }

  /** `addRow`. */
  function AddRow(t: Tables, readOnly: bool, k: TableKey, id: string): (r: Tables)
    ensures readOnly ==> r == t
    ensures !readOnly ==> r == t.With(k, Rows.Append(t.Get(k), NewRow(k, id)))
  {
    if readOnly then t else t.With(k, Rows.Append(t.Get(k), NewRow(k, id)))
  }

  /** `removeRow`. */
  function RemoveRow(t: Tables, readOnly: bool, k: TableKey, index: int): (r: Tables)
    ensures readOnly ==> r == t
    ensures !readOnly ==> r == t.With(k, Rows.RemoveAt(t.Get(k), index))
  {
    if readOnly then t else t.With(k, Rows.RemoveAt(t.Get(k), index))
  }

  predicate WellFormed(t: Tables)
  {
    forall k :: AllConform(t.Get(k), SchemaOf(k))
  }

  /** Every handler keeps each table in the shape its rows declare. */
  lemma HandlersKeepShape(t: Tables, readOnly: bool, k: TableKey, index: nat, field: string,
                          input: Input, id: string, removed: int)
    requires WellFormed(t) && index < |t.Get(k)| && field in SchemaOf(k)
    ensures WellFormed(TableChange(t, readOnly, k, index, field, input))
    ensures WellFormed(AddRow(t, readOnly, k, id))
    ensures WellFormed(RemoveRow(t, readOnly, k, removed))
  {
    EditKeepsShape(t, k, index, field, input);
    AddKeepsShape(t, k, id);
    RemoveKeepsShape(t, k, removed);
  }

  lemma EditKeepsShape(t: Tables, k: TableKey, index: nat, field: string, input: Input)
    requires WellFormed(t) && index < |t.Get(k)| && field in SchemaOf(k)
    ensures WellFormed(t.With(k, EditRow(t.Get(k), index, field, input)))
  {
    var rows, schema := t.Get(k), SchemaOf(k);
    SchemaHasNoFlag(k);
    var e := EditRow(rows, index, field, input);
    SetFieldConforms(rows[index], field, input, schema);
    assert forall j :: 0 <= j < |e| ==> Conforms(e[j], schema);
    WithKeepsShape(t, k, e);
  }

  lemma AddKeepsShape(t: Tables, k: TableKey, id: string)
    requires WellFormed(t)
    ensures WellFormed(t.With(k, Rows.Append(t.Get(k), NewRow(k, id))))
  {
    var rows := t.Get(k);
    var added := Rows.Append(rows, NewRow(k, id));
    assert forall j :: 0 <= j < |rows| ==> added[j] == rows[j];
    WithKeepsShape(t, k, added);
  }

  lemma RemoveKeepsShape(t: Tables, k: TableKey, removed: int)
    requires WellFormed(t)
    ensures WellFormed(t.With(k, Rows.RemoveAt(t.Get(k), removed)))
  {
    WithKeepsShape(t, k, Rows.RemoveAt(t.Get(k), removed));
  }

  /** Every table declares a text `id` and no boolean field. */
  lemma SchemaHasNoFlag(k: TableKey)
    ensures "id" in SchemaOf(k) && SchemaOf(k)["id"] == TextField
    ensures forall f :: f in SchemaOf(k) ==> SchemaOf(k)[f] != FlagField
  {
  }

  /** Replacing one table by conforming rows keeps all three well formed. */
  lemma WithKeepsShape(t: Tables, k: TableKey, rows: seq<Record>)
    requires WellFormed(t) && AllConform(rows, SchemaOf(k))
    ensures WellFormed(t.With(k, rows))
  {
    forall k' ensures AllConform(t.With(k, rows).Get(k'), SchemaOf(k')) {
      if k' != k {
        assert t.With(k, rows).Get(k') == t.Get(k');
      }
    }
  }

  // ---------------------------------------------------------------------
  // Line values

  /** Price including VAT. */
  function WithTva(ht: real, tva: real): real
  {
    ht * (1.0 + tva / 100.0)
  }

  function VenteHT(r: Record): real
  {
    NumOf(r, "quantite") * NumOf(r, "prixVenteUnitaire")
  }

  function VenteTTC(r: Record): real
  {
    WithTva(VenteHT(r), NumOf(r, "tva"))
  }

  function AchatHT(r: Record): real
  {
    NumOf(r, "quantite") * NumOf(r, "prixAchatUnitaire")
  }

  function AchatTTC(r: Record): real
  {
    WithTva(AchatHT(r), NumOf(r, "tva"))
  }

  /** A margin line's purchases, sales and margin, all before tax. */
  function MargeAchatsHT(r: Record): real
  {
    NumOf(r, "quantite") * NumOf(r, "prixAchatUnitaire")
  }

  function MargeVentesHT(r: Record): real
  {
    NumOf(r, "quantite") * NumOf(r, "prixVenteUnitaire")
  }

  function MargeTotale(r: Record): real
  {
    MargeVentesHT(r) - MargeAchatsHT(r)
  }

  /** The line's margin is its quantity times the unit margin. */
  lemma MargeTotaleIsUnitMarginTimesQuantity(r: Record)
    ensures MargeTotale(r) == NumOf(r, "quantite") * MargeUnitaire(r)
  {
  }

  function MargeUnitaire(r: Record): real
  {
    NumOf(r, "prixVenteUnitaire") - NumOf(r, "prixAchatUnitaire")
  }

  /** Unit margin as a percentage of the unit sale price; 0 when that price
    * is not positive. */
  function PctMargeUnitaire(r: Record): (p: real)
    ensures NumOf(r, "prixVenteUnitaire") > 0.0 ==> p * NumOf(r, "prixVenteUnitaire") == MargeUnitaire(r) * 100.0
    ensures NumOf(r, "prixVenteUnitaire") <= 0.0 ==> p == 0.0
  {
    var pv := NumOf(r, "prixVenteUnitaire");
    if pv > 0.0 then (MargeUnitaire(r) / pv) * 100.0 else 0.0
  }

  /** Line margin as a percentage of line sales; 0 when sales are not
    * positive. */
  function PctMargePonderee(r: Record): (p: real)
    ensures MargeVentesHT(r) > 0.0 ==> p * MargeVentesHT(r) == MargeTotale(r) * 100.0
    ensures MargeVentesHT(r) <= 0.0 ==> p == 0.0
  {
    var v := MargeVentesHT(r);
    if v > 0.0 then (MargeTotale(r) / v) * 100.0 else 0.0
  }

  /** With a positive quantity both percentages agree: weighting by
    * quantity changes nothing on a single line. */
  lemma LinePercentagesAgree(r: Record)
    requires NumOf(r, "quantite") > 0.0 && NumOf(r, "prixVenteUnitaire") > 0.0
    ensures PctMargePonderee(r) == PctMargeUnitaire(r)
  {
    var q, pv := NumOf(r, "quantite"), NumOf(r, "prixVenteUnitaire");
    assert MargeVentesHT(r) == q * pv;
    assert MargeTotale(r) == q * MargeUnitaire(r);
    assert q * pv > 0.0;
    calc {
      PctMargePonderee(r);
      (q * MargeUnitaire(r)) / (q * pv) * 100.0;
      { CancelFactor(q, MargeUnitaire(r), pv); }
      MargeUnitaire(r) / pv * 100.0;
    }
  }

  lemma CancelFactor(q: real, a: real, b: real)
    requires q > 0.0 && b > 0.0
    ensures (q * a) / (q * b) == a / b
  {
  }

  // ---------------------------------------------------------------------
  // Totals

  datatype TaxTotals = TaxTotals(totalHT: real, totalTTC: real)

  datatype MargeTotals = MargeTotals(achatsTotaux: real, ventesTotales: real, margeTotale: real)

  /** The sales `reduce`: both accumulators, line by line. */
  function VentesTotals(rows: seq<Record>): TaxTotals
  {
    if rows == [] then TaxTotals(0.0, 0.0)
    else
      var acc := VentesTotals(rows[..|rows| - 1]);
      var ht := VenteHT(rows[|rows| - 1]);
      TaxTotals(acc.totalHT + ht, acc.totalTTC + WithTva(ht, NumOf(rows[|rows| - 1], "tva")))
  }

  /** The purchases `reduce`. */
  function AchatsTotals(rows: seq<Record>): TaxTotals
  {
    if rows == [] then TaxTotals(0.0, 0.0)
    else
      var acc := AchatsTotals(rows[..|rows| - 1]);
      var ht := AchatHT(rows[|rows| - 1]);
      TaxTotals(acc.totalHT + ht, acc.totalTTC + WithTva(ht, NumOf(rows[|rows| - 1], "tva")))
  }

  /** The margins `reduce`. */
  function MargesTotals(rows: seq<Record>): MargeTotals
  {
    if rows == [] then MargeTotals(0.0, 0.0, 0.0)
    else
      var acc := MargesTotals(rows[..|rows| - 1]);
      var r := rows[|rows| - 1];
      MargeTotals(acc.achatsTotaux + MargeAchatsHT(r), acc.ventesTotales + MargeVentesHT(r),
                  acc.margeTotale + MargeTotale(r))
  }

  /** Each accumulator is the column total of its line value, and the
    * total margin is total sales less total purchases. */
  lemma {:induction false} TotalsAreColumnSums(ventes: seq<Record>, achats: seq<Record>, marges: seq<Record>)
    ensures VentesTotals(ventes) == TaxTotals(Rows.SumOf(ventes, VenteHT), Rows.SumOf(ventes, VenteTTC))
    ensures AchatsTotals(achats) == TaxTotals(Rows.SumOf(achats, AchatHT), Rows.SumOf(achats, AchatTTC))
    ensures MargesTotals(marges).achatsTotaux == Rows.SumOf(marges, MargeAchatsHT)
    ensures MargesTotals(marges).ventesTotales == Rows.SumOf(marges, MargeVentesHT)
    ensures MargesTotals(marges).margeTotale == Rows.SumOf(marges, MargeTotale)
    ensures MargesTotals(marges).margeTotale
            == MargesTotals(marges).ventesTotales - MargesTotals(marges).achatsTotaux
    decreases |ventes| + |achats| + |marges|
  {
    if ventes != [] {
      TotalsAreColumnSums(ventes[..|ventes| - 1], [], []);
    }
    if achats != [] {
      TotalsAreColumnSums([], achats[..|achats| - 1], []);
    }
    if marges != [] {
      TotalsAreColumnSums([], [], marges[..|marges| - 1]);
    }
  }

  /** When every sales line carries the same VAT rate, the total including
    * VAT is the total before tax at that rate. */
  lemma {:induction false} UniformRateTotals(rows: seq<Record>, tva: real)
    requires forall j :: 0 <= j < |rows| ==> NumOf(rows[j], "tva") == tva
    ensures VentesTotals(rows).totalTTC == WithTva(VentesTotals(rows).totalHT, tva)
  {
    if rows != [] {
      UniformRateTotals(rows[..|rows| - 1], tva);
      var acc := VentesTotals(rows[..|rows| - 1]);
      var ht := VenteHT(rows[|rows| - 1]);
      assert WithTva(acc.totalHT, tva) + WithTva(ht, tva) == WithTva(acc.totalHT + ht, tva);
    }
  }

  /** Average margin rate: total margin over total sales, in percent; 0
    * when there are no positive sales. */
  function MargeMoyenne(t: MargeTotals): (p: real)
    ensures t.ventesTotales > 0.0 ==> p * t.ventesTotales == t.margeTotale * 100.0
    ensures t.ventesTotales <= 0.0 ==> p == 0.0
  {
    if t.ventesTotales > 0.0 then (t.margeTotale / t.ventesTotales) * 100.0 else 0.0
  }

  /** When nothing is sold below its purchase price and sales are
    * positive, the average margin rate lies between 0 and 100 %. */
  lemma {:induction false} MargeMoyenneBounds(rows: seq<Record>)
    requires forall j :: 0 <= j < |rows| ==> MargeAchatsHT(rows[j]) >= 0.0 && MargeTotale(rows[j]) >= 0.0
    requires MargesTotals(rows).ventesTotales > 0.0
    ensures 0.0 <= MargeMoyenne(MargesTotals(rows)) <= 100.0
  {
    TotalsAreColumnSums([], [], rows);
    var t := MargesTotals(rows);
    Rows.SumOfNonNegative(rows, MargeAchatsHT);
    Rows.SumOfNonNegative(rows, MargeTotale);
    RateBounds(t.margeTotale, t.ventesTotales, t.achatsTotaux);
  }

  lemma RateBounds(m: real, v: real, a: real)
    requires v > 0.0 && m >= 0.0 && a >= 0.0 && m == v - a
    ensures 0.0 <= (m / v) * 100.0 <= 100.0
  {
    assert m / v <= 1.0;
  }

  /** A freshly added line adds nothing to any total. */
  lemma NewLinesAddNothing(t: Tables, id: string)
    ensures VentesTotals(AddRow(t, false, Ventes, id).ventes) == VentesTotals(t.ventes)
    ensures AchatsTotals(AddRow(t, false, Achats, id).achats) == AchatsTotals(t.achats)
    ensures MargesTotals(AddRow(t, false, Marges, id).marges) == MargesTotals(t.marges)
  {
    NewSaleAddsNothing(t, id);
    NewPurchaseAddsNothing(t, id);
    NewMarginAddsNothing(t, id);
  }

  lemma NewSaleAddsNothing(t: Tables, id: string)
    ensures VentesTotals(AddRow(t, false, Ventes, id).ventes) == VentesTotals(t.ventes)
  {
    var v := AddRow(t, false, Ventes, id).ventes;
    assert v[..|v| - 1] == t.ventes;
  }

  lemma NewPurchaseAddsNothing(t: Tables, id: string)
    ensures AchatsTotals(AddRow(t, false, Achats, id).achats) == AchatsTotals(t.achats)
  {
    var a := AddRow(t, false, Achats, id).achats;
    assert a[..|a| - 1] == t.achats;
  }

  lemma NewMarginAddsNothing(t: Tables, id: string)
    ensures MargesTotals(AddRow(t, false, Marges, id).marges) == MargesTotals(t.marges)
  {
    var m := AddRow(t, false, Marges, id).marges;
    assert m[..|m| - 1] == t.marges;
  }
}
