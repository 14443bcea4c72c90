/** Guarantees held against the requested credits: per-row net and retained
  * values, the column totals, the total exposure and the coverage ratio. */
module Garanties {
  import opened Base
  import Rows
  import opened Records

  /** The declared shape of a guarantee row. */
  const GarantieSchema: Schema := map[
    "id" := TextField, "lignesCredit" := TextField, "garantiesDetenues" := TextField,
    "rangOuPct" := TextField, "reference" := TextField, "consistance" := TextField,
    "valeurOrigine" := NumberField, "valeurActuelleEstimee" := NumberField,
    "encoursCredit" := NumberField, "valorisationBanque" := NumberField]

  /** The row `addGarantieRow` appends (its `id` comes from the clock). */
  function NewGarantie(id: string): (r: Record)
    ensures Conforms(r, GarantieSchema)
    ensures NumOf(r, "valeurOrigine") == 0.0 && NumOf(r, "valeurActuelleEstimee") == 0.0
    ensures NumOf(r, "encoursCredit") == 0.0 && NumOf(r, "valorisationBanque") == 0.0
  {
    map["id" := Text(id), "lignesCredit" := Text(""), "garantiesDetenues" := Text(""),
        "rangOuPct" := Text(""), "reference" := Text(""), "consistance" := Text(""),
        "valeurOrigine" := Num(0.0), "valeurActuelleEstimee" := Num(0.0),
        "encoursCredit" := Num(0.0), "valorisationBanque" := Num(0.0)]
  }

  datatype ConditionRow = ConditionRow(id: string, condition: string)

  datatype GarantiesData = GarantiesData(
    tauxDeCouverture: Option<real>, tauxCouvertureMinimum: real,
    garanties: seq<Record>, conditionsSpeciales: seq<ConditionRow>, synthese: string)

  // ---------------------------------------------------------------------
  // Per-row values

  /** Estimated current value less the credit still outstanding on it; it
    * may be negative, nothing clamps it. */
  function ValeurNette(g: Record): real
  {
    NumOf(g, "valeurActuelleEstimee") - NumOf(g, "encoursCredit")
  }

  /** The net value at the bank's valuation percentage. */
  function ValeurCalculee(g: Record): real
  {
    ValeurNette(g) * (NumOf(g, "valorisationBanque") / 100.0)
  }

  /** The value retained for coverage is the calculated value itself. */
  function ValeurRetenue(g: Record): real
  {
    ValeurCalculee(g)
  }

  /** Nothing clamps a guarantee's value at zero: a pledge worth less than
    * the credit outstanding on it counts negatively. */
  lemma NetValueIsNotClamped()
    ensures var g := NewGarantie("g")["encoursCredit" := Num(100.0)]["valorisationBanque" := Num(50.0)];
      ValeurNette(g) == -100.0 && ValeurRetenue(g) == -50.0
  {
  }

  // ---------------------------------------------------------------------
  // Totals

  datatype Totals = Totals(valeurOrigine: real, valeurActuelleEstimee: real, encoursCredit: real,
                           valeurNette: real, valeurCalculeeMaxi: real, valeurGarantieRetenue: real)

  /** The `reduce` over the guarantee rows, one accumulator per column. */
  function TotalsOf(rows: seq<Record>): Totals
  {
    if rows == [] then Totals(0.0, 0.0, 0.0, 0.0, 0.0, 0.0)
    else
      var acc := TotalsOf(rows[..|rows| - 1]);
      var g := rows[|rows| - 1];
      Totals(acc.valeurOrigine + NumOf(g, "valeurOrigine"),
             acc.valeurActuelleEstimee + NumOf(g, "valeurActuelleEstimee"),
             acc.encoursCredit + NumOf(g, "encoursCredit"),
             acc.valeurNette + ValeurNette(g),
             acc.valeurCalculeeMaxi + ValeurCalculee(g),
             acc.valeurGarantieRetenue + ValeurRetenue(g))
  }

  /** Each accumulator is the column total of its own field, the net total
    * is the estimated total less the outstanding total, and the retained
    * total is the calculated total. */
  lemma {:induction false} TotalsAreColumnSums(rows: seq<Record>)
    ensures var t := TotalsOf(rows);
      t.valeurOrigine == SumField(rows, "valeurOrigine")
      && t.valeurActuelleEstimee == SumField(rows, "valeurActuelleEstimee")
      && t.encoursCredit == SumField(rows, "encoursCredit")
      && t.valeurNette == t.valeurActuelleEstimee - t.encoursCredit
      && t.valeurCalculeeMaxi == Rows.SumOf(rows, ValeurCalculee)
      && t.valeurGarantieRetenue == t.valeurCalculeeMaxi
  {
    if rows != [] {
      TotalsAreColumnSums(rows[..|rows| - 1]);
    }
  }

  /** The exposure: amounts proposed on new credits plus amounts outstanding
    * on current credits. */
  function TotalEngagements(nouveauxCredits: seq<Record>, creditsEnCours: seq<Record>): real
  {
    SumField(nouveauxCredits, "montantPropose") + SumField(creditsEnCours, "montantEncours")
  }

  datatype Calculations = Calculations(totalEngagements: real, totals: Totals, tauxCouverture: real)

  /** The page's `calculations`: totals, exposure and the coverage ratio,
    * retained value over exposure, zero when there is no exposure. */
  function Calculate(data: GarantiesData, nouveauxCredits: seq<Record>, creditsEnCours: seq<Record>): (c: Calculations)
    ensures c.totalEngagements > 0.0 ==> c.tauxCouverture * c.totalEngagements == c.totals.valeurGarantieRetenue
    ensures c.totalEngagements <= 0.0 ==> c.tauxCouverture == 0.0
  {
    var engagements := TotalEngagements(nouveauxCredits, creditsEnCours);
    var totals := TotalsOf(data.garanties);
    Calculations(engagements, totals,
                 if engagements > 0.0 then totals.valeurGarantieRetenue / engagements else 0.0)
  }

  /** `toFixed(0)` on a number: the nearest whole number, halves away from zero. */
  function RoundToWhole(x: real): (r: int)
    ensures -1.0 / 2.0 <= (r as real) - x <= 1.0 / 2.0
    ensures x >= 0.0 ==> r >= 0
  {
    if x >= 0.0 then (x + 1.0 / 2.0).Floor else -((-x + 1.0 / 2.0).Floor)
  }

  /** `displayTauxCouverture`: a rate the user typed wins; otherwise the
    * computed ratio as a whole percentage. */
  function DisplayTauxCouverture(data: GarantiesData, c: Calculations): (shown: real)
    ensures data.tauxDeCouverture.Some? ==> shown == data.tauxDeCouverture.value
    ensures data.tauxDeCouverture.None? ==> -1.0 / 2.0 <= shown - c.tauxCouverture * 100.0 <= 1.0 / 2.0
  {
    if data.tauxDeCouverture.Some? then data.tauxDeCouverture.value
    else RoundToWhole(c.tauxCouverture * 100.0) as real
  }

  /** Guarantees only raise coverage when their retained values are
    * positive: with positive exposure, adding a guarantee row raises or
    * lowers the rate by that row's retained value over the exposure. */
  lemma AddedGuaranteeMovesRate(data: GarantiesData, nouveauxCredits: seq<Record>, creditsEnCours: seq<Record>,
                                g: Record)
    requires TotalEngagements(nouveauxCredits, creditsEnCours) > 0.0
    ensures var e := TotalEngagements(nouveauxCredits, creditsEnCours);
      Calculate(data.(garanties := Rows.Append(data.garanties, g)), nouveauxCredits, creditsEnCours).tauxCouverture
        == Calculate(data, nouveauxCredits, creditsEnCours).tauxCouverture + ValeurRetenue(g) / e
  {
    var rows := Rows.Append(data.garanties, g);
    assert rows[..|rows| - 1] == data.garanties;
  }

  // ---------------------------------------------------------------------
  // Change handlers; each leaves the data as it was on a read-only page

  /** `handleGarantieChange`: a numeric field receives the parsed number (0
    * when unparsable), any other field the text. */
  function GarantieChange(data: GarantiesData, readOnly: bool, index: nat, field: string, input: Input): (r: GarantiesData)
    requires index < |data.garanties|
    ensures readOnly ==> r == data
    ensures !readOnly ==> r == data.(garanties := EditRow(data.garanties, index, field, input))
  {
    if readOnly then data else data.(garanties := EditRow(data.garanties, index, field, input))
  }

  /** `addGarantieRow`. */
  function AddGarantieRow(data: GarantiesData, readOnly: bool, id: string): (r: GarantiesData)
    ensures readOnly ==> r == data
    ensures !readOnly ==> r == data.(garanties := Rows.Append(data.garanties, NewGarantie(id)))
  {
    if readOnly then data else data.(garanties := Rows.Append(data.garanties, NewGarantie(id)))
  }

  /** `removeGarantieRow`. */
  function RemoveGarantieRow(data: GarantiesData, readOnly: bool, index: int): (r: GarantiesData)
    ensures readOnly ==> r == data
    ensures !readOnly ==> r == data.(garanties := Rows.RemoveAt(data.garanties, index))
  {
    if readOnly then data else data.(garanties := Rows.RemoveAt(data.garanties, index))
  }

  /** The guarantee table keeps its declared shape under every handler, and
    * a freshly added row leaves every total unchanged. */
  lemma GarantieHandlersKeepShape(data: GarantiesData, readOnly: bool, index: nat, field: string,
                                  input: Input, id: string, removed: int)
    requires AllConform(data.garanties, GarantieSchema) && index < |data.garanties|
    requires field in GarantieSchema
    ensures AllConform(GarantieChange(data, readOnly, index, field, input).garanties, GarantieSchema)
    ensures AllConform(AddGarantieRow(data, readOnly, id).garanties, GarantieSchema)
    ensures AllConform(RemoveGarantieRow(data, readOnly, removed).garanties, GarantieSchema)
    ensures TotalsOf(AddGarantieRow(data, readOnly, id).garanties) == TotalsOf(data.garanties)
  {
    var rows := data.garanties;
    assert GarantieSchema[field] != FlagField;
    EditRowConforms(rows, GarantieSchema, index, field, input);
    NewRowKeepsShapeAndTotals(rows, id);
  }

  lemma NewRowKeepsShapeAndTotals(rows: seq<Record>, id: string)
    requires AllConform(rows, GarantieSchema)
    ensures AllConform(Rows.Append(rows, NewGarantie(id)), GarantieSchema)
    ensures TotalsOf(Rows.Append(rows, NewGarantie(id))) == TotalsOf(rows)
  {
    var added := Rows.Append(rows, NewGarantie(id));
    assert forall j :: 0 <= j < |rows| ==> added[j] == rows[j];
    assert added[..|added| - 1] == rows;
  }

  /** Removing a guarantee row takes exactly its own values out of the totals. */
  lemma {:induction false} RemovedGuaranteeLeavesTotals(rows: seq<Record>, index: int)
    requires 0 <= index < |rows|
    ensures var t, t' := TotalsOf(rows), TotalsOf(Rows.RemoveAt(rows, index));
      t'.valeurNette == t.valeurNette - ValeurNette(rows[index])
      && t'.valeurGarantieRetenue == t.valeurGarantieRetenue - ValeurRetenue(rows[index])
  {
    var rows' := Rows.RemoveAt(rows, index);
    TotalsAreColumnSums(rows);
    TotalsAreColumnSums(rows');
    SumFieldAfterOperations(rows, NewGarantie(""), "", 0, "valeurActuelleEstimee", "id", Input("", None), index);
    SumFieldAfterOperations(rows, NewGarantie(""), "", 0, "encoursCredit", "id", Input("", None), index);
    Rows.SumOfRemoveAt(rows, index, ValeurCalculee);
  }

  /** `handleConditionChange`. */
  function ConditionChange(data: GarantiesData, readOnly: bool, index: nat, value: string): (r: GarantiesData)
    requires index < |data.conditionsSpeciales|
    ensures readOnly ==> r == data
    ensures !readOnly ==> |r.conditionsSpeciales| == |data.conditionsSpeciales|
    ensures !readOnly ==> r.conditionsSpeciales[index] == data.conditionsSpeciales[index].(condition := value)
    ensures !readOnly ==> forall j :: 0 <= j < |data.conditionsSpeciales| && j != index ==>
      r.conditionsSpeciales[j] == data.conditionsSpeciales[j]
    ensures r == data.(conditionsSpeciales := r.conditionsSpeciales)
  {
    if readOnly then data
    else
      data.(conditionsSpeciales := Rows.UpdateAt(data.conditionsSpeciales, index,
                                                  data.conditionsSpeciales[index].(condition := value)))
  }

  /** `addConditionRow`. */
  function AddConditionRow(data: GarantiesData, readOnly: bool, id: string): (r: GarantiesData)
    ensures readOnly ==> r == data
    ensures !readOnly ==> r == data.(conditionsSpeciales := Rows.Append(data.conditionsSpeciales, ConditionRow(id, "")))
  {
    if readOnly then data else data.(conditionsSpeciales := Rows.Append(data.conditionsSpeciales, ConditionRow(id, "")))
  }

  /** `removeConditionRow`. */
  function RemoveConditionRow(data: GarantiesData, readOnly: bool, index: int): (r: GarantiesData)
    ensures readOnly ==> r == data
    ensures !readOnly ==> r == data.(conditionsSpeciales := Rows.RemoveAt(data.conditionsSpeciales, index))
  {
    if readOnly then data else data.(conditionsSpeciales := Rows.RemoveAt(data.conditionsSpeciales, index))
  }

  /** The fields `handleFieldChange` is called with. */
  datatype GarantiesField = TauxDeCouverture | TauxCouvertureMinimum | Synthese

  /** `handleFieldChange`: the two rates take the parsed number (0 when
    * unparsable), the summary takes the text. */
  function FieldChange(data: GarantiesData, readOnly: bool, field: GarantiesField, input: Input): (r: GarantiesData)
    ensures readOnly ==> r == data
    ensures !readOnly && field == TauxDeCouverture ==> r == data.(tauxDeCouverture := Some(NumberOrZero(input)))
    ensures !readOnly && field == TauxCouvertureMinimum ==> r == data.(tauxCouvertureMinimum := NumberOrZero(input))
    ensures !readOnly && field == Synthese ==> r == data.(synthese := input.text)
  {
    if readOnly then data
    else
      match field
      case TauxDeCouverture => data.(tauxDeCouverture := Some(NumberOrZero(input)))
      case TauxCouvertureMinimum => data.(tauxCouvertureMinimum := NumberOrZero(input))
      case Synthese => data.(synthese := input.text)
  }

  /** Once a rate has been typed in, the page shows it instead of the
    * computed one, whatever the guarantees; the minimum rate enters neither. */
  lemma TypedRateOverridesComputed(data: GarantiesData, input: Input, c: Calculations, minimum: Input)
    ensures var d := FieldChange(data, false, TauxDeCouverture, input);
      DisplayTauxCouverture(d, c) == NumberOrZero(input)
    ensures var d := FieldChange(data, false, TauxCouvertureMinimum, minimum);
      DisplayTauxCouverture(d, c) == DisplayTauxCouverture(data, c)
  {
  }
}
