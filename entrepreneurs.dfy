/** The entrepreneurs page: the two entrepreneurs of a dossier, each with
  * identity fields and personal bank relations, and the three tables shared
  * by both (credit history, other businesses, personal assets). */
module Entrepreneurs {
  import opened Base
  import Rows
  import opened Records

  /** One entrepreneur: the fields edited by name, and the bank relations. */
  datatype Entrepreneur = Entrepreneur(fields: Record, relationsBancaires: seq<Record>)

  /** A dossier always holds exactly two entrepreneurs. */
  predicate IsPair(es: seq<Entrepreneur>)
  {
    |es| == 2
  }

  /** Replacing entrepreneur `index`, the other one kept. */
  function Replace(es: seq<Entrepreneur>, index: nat, e: Entrepreneur): (r: seq<Entrepreneur>)
    requires index < |es|
    ensures |r| == |es| && r[index] == e
    ensures forall j :: 0 <= j < |es| && j != index ==> r[j] == es[j]
  {
    Rows.UpdateAt(es, index, e)
  }

  /** `handleEntrepreneurChange`: the value is stored as given (the page
    * passes text, and a parsed integer for the number of dependants). */
  function EntrepreneurChange(es: seq<Entrepreneur>, readOnly: bool, index: nat, field: string, value: Value): (r: seq<Entrepreneur>)
    requires index < |es|
    ensures readOnly ==> r == es
    ensures !readOnly ==> r == Replace(es, index, es[index].(fields := es[index].fields[field := value]))
  {
    if readOnly then es else Replace(es, index, es[index].(fields := es[index].fields[field := value]))
  }

  const RelationSchema: Schema := map[
    "id" := TextField, "banque" := TextField, "numeroCompte" := TextField, "ouvertureCompte" := TextField,
    "solde" := NumberField, "mouvementsN1" := NumberField, "mouvementsN" := NumberField, "incidents" := NumberField]

  /** The relation `addRelationBancaire` appends: empty text, zero amounts. */
  function NewRelation(id: string): (r: Record)
    ensures Conforms(r, RelationSchema) && r["id"] == Text(id)
    ensures forall f :: f in r && r[f].Num? ==> r[f].n == 0.0
  {
    map["id" := Text(id), "banque" := Text(""), "numeroCompte" := Text(""), "ouvertureCompte" := Text(""),
        "solde" := Num(0.0), "mouvementsN1" := Num(0.0), "mouvementsN" := Num(0.0), "incidents" := Num(0.0)]
  }

  function WithRelations(es: seq<Entrepreneur>, entIndex: nat, rels: seq<Record>): (r: seq<Entrepreneur>)
    requires entIndex < |es|
    ensures |r| == |es| && r[entIndex] == es[entIndex].(relationsBancaires := rels)
    ensures forall j :: 0 <= j < |es| && j != entIndex ==> r[j] == es[j]
  {
    Replace(es, entIndex, es[entIndex].(relationsBancaires := rels))
  }

  /** `handleRelationsBancairesChange`: a numeric cell receives the parsed
    * number (0 when unparsable), a text cell the text. */
  function RelationChange(es: seq<Entrepreneur>, readOnly: bool, entIndex: nat, relIndex: nat, field: string, input: Input): (r: seq<Entrepreneur>)
    requires entIndex < |es| && relIndex < |es[entIndex].relationsBancaires|
    ensures readOnly ==> r == es
    ensures !readOnly ==> r == WithRelations(es, entIndex, EditRow(es[entIndex].relationsBancaires, relIndex, field, input))
  {
    if readOnly then es
    else WithRelations(es, entIndex, EditRow(es[entIndex].relationsBancaires, relIndex, field, input))
  }

  /** `addRelationBancaire`. */
  function AddRelation(es: seq<Entrepreneur>, readOnly: bool, entIndex: nat, id: string): (r: seq<Entrepreneur>)
    requires entIndex < |es|
    ensures readOnly ==> r == es
    ensures !readOnly ==> r == WithRelations(es, entIndex, Rows.Append(es[entIndex].relationsBancaires, NewRelation(id)))
  {
    if readOnly then es
    else WithRelations(es, entIndex, Rows.Append(es[entIndex].relationsBancaires, NewRelation(id)))
  }

  /** `removeRelationBancaire`. */
  function RemoveRelation(es: seq<Entrepreneur>, readOnly: bool, entIndex: nat, relIndex: int): (r: seq<Entrepreneur>)
    requires entIndex < |es|
    ensures readOnly ==> r == es
    ensures !readOnly ==> r == WithRelations(es, entIndex, Rows.RemoveAt(es[entIndex].relationsBancaires, relIndex))
  {
    if readOnly then es
    else WithRelations(es, entIndex, Rows.RemoveAt(es[entIndex].relationsBancaires, relIndex))
  }

  /** Every entrepreneur handler keeps the pair a pair, leaves the other
    * entrepreneur as it was, and keeps the edited one's relations in their
    * declared shape. */
  lemma PairHandlersKeepPair(es: seq<Entrepreneur>, readOnly: bool, entIndex: nat, relIndex: nat,
                             field: string, value: Value, input: Input, id: string, removed: int)
    requires IsPair(es) && entIndex < 2 && relIndex < |es[entIndex].relationsBancaires|
    requires AllConform(es[entIndex].relationsBancaires, RelationSchema) && field in RelationSchema
    ensures var r := EntrepreneurChange(es, readOnly, entIndex, field, value);
      IsPair(r) && r[1 - entIndex] == es[1 - entIndex]
    ensures var r := RelationChange(es, readOnly, entIndex, relIndex, field, input);
      IsPair(r) && r[1 - entIndex] == es[1 - entIndex] && AllConform(r[entIndex].relationsBancaires, RelationSchema)
    ensures var r := AddRelation(es, readOnly, entIndex, id);
      IsPair(r) && r[1 - entIndex] == es[1 - entIndex] && AllConform(r[entIndex].relationsBancaires, RelationSchema)
    ensures var r := RemoveRelation(es, readOnly, entIndex, removed);
      IsPair(r) && r[1 - entIndex] == es[1 - entIndex] && AllConform(r[entIndex].relationsBancaires, RelationSchema)
  {
    var rels := es[entIndex].relationsBancaires;
    TableOperationsConform(rels, RelationSchema, NewRelation(id), id, relIndex, field, input, removed);
    assert NewRelation(id)["id" := Text(id)] == NewRelation(id);
  }

  // ---------------------------------------------------------------------
  // Bank-relation totals

  datatype RelationTotals = RelationTotals(solde: real, mouvementsN1: real, mouvementsN: real, incidents: real)

  /** The four column totals shown under one entrepreneur's relations. */
  function TotalsOf(e: Entrepreneur): RelationTotals
  {
    var rels := e.relationsBancaires;
    RelationTotals(SumField(rels, "solde"), SumField(rels, "mouvementsN1"),
                   SumField(rels, "mouvementsN"), SumField(rels, "incidents"))
  }

  /** A new relation adds nothing to its entrepreneur's totals; a removed
    * one takes out its own amounts; the other entrepreneur's totals never
    * move. */
  lemma TotalsFollowTheRelations(es: seq<Entrepreneur>, entIndex: nat, id: string, removed: int, column: string)
    requires IsPair(es) && entIndex < 2
    requires column in ["solde", "mouvementsN1", "mouvementsN", "incidents"]
    ensures TotalsOf(AddRelation(es, false, entIndex, id)[entIndex]) == TotalsOf(es[entIndex])
    ensures var rels := es[entIndex].relationsBancaires;
      SumField(RemoveRelation(es, false, entIndex, removed)[entIndex].relationsBancaires, column)
        == if 0 <= removed < |rels| then SumField(rels, column) - NumOf(rels[removed], column)
           else SumField(rels, column)
    ensures TotalsOf(AddRelation(es, false, entIndex, id)[1 - entIndex]) == TotalsOf(es[1 - entIndex])
    ensures TotalsOf(RemoveRelation(es, false, entIndex, removed)[1 - entIndex]) == TotalsOf(es[1 - entIndex])
  {
    var rels := es[entIndex].relationsBancaires;
    var added := Rows.Append(rels, NewRelation(id));
    assert added[..|added| - 1] == rels;
    Rows.SumOfRemoveAt(rels, removed, (r: Record) => NumOf(r, column));
  }

  // ---------------------------------------------------------------------
  // The tables shared by both entrepreneurs

  datatype Table = HistoriqueCredits | AutresAffaires | SurfacePatrimoniale

  datatype Tables = Tables(historiqueCredits: seq<Record>, autresAffaires: seq<Record>,
                           surfacePatrimoniale: seq<Record>)
  {
    function Get(t: Table): seq<Record>
    {
      match t
      case HistoriqueCredits => historiqueCredits
      case AutresAffaires => autresAffaires
      case SurfacePatrimoniale => surfacePatrimoniale
    }

    function With(t: Table, rows: seq<Record>): (r: Tables)
      ensures r.Get(t) == rows && forall t' :: t' != t ==> r.Get(t') == Get(t')
    {
      match t
      case HistoriqueCredits => this.(historiqueCredits := rows)
      case AutresAffaires => this.(autresAffaires := rows)
      case SurfacePatrimoniale => this.(surfacePatrimoniale := rows)
    }
  }

  const HistoriqueCreditSchema: Schema := map[
    "id" := TextField, "nomEntrepreneur" := TextField, "banque" := TextField, "dateOctroi" := TextField,
    "objetType" := TextField, "montant" := NumberField, "dureeMois" := NumberField,
    "mtEcheance" := NumberField, "encours" := NumberField, "impayes" := NumberField,
    "renseignements" := TextField]

  const AutreAffaireSchema: Schema := map[
    "id" := TextField, "denomination" := TextField, "capital" := NumberField,
    "partEntrepreneur" := NumberField, "nomPrenom" := TextField, "activite" := TextField,
    "chiffreAffaires" := NumberField, "banque" := TextField]

  const SurfaceSchema: Schema := map[
    "id" := TextField, "entrepreneur" := TextField, "part" := NumberField, "bien" := TextField,
    "reference" := TextField, "consistance" := TextField, "valVenale" := NumberField,
    "capitalRestantDu" := NumberField]

  function SchemaOf(t: Table): Schema
  {
    match t
    case HistoriqueCredits => HistoriqueCreditSchema
    case AutresAffaires => AutreAffaireSchema
    case SurfacePatrimoniale => SurfaceSchema
  }

  /** The row each table's add button appends, before it receives its
    * `id`; a new asset is a flat. */
  function Template(t: Table): (r: Record)
    ensures "id" !in r && FitsTemplate(r, SchemaOf(t))
    ensures forall f :: f in r && r[f].Num? ==> r[f].n == 0.0
  {
    match t
    case HistoriqueCredits => BlankRow(HistoriqueCreditSchema)
    case AutresAffaires => BlankRow(AutreAffaireSchema)
    case SurfacePatrimoniale => BlankRow(SurfaceSchema)["bien" := Text("Appartement")]
  }

  /** `handleNestedChange`. */
  function NestedChange(ts: Tables, readOnly: bool, t: Table, index: nat, field: string, input: Input): (r: Tables)
    requires index < |ts.Get(t)|
    ensures readOnly ==> r == ts
    ensures !readOnly ==> r == ts.With(t, EditRow(ts.Get(t), index, field, input))
  {
    if readOnly then ts else ts.With(t, EditRow(ts.Get(t), index, field, input))
  }

  /** `addRow`. */
  function AddEntry(ts: Tables, readOnly: bool, t: Table, id: string): (r: Tables)
    ensures readOnly ==> r == ts
    ensures !readOnly ==> r == ts.With(t, AddRow(ts.Get(t), Template(t), id))
  {
    if readOnly then ts else ts.With(t, AddRow(ts.Get(t), Template(t), id))
  }

  /** `removeRow`. */
  function RemoveEntry(ts: Tables, readOnly: bool, t: Table, index: int): (r: Tables)
    ensures readOnly ==> r == ts
    ensures !readOnly ==> r == ts.With(t, Rows.RemoveAt(ts.Get(t), index))
  {
    if readOnly then ts else ts.With(t, Rows.RemoveAt(ts.Get(t), index))
  }

  lemma NewRowConforms(t: Table, id: string)
    ensures Conforms(Template(t)["id" := Text(id)], SchemaOf(t))
  {
    SchemaHasNoFlag(t);
  }

  /** Every table declares a text `id` and no boolean field. */
  lemma SchemaHasNoFlag(t: Table)
    ensures "id" in SchemaOf(t) && SchemaOf(t)["id"] == TextField
    ensures forall f :: f in SchemaOf(t) ==> SchemaOf(t)[f] != FlagField
  {
  }

  lemma TableOperationsKeepShape(rows: seq<Record>, t: Table, index: nat, field: string,
                                 input: Input, id: string, removed: int)
    requires AllConform(rows, SchemaOf(t)) && index < |rows| && field in SchemaOf(t)
    ensures AllConform(EditRow(rows, index, field, input), SchemaOf(t))
    ensures AllConform(AddRow(rows, Template(t), id), SchemaOf(t))
    ensures AllConform(Rows.RemoveAt(rows, removed), SchemaOf(t))
  {
    SchemaHasNoFlag(t);
    TableOperationsConform(rows, SchemaOf(t), Template(t), id, index, field, input, removed);
  }

  predicate WellFormed(ts: Tables)
  {
    forall t :: AllConform(ts.Get(t), SchemaOf(t))
  }

  /** Replacing one table by conforming rows keeps every table well formed. */
  lemma WithKeepsShape(ts: Tables, t: Table, rows: seq<Record>)
    requires WellFormed(ts) && AllConform(rows, SchemaOf(t))
    ensures WellFormed(ts.With(t, rows))
  {
    forall t' ensures AllConform(ts.With(t, rows).Get(t'), SchemaOf(t')) {
      if t' != t {
        assert ts.With(t, rows).Get(t') == ts.Get(t');
      }
    }
  }

  /** Every table handler keeps the three tables in their declared shape. */
  lemma HandlersKeepShape(ts: Tables, readOnly: bool, t: Table, index: nat, field: string,
                          input: Input, id: string, removed: int)
    requires WellFormed(ts) && index < |ts.Get(t)| && field in SchemaOf(t)
    ensures WellFormed(NestedChange(ts, readOnly, t, index, field, input))
    ensures WellFormed(AddEntry(ts, readOnly, t, id))
    ensures WellFormed(RemoveEntry(ts, readOnly, t, removed))
  {
    var rows := ts.Get(t);
    TableOperationsKeepShape(rows, t, index, field, input, id, removed);
    WithKeepsShape(ts, t, EditRow(rows, index, field, input));
    WithKeepsShape(ts, t, AddRow(rows, Template(t), id));
    WithKeepsShape(ts, t, Rows.RemoveAt(rows, removed));
  }
}
