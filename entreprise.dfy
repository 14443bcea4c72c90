/** The business page: the company's identity fields, four editable tables
  * (capital history, managers, other businesses, economic means), the
  * staff grid and the organisation notes. */
module Entreprise {
  import opened Base
  import Rows
  import opened Records

  datatype Table = EvolutionCapital | Dirigeants | AutresAffaires | MoyensEconomiques

  const EvolutionCapitalSchema: Schema := map[
    "id" := TextField, "date" := TextField, "capital" := NumberField, "formeJuridique" := TextField,
    "entrepreneur1" := TextField, "k1" := NumberField, "entrepreneur2" := TextField, "k2" := NumberField,
    "entrepreneur3" := TextField, "k3" := NumberField]

  const DirigeantSchema: Schema := map[
    "id" := TextField, "nomPrenom" := TextField, "fonction" := TextField,
    "formationExperience" := TextField, "telephone" := TextField]

  const AutreAffaireSchema: Schema := map[
    "id" := TextField, "denomination" := TextField, "capital" := NumberField, "k" := NumberField,
    "activite" := TextField, "caht" := NumberField, "banque" := TextField]

  const MoyenEconomiqueSchema: Schema := map[
    "id" := TextField, "bienUtilise" := TextField, "quantiteConsistance" := TextField,
    "valeurCptle" := NumberField, "valeurEstimee" := NumberField]

  function SchemaOf(t: Table): Schema
  {
    match t
    case EvolutionCapital => EvolutionCapitalSchema
    case Dirigeants => DirigeantSchema
    case AutresAffaires => AutreAffaireSchema
    case MoyensEconomiques => MoyenEconomiqueSchema
  }

  /** The row each table's add button appends, before it receives its
    * `id`; a new economic means is a plot of land. */
  function Template(t: Table): (r: Record)
    ensures "id" !in r && FitsTemplate(r, SchemaOf(t))
    ensures forall f :: f in r && r[f].Num? ==> r[f].n == 0.0
  {
    match t
    case EvolutionCapital => BlankRow(EvolutionCapitalSchema)
    case Dirigeants => BlankRow(DirigeantSchema)
    case AutresAffaires => BlankRow(AutreAffaireSchema)
    case MoyensEconomiques => BlankRow(MoyenEconomiqueSchema)["bienUtilise" := Text("Terrain")]
  }

  /** Head counts of one staff category, as `parseInt(..) || 0` leaves them. */
  datatype Personnel = Personnel(nb: int, cadre: int, maitrise: int, ouvrier: int, total: int)

  datatype StaffCategory = Administratif | Production | Commercial

  datatype StaffField = Nb | Cadre | Maitrise | Ouvrier | Total

  datatype MoyensHumains = MoyensHumains(administratif: Personnel, production: Personnel,
                                         commercial: Personnel, totals: Record)
  {
    function Get(c: StaffCategory): Personnel
    {
      match c
      case Administratif => administratif
      case Production => production
      case Commercial => commercial
    }
  }

  datatype EntrepriseData = EntrepriseData(
    fields: Record, evolutionCapital: seq<Record>, dirigeants: seq<Record>,
    autresAffaires: seq<Record>, moyensEconomiques: seq<Record>,
    moyensHumains: MoyensHumains, organisationManagement: map<string, string>)
  {
    function Get(t: Table): seq<Record>
    {
      match t
      case EvolutionCapital => evolutionCapital
      case Dirigeants => dirigeants
      case AutresAffaires => autresAffaires
      case MoyensEconomiques => moyensEconomiques
    }

    function With(t: Table, rows: seq<Record>): (d: EntrepriseData)
      ensures d.Get(t) == rows && forall t' :: t' != t ==> d.Get(t') == Get(t')
      ensures d.fields == fields && d.moyensHumains == moyensHumains
      ensures d.organisationManagement == organisationManagement
    {
      match t
      case EvolutionCapital => this.(evolutionCapital := rows)
      case Dirigeants => this.(dirigeants := rows)
      case AutresAffaires => this.(autresAffaires := rows)
      case MoyensEconomiques => this.(moyensEconomiques := rows)
    }
  }

  // ---------------------------------------------------------------------
  // Handlers; each leaves the data as it was on a read-only page

  /** `handleChange`: a number input stores the parsed number (0 when
    * unparsable), any other input its text. */
  function Change(d: EntrepriseData, readOnly: bool, name: string, isNumber: bool, input: Input): (r: EntrepriseData)
    ensures readOnly ==> r == d
    ensures !readOnly ==> r == d.(fields := d.fields[name := if isNumber then Num(NumberOrZero(input)) else Text(input.text)])
  {
    if readOnly then d
    else d.(fields := d.fields[name := if isNumber then Num(NumberOrZero(input)) else Text(input.text)])
  }

  /** `handleNestedChange`. */
  function NestedChange(d: EntrepriseData, readOnly: bool, t: Table, index: nat, field: string, input: Input): (r: EntrepriseData)
    requires index < |d.Get(t)|
    ensures readOnly ==> r == d
    ensures !readOnly ==> r == d.With(t, EditRow(d.Get(t), index, field, input))
  {
    if readOnly then d else d.With(t, EditRow(d.Get(t), index, field, input))
  }

  /** `addRow`. */
  function AddEntry(d: EntrepriseData, readOnly: bool, t: Table, id: string): (r: EntrepriseData)
    ensures readOnly ==> r == d
    ensures !readOnly ==> r == d.With(t, AddRow(d.Get(t), Template(t), id))
  {
    if readOnly then d else d.With(t, AddRow(d.Get(t), Template(t), id))
  }

  /** `removeRow`. */
  function RemoveEntry(d: EntrepriseData, readOnly: bool, t: Table, index: int): (r: EntrepriseData)
    ensures readOnly ==> r == d
    ensures !readOnly ==> r == d.With(t, Rows.RemoveAt(d.Get(t), index))
  {
    if readOnly then d else d.With(t, Rows.RemoveAt(d.Get(t), index))
  }

  /** `handleOrgMgtChange`. */
  function OrgMgtChange(d: EntrepriseData, readOnly: bool, field: string, value: string): (r: EntrepriseData)
    ensures readOnly ==> r == d
    ensures !readOnly ==> r == d.(organisationManagement := d.organisationManagement[field := value])
  {
    if readOnly then d else d.(organisationManagement := d.organisationManagement[field := value])
  }

  /** One count replaced, the others kept. */
  function SetCount(p: Personnel, field: StaffField, value: int): (q: Personnel)
    ensures forall f :: Count(q, f) == if f == field then value else Count(p, f)
  {
    match field
    case Nb => p.(nb := value)
    case Cadre => p.(cadre := value)
    case Maitrise => p.(maitrise := value)
    case Ouvrier => p.(ouvrier := value)
    case Total => p.(total := value)
  }

  /** `handleMoyensHumainsChange`: one count of one staff category. */
  function MoyensHumainsChange(d: EntrepriseData, readOnly: bool, c: StaffCategory, field: StaffField, value: int): (r: EntrepriseData)
    ensures readOnly ==> r == d
    ensures !readOnly ==> r.moyensHumains.Get(c) == SetCount(d.moyensHumains.Get(c), field, value)
    ensures forall c' :: c' != c ==> r.moyensHumains.Get(c') == d.moyensHumains.Get(c')
    ensures r.moyensHumains.totals == d.moyensHumains.totals
    ensures r == d.(moyensHumains := r.moyensHumains)
  {
    if readOnly then d
    else
      var mh := d.moyensHumains;
      var p := SetCount(mh.Get(c), field, value);
      d.(moyensHumains := match c
        case Administratif => mh.(administratif := p)
        case Production => mh.(production := p)
        case Commercial => mh.(commercial := p))
  }

  /** `handleMoyensHumainsTotalChange`: one field of the workforce summary. */
  function MoyensHumainsTotalChange(d: EntrepriseData, readOnly: bool, field: string, value: Value): (r: EntrepriseData)
    ensures readOnly ==> r == d
    ensures !readOnly ==> r == d.(moyensHumains := d.moyensHumains.(totals := d.moyensHumains.totals[field := value]))
  {
    if readOnly then d
    else d.(moyensHumains := d.moyensHumains.(totals := d.moyensHumains.totals[field := value]))
  }

  // ---------------------------------------------------------------------
  // Derived figures

  /** `calcMoyensHumainsTotal`: executives, supervisors and workers; the
    * headcount `nb` and the stored `total` do not enter it. */
  function StaffTotal(p: Personnel): (n: int)
    ensures p.cadre >= 0 && p.maitrise >= 0 && p.ouvrier >= 0 ==> n >= p.cadre && n >= p.maitrise && n >= p.ouvrier
  {
    p.cadre + p.maitrise + p.ouvrier
  }

  /** Editing one count moves only that category's total, by the change in
    * that count; the headcount and the stored total never move it. */
  lemma StaffTotalsFollowEdits(d: EntrepriseData, c: StaffCategory, field: StaffField, value: int, c': StaffCategory)
    ensures var r := MoyensHumainsChange(d, false, c, field, value);
      StaffTotal(r.moyensHumains.Get(c'))
        == StaffTotal(d.moyensHumains.Get(c'))
           + if c' == c && field != Nb && field != Total then value - Count(d.moyensHumains.Get(c), field) else 0
  {
  }

  function Count(p: Personnel, field: StaffField): int
  {
    match field
    case Nb => p.nb
    case Cadre => p.cadre
    case Maitrise => p.maitrise
    case Ouvrier => p.ouvrier
    case Total => p.total
  }

  /** The economic means' book value and estimated value, summed over the
    * table. */
  function TotalMoyensEcoCptle(d: EntrepriseData): real
  {
    SumField(d.moyensEconomiques, "valeurCptle")
  }

  function TotalMoyensEcoEstimee(d: EntrepriseData): real
  {
    SumField(d.moyensEconomiques, "valeurEstimee")
  }

  /** Adding an economic means adds nothing to either total, removing one
    * takes out its own values, editing its description changes nothing,
    * and no other table or handler moves them. */
  lemma MeansTotalsFollowTheTable(d: EntrepriseData, index: nat, input: Input, id: string, removed: int)
    requires index < |d.moyensEconomiques|
    ensures var r := AddEntry(d, false, MoyensEconomiques, id);
      TotalMoyensEcoCptle(r) == TotalMoyensEcoCptle(d) && TotalMoyensEcoEstimee(r) == TotalMoyensEcoEstimee(d)
    ensures var r := NestedChange(d, false, MoyensEconomiques, index, "quantiteConsistance", input);
      TotalMoyensEcoCptle(r) == TotalMoyensEcoCptle(d) && TotalMoyensEcoEstimee(r) == TotalMoyensEcoEstimee(d)
    ensures var r := RemoveEntry(d, false, MoyensEconomiques, removed);
      0 <= removed < |d.moyensEconomiques| ==>
        TotalMoyensEcoCptle(r) == TotalMoyensEcoCptle(d) - NumOf(d.moyensEconomiques[removed], "valeurCptle")
        && TotalMoyensEcoEstimee(r) == TotalMoyensEcoEstimee(d) - NumOf(d.moyensEconomiques[removed], "valeurEstimee")
  {
    var rows, t := d.moyensEconomiques, Template(MoyensEconomiques);
    SumFieldAfterOperations(rows, t, id, index, "valeurCptle", "quantiteConsistance", input, removed);
    SumFieldAfterOperations(rows, t, id, index, "valeurEstimee", "quantiteConsistance", input, removed);
  }

  /** The appended row is the template plus its `id` and conforms to the
    * table's declared shape. */
  lemma NewRowConforms(t: Table, id: string)
    ensures Conforms(Template(t)["id" := Text(id)], SchemaOf(t))
  {
    SchemaHasNoFlag(t);
  }

  /** Every table declares a text `id` and no boolean field. */
  lemma SchemaHasNoFlag(t: Table)
    ensures "id" in SchemaOf(t) && SchemaOf(t)["id"] == TextField
    ensures forall f :: f in SchemaOf(t) ==> SchemaOf(t)[f] != FlagField
  {
  }

  lemma TableOperationsKeepShape(rows: seq<Record>, t: Table, index: nat, field: string,
                                 input: Input, id: string, removed: int)
    requires AllConform(rows, SchemaOf(t)) && index < |rows| && field in SchemaOf(t)
    ensures AllConform(EditRow(rows, index, field, input), SchemaOf(t))
    ensures AllConform(AddRow(rows, Template(t), id), SchemaOf(t))
    ensures AllConform(Rows.RemoveAt(rows, removed), SchemaOf(t))
  {
    SchemaHasNoFlag(t);
    TableOperationsConform(rows, SchemaOf(t), Template(t), id, index, field, input, removed);
  }

  predicate WellFormed(d: EntrepriseData)
  {
    forall t :: AllConform(d.Get(t), SchemaOf(t))
  }

  /** Replacing one table by conforming rows keeps every table well formed. */
  lemma WithKeepsShape(d: EntrepriseData, t: Table, rows: seq<Record>)
    requires WellFormed(d) && AllConform(rows, SchemaOf(t))
    ensures WellFormed(d.With(t, rows))
  {
    forall t' ensures AllConform(d.With(t, rows).Get(t'), SchemaOf(t')) {
      if t' != t {
        assert d.With(t, rows).Get(t') == d.Get(t');
      }
    }
  }

  /** Every table handler keeps the four tables in their declared shape. */
  lemma HandlersKeepShape(d: EntrepriseData, readOnly: bool, t: Table, index: nat, field: string,
                          input: Input, id: string, removed: int)
    requires WellFormed(d) && index < |d.Get(t)| && field in SchemaOf(t)
    ensures WellFormed(NestedChange(d, readOnly, t, index, field, input))
    ensures WellFormed(AddEntry(d, readOnly, t, id))
    ensures WellFormed(RemoveEntry(d, readOnly, t, removed))
  {
    var rows := d.Get(t);
    TableOperationsKeepShape(rows, t, index, field, input, id, removed);
    WithKeepsShape(d, t, EditRow(rows, index, field, input));
    WithKeepsShape(d, t, AddRow(rows, Template(t), id));
    WithKeepsShape(d, t, Rows.RemoveAt(rows, removed));
  }
}
