/** The credit-application page: the applicant's identity fields, the two
  * mutually exclusive sex boxes, and the three credit tables with their
  * column totals. */
module CreditApplication {
  import opened Base
  import Rows
  import opened Records

  /** The form fields the page edits by name, and its three tables. */
  datatype CreditForm = CreditForm(fields: Record, creditsEnCours: seq<Record>,
                                   nouveauxCredits: seq<Record>, decisionNouveauxCredits: seq<Record>)
  {
    function Get(s: Table): seq<Record>
    {
      match s
      case CreditsEnCours => creditsEnCours
      case NouveauxCredits => nouveauxCredits
      case DecisionNouveauxCredits => decisionNouveauxCredits
    }

    function With(s: Table, rows: seq<Record>): (f: CreditForm)
      ensures f.Get(s) == rows && f.fields == fields
      ensures forall s' :: s' != s ==> f.Get(s') == Get(s')
    {
      match s
      case CreditsEnCours => this.(creditsEnCours := rows)
      case NouveauxCredits => this.(nouveauxCredits := rows)
      case DecisionNouveauxCredits => this.(decisionNouveauxCredits := rows)
    }
  }

  datatype Table = CreditsEnCours | NouveauxCredits | DecisionNouveauxCredits

  /** The kind of input element a change event comes from. */
  datatype InputType = Checkbox | NumberInput | OtherInput

  /** A box counts as ticked only when it holds `true`. */
  predicate Ticked(fields: Record, name: string)
  {
    name in fields && fields[name] == Flag(true)
  }

  /** At most one of the two sex boxes is ticked. */
  predicate Exclusive(fields: Record)
  {
    !(Ticked(fields, "homme") && Ticked(fields, "femme"))
  }

  /** `handleChange`: ticking one sex box clears the other; otherwise a
    * checkbox stores whether it is ticked, a number input the parsed number
    * (0 when unparsable) and any other input its text. */
  function Change(form: CreditForm, readOnly: bool, name: string, kind: InputType, checked: bool, input: Input): (r: CreditForm)
    ensures readOnly ==> r == form
    ensures !readOnly && name == "homme" && checked ==>
      r.fields == form.fields["homme" := Flag(true)]["femme" := Flag(false)]
    ensures !readOnly && name == "femme" && checked ==>
      r.fields == form.fields["homme" := Flag(false)]["femme" := Flag(true)]
    ensures !readOnly && !((name == "homme" || name == "femme") && checked) ==>
      r.fields == form.fields[name := StoredValue(kind, checked, input)]
    ensures r == form.(fields := r.fields)
  {
    if readOnly then form
    else if name == "homme" && checked then form.(fields := form.fields["homme" := Flag(true)]["femme" := Flag(false)])
    else if name == "femme" && checked then form.(fields := form.fields["homme" := Flag(false)]["femme" := Flag(true)])
    else form.(fields := form.fields[name := StoredValue(kind, checked, input)])
  }

  function StoredValue(kind: InputType, checked: bool, input: Input): Value
  {
    match kind
    case Checkbox => Flag(checked)
    case NumberInput => Num(NumberOrZero(input))
    case OtherInput => Text(input.text)
  }

  /** No change event can leave both sex boxes ticked; ticking one of them
    * always leaves exactly that one ticked, and unticking one leaves it
    * unticked, so both may end up clear. */
  lemma ChangeKeepsSexExclusive(form: CreditForm, readOnly: bool, name: string, kind: InputType,
                                checked: bool, input: Input)
    requires Exclusive(form.fields)
    ensures Exclusive(Change(form, readOnly, name, kind, checked, input).fields)
    ensures !readOnly && (name == "homme" || name == "femme") && checked ==>
      Ticked(Change(form, readOnly, name, kind, checked, input).fields, name)
    ensures !readOnly && (name == "homme" || name == "femme") && kind == Checkbox && !checked ==>
      !Ticked(Change(form, readOnly, name, kind, checked, input).fields, name)
  {
  }

  /** Unticking a box when neither was ticked leaves both clear. */
  lemma BothMayBeClear()
    ensures var f := Change(CreditForm(map[], [], [], []), false, "homme", Checkbox, false, Input("", None));
      !Ticked(f.fields, "homme") && !Ticked(f.fields, "femme")
  {
  }

  // ---------------------------------------------------------------------
  // The credit tables

  const CreditEnCoursSchema: Schema := map[
    "id" := TextField, "nature" := TextField, "montantAutorise" := NumberField,
    "montantEncours" := NumberField, "montantImpaye" := NumberField, "dureeMois" := NumberField,
    "dateFin" := TextField, "tauxAccorde" := NumberField, "rema" := TextField,
    "commentaires" := TextField, "controleRema" := TextField]

  const NouveauCreditSchema: Schema := map[
    "id" := TextField, "nature" := TextField, "montantDemande" := NumberField,
    "montantPropose" := NumberField, "dureeMois" := NumberField, "dateFin" := TextField,
    "echeanceFrequence" := TextField, "echeancePeriode" := TextField, "tauxGrille" := TextField,
    "tauxAccorde" := TextField, "commentaires" := TextField, "col1" := NumberField, "col2" := NumberField]

  const DecisionCreditSchema: Schema := map[
    "id" := TextField, "natureProposee" := TextField, "decision" := TextField,
    "natureAccordee" := TextField, "montant" := NumberField, "commentaires" := TextField]

  function SchemaOf(s: Table): Schema
  {
    match s
    case CreditsEnCours => CreditEnCoursSchema
    case NouveauxCredits => NouveauCreditSchema
    case DecisionNouveauxCredits => DecisionCreditSchema
  }

  /** The row each table's add button appends, before it receives its `id`:
    * every column empty; a new credit is repaid monthly. */
  function Template(s: Table): (r: Record)
    ensures "id" !in r && FitsTemplate(r, SchemaOf(s))
    ensures forall f :: f in r && r[f].Num? ==> r[f].n == 0.0
  {
    match s
    case CreditsEnCours => BlankRow(CreditEnCoursSchema)
    case NouveauxCredits =>
      FillKeepsFit(BlankRow(NouveauCreditSchema), NouveauCreditSchema, "echeancePeriode", Text("mensuelle"));
      BlankRow(NouveauCreditSchema)["echeancePeriode" := Text("mensuelle")]
    case DecisionNouveauxCredits => BlankRow(DecisionCreditSchema)
  }

  /** `handleNestedChange`. */
  function NestedChange(form: CreditForm, readOnly: bool, s: Table, index: nat, field: string, input: Input): (r: CreditForm)
    requires index < |form.Get(s)|
    ensures readOnly ==> r == form
    ensures !readOnly ==> r == form.With(s, EditRow(form.Get(s), index, field, input))
  {
    if readOnly then form else form.With(s, EditRow(form.Get(s), index, field, input))
  }

  /** `addRow`: the template of that table with a fresh `id`, at the end. */
  function AddCredit(form: CreditForm, readOnly: bool, s: Table, id: string): (r: CreditForm)
    ensures readOnly ==> r == form
    ensures !readOnly ==> r == form.With(s, AddRow(form.Get(s), Template(s), id))
  {
    if readOnly then form else form.With(s, AddRow(form.Get(s), Template(s), id))
  }

  /** `removeRow`. */
  function RemoveCredit(form: CreditForm, readOnly: bool, s: Table, index: int): (r: CreditForm)
    ensures readOnly ==> r == form
    ensures !readOnly ==> r == form.With(s, Rows.RemoveAt(form.Get(s), index))
  {
    if readOnly then form else form.With(s, Rows.RemoveAt(form.Get(s), index))
  }

  /** The appended row is the template plus its `id` and conforms to the
    * table's declared shape. */
  lemma NewRowConforms(s: Table, id: string)
    ensures Conforms(Template(s)["id" := Text(id)], SchemaOf(s))
  {
    SchemaHasNoFlag(s);
    WithIdConforms(Template(s), SchemaOf(s), id);
  }

  /** Every table declares a text `id` and no boolean field. */
  lemma SchemaHasNoFlag(s: Table)
    ensures "id" in SchemaOf(s) && SchemaOf(s)["id"] == TextField
    ensures forall f :: f in SchemaOf(s) ==> SchemaOf(s)[f] != FlagField
  {
    match s
    case CreditsEnCours => CreditEnCoursHasNoFlag();
    case NouveauxCredits => NouveauCreditHasNoFlag();
    case DecisionNouveauxCredits => DecisionCreditHasNoFlag();
  }

  lemma CreditEnCoursHasNoFlag()
    ensures forall f :: f in CreditEnCoursSchema ==> CreditEnCoursSchema[f] != FlagField
  {
  }

  lemma NouveauCreditHasNoFlag()
    ensures forall f :: f in NouveauCreditSchema ==> NouveauCreditSchema[f] != FlagField
  {
  }

  lemma DecisionCreditHasNoFlag()
    ensures forall f :: f in DecisionCreditSchema ==> DecisionCreditSchema[f] != FlagField
  {
  }

  lemma TableOperationsKeepShape(rows: seq<Record>, s: Table, index: nat, field: string,
                                 input: Input, id: string, removed: int)
    requires AllConform(rows, SchemaOf(s)) && index < |rows| && field in SchemaOf(s)
    ensures AllConform(EditRow(rows, index, field, input), SchemaOf(s))
    ensures AllConform(AddRow(rows, Template(s), id), SchemaOf(s))
    ensures AllConform(Rows.RemoveAt(rows, removed), SchemaOf(s))
  {
    SchemaHasNoFlag(s);
    TableOperationsConform(rows, SchemaOf(s), Template(s), id, index, field, input, removed);
  }

  predicate WellFormed(form: CreditForm)
  {
    forall s :: AllConform(form.Get(s), SchemaOf(s))
  }

  /** Replacing one table by conforming rows keeps every table well formed. */
  lemma WithKeepsShape(form: CreditForm, s: Table, rows: seq<Record>)
    requires WellFormed(form) && AllConform(rows, SchemaOf(s))
    ensures WellFormed(form.With(s, rows))
  {
    forall s' ensures AllConform(form.With(s, rows).Get(s'), SchemaOf(s')) {
      if s' != s {
        assert form.With(s, rows).Get(s') == form.Get(s');
      }
    }
  }

  /** Every table handler keeps the three tables in their declared shape
    * and never touches the named fields. */
  lemma HandlersKeepShape(form: CreditForm, readOnly: bool, s: Table, index: nat, field: string,
                          input: Input, id: string, removed: int)
    requires WellFormed(form) && index < |form.Get(s)| && field in SchemaOf(s)
    ensures WellFormed(NestedChange(form, readOnly, s, index, field, input))
    ensures WellFormed(AddCredit(form, readOnly, s, id))
    ensures WellFormed(RemoveCredit(form, readOnly, s, removed))
  {
    var rows := form.Get(s);
    TableOperationsKeepShape(rows, s, index, field, input, id, removed);
    WithKeepsShape(form, s, EditRow(rows, index, field, input));
    WithKeepsShape(form, s, AddRow(rows, Template(s), id));
    WithKeepsShape(form, s, Rows.RemoveAt(rows, removed));
  }

  // ---------------------------------------------------------------------
  // Totals

  datatype CreditTotals = CreditTotals(
    enCoursAutorise: real, enCoursEncours: real, enCoursImpaye: real,
    nouveauxDemande: real, nouveauxPropose: real, decisionMontant: real)

  /** The six column totals the page shows. */
  function Totals(form: CreditForm): CreditTotals
  {
    CreditTotals(
      SumField(form.creditsEnCours, "montantAutorise"), SumField(form.creditsEnCours, "montantEncours"),
      SumField(form.creditsEnCours, "montantImpaye"), SumField(form.nouveauxCredits, "montantDemande"),
      SumField(form.nouveauxCredits, "montantPropose"), SumField(form.decisionNouveauxCredits, "montant"))
  }

  /** The "Total Engagements" cell: the amount proposed on the new credits,
    * and nothing of the credits already running. */
  function TotalEngagements(form: CreditForm): (e: real)
    ensures e == Totals(form).nouveauxPropose
  {
    SumField(form.nouveauxCredits, "montantPropose")
  }

  /** Neither the credits already running nor the decisions count towards
    * the engagements shown; every new credit's proposed amount does. */
  lemma EngagementsAreNewCreditsOnly(form: CreditForm, running: seq<Record>, decisions: seq<Record>, c: Record)
    ensures TotalEngagements(form.(creditsEnCours := running, decisionNouveauxCredits := decisions))
         == TotalEngagements(form)
    ensures TotalEngagements(form.(nouveauxCredits := Rows.Append(form.nouveauxCredits, c)))
         == TotalEngagements(form) + NumOf(c, "montantPropose")
  {
    var rows := Rows.Append(form.nouveauxCredits, c);
    assert rows[..|rows| - 1] == form.nouveauxCredits;
  }

  /** The totals follow the table handlers: a new row adds nothing, a
    * removed row takes out exactly its own amount, a text edit changes no
    * total, and a table's totals never move when another table changes. */
  lemma TotalsFollowTheTables(form: CreditForm, s: Table, index: nat, textField: string,
                              input: Input, id: string, removed: int, column: string)
    requires index < |form.Get(s)| && column != "id" && textField != column
    requires column in SchemaOf(s) && SchemaOf(s)[column] == NumberField
    ensures SumField(NestedChange(form, false, s, index, textField, input).Get(s), column)
         == SumField(form.Get(s), column)
    ensures SumField(AddCredit(form, false, s, id).Get(s), column) == SumField(form.Get(s), column)
    ensures SumField(RemoveCredit(form, false, s, removed).Get(s), column)
         == if 0 <= removed < |form.Get(s)| then SumField(form.Get(s), column) - NumOf(form.Get(s)[removed], column)
            else SumField(form.Get(s), column)
    ensures forall s' :: s' != s ==> AddCredit(form, false, s, id).Get(s') == form.Get(s')
    ensures forall s' :: s' != s ==> RemoveCredit(form, false, s, removed).Get(s') == form.Get(s')
  {
    SumFieldAfterOperations(form.Get(s), Template(s), id, index, column, textField, input, removed);
  }
}
