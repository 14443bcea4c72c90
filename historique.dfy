/** The banking-history page: accounts held with the institution and with
  * other banks, their column totals, and the share of the declared and of
  * the actual turnover that passes through them. */
module Historique {
  import opened Base
  import Rows
  import opened Records

  datatype Section = ComptesInternes | ComptesExternes

  /** The numeric columns shared by both account tables. */
  const NumericColumns: seq<string> := [
    "mvtsConfiesN1", "mvtsConfies12Mois", "soldeMoyenN1", "soldeMoyen12Mois",
    "joursDebiteursN1", "joursDebiteurs12Mois", "joursDepassementN1", "joursDepassement12Mois",
    "joursCrediteursN1", "joursCrediteurs12Mois"]

  /** The three text columns of each table, besides `id`. */
  function TextColumns(s: Section): (cs: seq<string>)
    ensures |cs| == 3 && "id" !in cs
    ensures forall c :: c in cs ==> c !in NumericColumns
  {
    match s
    case ComptesInternes => ["beneficiaireCompte", "numeroCompte", "dateOuverture"]
    case ComptesExternes => ["banque", "nomBeneficiaire", "dateEntreeRelation"]
  }

  function SchemaOf(s: Section): (schema: Schema)
    ensures "id" in schema && schema["id"] == TextField
    ensures forall c :: c in NumericColumns ==> c in schema && schema[c] == NumberField
    ensures forall f :: f in schema ==> schema[f] != FlagField
  {
    ((map c | c in NumericColumns :: NumberField) + (map c | c in TextColumns(s) :: TextField))["id" := TextField]
  }

  /** The row added to a table before it receives its `id`: empty text and
    * zero in every numeric column. */
  function Template(s: Section): (r: Record)
    ensures "id" !in r && FitsTemplate(r, SchemaOf(s))
    ensures forall c :: c in NumericColumns ==> NumOf(r, c) == 0.0
  {
    (map c | c in NumericColumns :: Num(0.0)) + (map c | c in TextColumns(s) :: Text(""))
  }

  /** A percentage field the user may fill in. `parseFloat` of an
    * unparsable entry is stored as it comes, a not-a-number. */
  datatype Stored = Unset | Typed(value: real) | Unparsable

  datatype HistoriqueData = HistoriqueData(
    dateEntreeRelation: string, comptesInternes: seq<Record>, comptesExternes: seq<Record>,
    cahtN: real, cattcReel: real, commentaires: string,
    partMvtsN1Pct: Stored, partMvts12MPct: Stored)
  {
    function Get(s: Section): seq<Record>
    {
      match s
      case ComptesInternes => comptesInternes
      case ComptesExternes => comptesExternes
    }

    function With(s: Section, rows: seq<Record>): (d: HistoriqueData)
      ensures d.Get(s) == rows && forall s' :: s' != s ==> d.Get(s') == Get(s')
      ensures d.cahtN == cahtN && d.cattcReel == cattcReel
      ensures d.partMvtsN1Pct == partMvtsN1Pct && d.partMvts12MPct == partMvts12MPct
    {
      match s
      case ComptesInternes => this.(comptesInternes := rows)
      case ComptesExternes => this.(comptesExternes := rows)
    }
  }

  // ---------------------------------------------------------------------
  // Totals and shares

  /** `calculateTotal`: a column's total over one table. */
  function CalculateTotal(d: HistoriqueData, s: Section, field: string): real
  {
    SumField(d.Get(s), field)
  }

  /** Movements of both tables in one column: the internal total plus the
    * external one. */
  function Movements(d: HistoriqueData, field: string): (m: real)
    ensures m == SumField(d.comptesInternes + d.comptesExternes, field)
  {
    Rows.SumOfConcat(d.comptesInternes, d.comptesExternes, (r: Record) => NumOf(r, field));
    CalculateTotal(d, ComptesInternes, field) + CalculateTotal(d, ComptesExternes, field)
  }

  /** Movements entrusted over year N-1 as a percentage of the declared
    * turnover before tax; 0 when that turnover is not positive. */
  function PartMvtsN1Pct(d: HistoriqueData): (p: real)
    ensures d.cahtN > 0.0 ==> p * d.cahtN == Movements(d, "mvtsConfiesN1") * 100.0
    ensures d.cahtN <= 0.0 ==> p == 0.0
  {
    Share(Movements(d, "mvtsConfiesN1"), d.cahtN)
  }

  /** Movements entrusted over the last twelve months as a percentage of
    * the actual turnover including tax; 0 when that turnover is not
    * positive. */
  function PartMvts12MPct(d: HistoriqueData): (p: real)
    ensures d.cattcReel > 0.0 ==> p * d.cattcReel == Movements(d, "mvtsConfies12Mois") * 100.0
    ensures d.cattcReel <= 0.0 ==> p == 0.0
  {
    Share(Movements(d, "mvtsConfies12Mois"), d.cattcReel)
  }

  /** `(part / base) * 100`: times its base, it gives back a hundred times
    * the part. */
  function Percent(part: real, base: real): (p: real)
    requires base > 0.0
    ensures p * base == part * 100.0
  {
    assert (part / base) * base == part;
    (part / base) * 100.0
  }

  /** `part` as a percentage of `base`, 0 when the base is not positive. */
  function Share(part: real, base: real): (p: real)
    ensures base > 0.0 ==> p * base == part * 100.0
    ensures base <= 0.0 ==> p == 0.0
  {
    if base > 0.0 then Percent(part, base) else 0.0
  }

  /** What a percentage cell shows: a stored value wins over the computed
    * one; a stored not-a-number shows no number at all. */
  function Displayed(stored: Stored, computed: real): (shown: Option<real>)
    ensures stored.Typed? ==> shown == Some(stored.value)
    ensures stored.Unset? ==> shown == Some(computed)
    ensures stored.Unparsable? <==> shown.None?
  {
    match stored
    case Unset => Some(computed)
    case Typed(x) => Some(x)
    case Unparsable => None
  }

  /** When the movements stay within the turnover, the share lies between
    * 0 and 100 %. */
  lemma SharesAreBounded(d: HistoriqueData)
    requires d.cahtN > 0.0 && 0.0 <= Movements(d, "mvtsConfiesN1") <= d.cahtN
    requires d.cattcReel > 0.0 && 0.0 <= Movements(d, "mvtsConfies12Mois") <= d.cattcReel
    ensures 0.0 <= PartMvtsN1Pct(d) <= 100.0
    ensures 0.0 <= PartMvts12MPct(d) <= 100.0
  {
    RatioBound(Movements(d, "mvtsConfiesN1"), d.cahtN);
    RatioBound(Movements(d, "mvtsConfies12Mois"), d.cattcReel);
  }

  lemma RatioBound(m: real, ca: real)
    requires ca > 0.0 && 0.0 <= m <= ca
    ensures 0.0 <= (m / ca) * 100.0 <= 100.0
  {
    assert m / ca <= 1.0;
  }

  // ---------------------------------------------------------------------
  // Change handlers; each leaves the data as it was on a read-only page

  /** `handleTableChange`: a numeric cell receives the parsed number (0 when
    * unparsable), a text cell the text. */
  function TableChange(d: HistoriqueData, readOnly: bool, s: Section, index: nat, field: string, input: Input): (r: HistoriqueData)
    requires index < |d.Get(s)|
    ensures readOnly ==> r == d
    ensures !readOnly ==> r == d.With(s, EditRow(d.Get(s), index, field, input))
  {
    if readOnly then d else d.With(s, EditRow(d.Get(s), index, field, input))
  }

  /** `addRow`. */
  function AddAccount(d: HistoriqueData, readOnly: bool, s: Section, id: string): (r: HistoriqueData)
    ensures readOnly ==> r == d
    ensures !readOnly ==> r == d.With(s, AddRow(d.Get(s), Template(s), id))
  {
    if readOnly then d else d.With(s, AddRow(d.Get(s), Template(s), id))
  }

  /** `removeRow`. */
  function RemoveAccount(d: HistoriqueData, readOnly: bool, s: Section, index: int): (r: HistoriqueData)
    ensures readOnly ==> r == d
    ensures !readOnly ==> r == d.With(s, Rows.RemoveAt(d.Get(s), index))
  {
    if readOnly then d else d.With(s, Rows.RemoveAt(d.Get(s), index))
  }

  /** The scalar fields `handleFieldChange` is called with. */
  datatype Field = DateEntreeRelation | CahtN | CattcReel | PartN1 | Part12M | Commentaires

  /** `handleFieldChange`: the two turnovers take the parsed number or 0,
    * the two percentages take the parse as it comes, the date of entry into
    * relation and the comment the text. */
  function FieldChange(d: HistoriqueData, readOnly: bool, field: Field, input: Input): (r: HistoriqueData)
    ensures readOnly ==> r == d
    ensures !readOnly && field == DateEntreeRelation ==> r == d.(dateEntreeRelation := input.text)
    ensures !readOnly && field == CahtN ==> r == d.(cahtN := NumberOrZero(input))
    ensures !readOnly && field == CattcReel ==> r == d.(cattcReel := NumberOrZero(input))
    ensures !readOnly && field == PartN1 ==> r == d.(partMvtsN1Pct := Parsed(input))
    ensures !readOnly && field == Part12M ==> r == d.(partMvts12MPct := Parsed(input))
    ensures !readOnly && field == Commentaires ==> r == d.(commentaires := input.text)
  {
    if readOnly then d
    else
      match field
      case DateEntreeRelation => d.(dateEntreeRelation := input.text)
      case CahtN => d.(cahtN := NumberOrZero(input))
      case CattcReel => d.(cattcReel := NumberOrZero(input))
      case PartN1 => d.(partMvtsN1Pct := Parsed(input))
      case Part12M => d.(partMvts12MPct := Parsed(input))
      case Commentaires => d.(commentaires := input.text)
  }

  function Parsed(input: Input): (s: Stored)
    ensures s != Unset
    ensures s.Typed? <==> input.number.Some?
  {
    if input.number.Some? then Typed(input.number.value) else Unparsable
  }

  predicate WellFormed(d: HistoriqueData)
  {
    forall s :: AllConform(d.Get(s), SchemaOf(s))
  }

  /** Replacing one table by conforming rows keeps both tables well formed. */
  lemma WithKeepsShape(d: HistoriqueData, s: Section, rows: seq<Record>)
    requires WellFormed(d) && AllConform(rows, SchemaOf(s))
    ensures WellFormed(d.With(s, rows))
  {
    forall s' ensures AllConform(d.With(s, rows).Get(s'), SchemaOf(s')) {
      if s' != s {
        assert d.With(s, rows).Get(s') == d.Get(s');
      }
    }
  }

  /** Every table handler keeps both tables in their declared shape. */
  lemma HandlersKeepShape(d: HistoriqueData, readOnly: bool, s: Section, index: nat, field: string,
                          input: Input, id: string, removed: int)
    requires WellFormed(d) && index < |d.Get(s)|
    requires field in SchemaOf(s)
    ensures WellFormed(TableChange(d, readOnly, s, index, field, input))
    ensures WellFormed(AddAccount(d, readOnly, s, id))
    ensures WellFormed(RemoveAccount(d, readOnly, s, removed))
  {
    var rows := d.Get(s);
    TableOperationsKeepShape(rows, s, index, field, input, id, removed);
    WithKeepsShape(d, s, EditRow(rows, index, field, input));
    WithKeepsShape(d, s, AddRow(rows, Template(s), id));
    WithKeepsShape(d, s, Rows.RemoveAt(rows, removed));
  }

  lemma TableOperationsKeepShape(rows: seq<Record>, s: Section, index: nat, field: string,
                                 input: Input, id: string, removed: int)
    requires AllConform(rows, SchemaOf(s)) && index < |rows| && field in SchemaOf(s)
    ensures AllConform(EditRow(rows, index, field, input), SchemaOf(s))
    ensures AllConform(AddRow(rows, Template(s), id), SchemaOf(s))
    ensures AllConform(Rows.RemoveAt(rows, removed), SchemaOf(s))
  {
    TableOperationsConform(rows, SchemaOf(s), Template(s), id, index, field, input, removed);
  }

  /** A new account, once it has its `id`, conforms to its table's shape. */
  lemma TemplateConforms(s: Section, id: string)
    ensures Conforms(Template(s)["id" := Text(id)], SchemaOf(s))
  {
  }

  /** A new account adds nothing to the movements, removing an account
    * takes out exactly its own movements, editing a text cell changes
    * nothing, and the other table is never involved. */
  lemma MovementsFollowTheTables(d: HistoriqueData, s: Section, index: nat, textField: string,
                                 input: Input, id: string, removed: int, column: string)
    requires index < |d.Get(s)| && column in NumericColumns && textField != column
    ensures Movements(TableChange(d, false, s, index, textField, input), column) == Movements(d, column)
    ensures Movements(AddAccount(d, false, s, id), column) == Movements(d, column)
    ensures Movements(RemoveAccount(d, false, s, removed), column)
         == if 0 <= removed < |d.Get(s)| then Movements(d, column) - NumOf(d.Get(s)[removed], column)
            else Movements(d, column)
  {
    EditKeepsMovements(d, s, index, textField, input, column);
    AddKeepsMovements(d, s, id, column);
    RemoveTakesMovements(d, s, removed, column);
  }

  lemma EditKeepsMovements(d: HistoriqueData, s: Section, index: nat, textField: string, input: Input, column: string)
    requires index < |d.Get(s)| && column in NumericColumns && textField != column
    ensures Movements(TableChange(d, false, s, index, textField, input), column) == Movements(d, column)
  {
    var rows := d.Get(s);
    Rows.SumOfUpdateAt(rows, index, SetField(rows[index], textField, input), (r: Record) => NumOf(r, column));
    MovementsWith(d, s, EditRow(rows, index, textField, input), column);
  }

  lemma AddKeepsMovements(d: HistoriqueData, s: Section, id: string, column: string)
    requires column in NumericColumns
    ensures Movements(AddAccount(d, false, s, id), column) == Movements(d, column)
  {
    var rows := d.Get(s);
    var added := AddRow(rows, Template(s), id);
    assert added[..|added| - 1] == rows;
    MovementsWith(d, s, added, column);
  }

  lemma RemoveTakesMovements(d: HistoriqueData, s: Section, removed: int, column: string)
    ensures Movements(RemoveAccount(d, false, s, removed), column)
         == if 0 <= removed < |d.Get(s)| then Movements(d, column) - NumOf(d.Get(s)[removed], column)
            else Movements(d, column)
  {
    var rows := d.Get(s);
    Rows.SumOfRemoveAt(rows, removed, (r: Record) => NumOf(r, column));
    MovementsWith(d, s, Rows.RemoveAt(rows, removed), column);
  }

  /** Replacing one table moves the movements by the change in its own total. */
  lemma MovementsWith(d: HistoriqueData, s: Section, rows: seq<Record>, column: string)
    ensures Movements(d.With(s, rows), column) == Movements(d, column) - SumField(d.Get(s), column) + SumField(rows, column)
  {
  }

  /** Typing a share replaces the computed one on screen, whatever the
    * accounts; clearing the turnover sends the computed share to 0. */
  lemma TypedShareIsShown(d: HistoriqueData, x: real, text: string)
    ensures var d' := FieldChange(d, false, PartN1, Input(text, Some(x)));
      Displayed(d'.partMvtsN1Pct, PartMvtsN1Pct(d')) == Some(x)
    ensures var d' := FieldChange(d, false, CahtN, Input(text, None));
      d'.partMvtsN1Pct == Unset ==> Displayed(d'.partMvtsN1Pct, PartMvtsN1Pct(d')) == Some(0.0)
  {
  }
}
