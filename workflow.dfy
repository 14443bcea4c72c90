/** The dossier store and its workflow: the list of dossiers, which one is
  * open, who is working, the status changes each role can make and the
  * audit trail they leave. */
module Workflow {
  import opened Base
  import AnalysisConfig
  import Analyse
  import Ponderation

  /** The eight statuses a dossier can carry. Only the first four are
    * ever set by the application; the others are declared but unused. */
  datatype Status = Nouveau | EnAnalyse | RetourCollecte | EnValidationDirecteur
                  | RetourAnalyse | EnValidationComite | Valide | Rejete

  function StatusLabel(s: Status): string
  {
    match s
    case Nouveau => "Nouveau (Collecte)"
    case EnAnalyse => "En Analyse"
    case RetourCollecte => "Retourné au Collecteur"
    case EnValidationDirecteur => "Validation Directeur"
    case RetourAnalyse => "Retourné à l'Analyste"
    case EnValidationComite => "Validation Comité"
    case Valide => "Validé"
    case Rejete => "Rejeté"
  }

  /** Every status has its own label, so a label identifies its status. */
  lemma StatusLabelsAreDistinct(s: Status, t: Status)
    ensures StatusLabel(s) != ""
    ensures StatusLabel(s) == StatusLabel(t) ==> s == t
  {
  }

  datatype Role = Collecteur | Analyste | Directeur | Comite

  /** The name recorded in the audit trail for whoever holds a role. */
  function UserName(r: Role): string
  {
    match r
    case Collecteur => "Agent de Collecte"
    case Analyste => "Analyste de Crédit"
    case Directeur => "Directeur des Risques"
    case Comite => "Membre du Comité"
  }

  /** Each role signs the audit trail under a name of its own. */
  lemma UserNamesIdentifyRoles(r: Role, q: Role)
    ensures UserName(r) == UserName(q) ==> r == q
  {
  }

  datatype AuditEntry = AuditEntry(date: string, user: string, action: string)

  /** The part of a credit dossier the workflow reads and writes; the page
    * data are modelled by each page's own module. */
  datatype Dossier = Dossier(id: string, dossier: string, affaire: string, status: Status,
                             history: seq<AuditEntry>, analysis: Analyse.AnalyseData,
                             scoring: Ponderation.ScoringData)

  const InitialScoring: Ponderation.ScoringData :=
    Ponderation.ScoringData(Ponderation.PerCategory(0.0, 0.0, 0.0, 0.0, 0.0),
                            Ponderation.PerCategory(0.0, 0.0, 0.0, 0.0, 0.0), 0.0, "ACCORD", "")

  // ---------------------------------------------------------------------
  // Dossier numbers

  /** One random part of a dossier number: `floor(100 + r * 900)` for a
    * random `r` in [0, 1). */
  function NumberPart(r: real): (p: int)
    requires 0.0 <= r < 1.0
    ensures 100 <= p <= 999
  {
    (100.0 + r * 900.0).Floor
  }

  function Digit(d: int): char
    requires 0 <= d <= 9
  {
    ('0' as int + d) as char
  }

  function DigitValue(c: char): int
  {
    c as int - '0' as int
  }

  function ThreeDigits(n: int): (s: string)
    requires 100 <= n <= 999
    ensures |s| == 3 && forall i :: 0 <= i < 3 ==> '0' <= s[i] <= '9'
  {
    [Digit(n / 100), Digit(n / 10 % 10), Digit(n % 10)]
  }

  /** The three parts written out and joined with '-'. */
  function DossierNumber(a: int, b: int, c: int): (id: string)
    requires 100 <= a <= 999 && 100 <= b <= 999 && 100 <= c <= 999
    ensures |id| == 11 && id[3] == '-' && id[7] == '-'
  {
    ThreeDigits(a) + "-" + ThreeDigits(b) + "-" + ThreeDigits(c)
  }

  function ReadThree(s: string): int
    requires |s| == 3
  {
    DigitValue(s[0]) * 100 + DigitValue(s[1]) * 10 + DigitValue(s[2])
  }

  /** Reading the three parts back out of a dossier number. */
  function ParseDossierNumber(id: string): Option<(int, int, int)>
  {
    if |id| == 11 && id[3] == '-' && id[7] == '-' then
      Some((ReadThree(id[0..3]), ReadThree(id[4..7]), ReadThree(id[8..11])))
    else None
  }

  lemma ThreeDigitsRoundTrip(n: int)
    requires 100 <= n <= 999
    ensures ReadThree(ThreeDigits(n)) == n
  {
    var q := n / 10;
    assert n == 10 * q + n % 10;
    assert q == 10 * (q / 10) + q % 10;
    assert q / 10 == n / 100;
    var s := ThreeDigits(n);
    assert DigitValue(s[0]) == n / 100;
    assert DigitValue(s[1]) == q % 10;
    assert DigitValue(s[2]) == n % 10;
  }

  /** A dossier number gives back the three parts it was made from, so two
    * numbers made from different parts differ. */
  lemma DossierNumberRoundTrip(a: int, b: int, c: int)
    requires 100 <= a <= 999 && 100 <= b <= 999 && 100 <= c <= 999
    ensures ParseDossierNumber(DossierNumber(a, b, c)) == Some((a, b, c))
  {
    var id := DossierNumber(a, b, c);
    assert id[0..3] == ThreeDigits(a) && id[4..7] == ThreeDigits(b) && id[8..11] == ThreeDigits(c);
    ThreeDigitsRoundTrip(a);
    ThreeDigitsRoundTrip(b);
    ThreeDigitsRoundTrip(c);
  }

  /** A dossier as `handleNewDossier` creates it. */
  function NewDossier(id: string, date: string, user: string): (d: Dossier)
    ensures d.id == id && d.dossier == id && d.status == Nouveau
    ensures d.history == [AuditEntry(date, user, "Création du dossier")]
    ensures d.analysis == Analyse.InitialAnalyse() && d.scoring == InitialScoring
  {
    Dossier(id, id, "ABC", Nouveau, [AuditEntry(date, user, "Création du dossier")],
            Analyse.InitialAnalyse(), InitialScoring)
  }

  // ---------------------------------------------------------------------
  // List updates

  /** `updateDossierStatus` on the list: every dossier with the id takes
    * the new status and gains exactly one audit entry, whatever its
    * status was; every other dossier is left as it was. */
  function UpdateStatus(ds: seq<Dossier>, id: string, status: Status, entry: AuditEntry): (r: seq<Dossier>)
    ensures |r| == |ds|
    ensures forall i :: 0 <= i < |ds| && ds[i].id == id ==>
      r[i].status == status && r[i].history == ds[i].history + [entry]
      && r[i] == ds[i].(status := status, history := r[i].history)
    ensures forall i :: 0 <= i < |ds| && ds[i].id != id ==> r[i] == ds[i]
  {
    seq(|ds|, i requires 0 <= i < |ds| =>
      if ds[i].id == id then ds[i].(status := status, history := ds[i].history + [entry]) else ds[i])
  }

  /** `setDossierData` on the list: the update applies to the dossiers
    * carrying the active id and to no other. */
  function ReplaceActive(ds: seq<Dossier>, id: string, update: Dossier -> Dossier): (r: seq<Dossier>)
    ensures |r| == |ds|
    ensures forall i :: 0 <= i < |ds| ==> r[i] == if ds[i].id == id then update(ds[i]) else ds[i]
  {
    seq(|ds|, i requires 0 <= i < |ds| => if ds[i].id == id then update(ds[i]) else ds[i])
  }

  /** Keeps the dossiers whose status satisfies `keep`, in order. */
  function Filter(ds: seq<Dossier>, keep: Status -> bool): (r: seq<Dossier>)
    ensures forall d :: d in r <==> d in ds && keep(d.status)
    ensures |r| <= |ds|
  {
    if ds == [] then []
    else Filter(ds[..|ds| - 1], keep) + (if keep(ds[|ds| - 1].status) then [ds[|ds| - 1]] else [])
  }

  /** Filtering keeps the list order: the dossiers kept from a joined list
    * are those kept from its first part followed by those kept from the
    * second. */
  lemma {:induction false} FilterKeepsOrder(a: seq<Dossier>, b: seq<Dossier>, keep: Status -> bool)
    ensures Filter(a + b, keep) == Filter(a, keep) + Filter(b, keep)
  {
    if b == [] {
      assert a + b == a;
    } else {
      var last := b[|b| - 1];
      var tail := if keep(last.status) then [last] else [];
      FilterKeepsOrder(a, b[..|b| - 1], keep);
      assert (a + b)[..|a + b| - 1] == a + b[..|b| - 1] && (a + b)[|a + b| - 1] == last;
      assert Filter(a + b, keep) == Filter(a + b[..|b| - 1], keep) + tail;
      assert Filter(b, keep) == Filter(b[..|b| - 1], keep) + tail;
      assert (Filter(a, keep) + Filter(b[..|b| - 1], keep)) + tail == Filter(a, keep) + (Filter(b[..|b| - 1], keep) + tail);
    }
  }

  /** A single dossier is kept exactly when its status passes. */
  lemma FilterOne(d: Dossier, keep: Status -> bool)
    ensures Filter([d], keep) == if keep(d.status) then [d] else []
  {
    assert [d][..0] == [];
  }

  predicate ForCollector(s: Status)
  {
    s == Nouveau || s == RetourCollecte
  }

  predicate ForAnalyst(s: Status)
  {
    s == EnAnalyse || s == RetourAnalyse
  }

  /** The collector's list: new dossiers and those sent back. */
  function CollectorDossiers(ds: seq<Dossier>): seq<Dossier>
  {
    Filter(ds, ForCollector)
  }

  /** The analyst's list: dossiers submitted for analysis or returned by
    * the director. */
  function AnalystDossiers(ds: seq<Dossier>): seq<Dossier>
  {
    Filter(ds, ForAnalyst)
  }

  /** No dossier is on both lists, and a dossier being validated by the
    * director is on neither. */
  lemma ListsAreDisjoint(ds: seq<Dossier>, d: Dossier)
    ensures !(d in CollectorDossiers(ds) && d in AnalystDossiers(ds))
    ensures d in CollectorDossiers(ds) <==> d in ds && (d.status == Nouveau || d.status == RetourCollecte)
    ensures d in AnalystDossiers(ds) <==> d in ds && (d.status == EnAnalyse || d.status == RetourAnalyse)
    ensures d.status == EnValidationDirecteur ==> d !in CollectorDossiers(ds) && d !in AnalystDossiers(ds)
  {
  }

  /** Moving a dossier to a status takes it to the list that status
    * belongs to: after submission for analysis the dossier with that id
    * is with the analyst and no longer with the collector. */
  lemma SubmittedDossierChangesHands(ds: seq<Dossier>, id: string, entry: AuditEntry, i: nat)
    requires i < |ds| && ds[i].id == id
    ensures UpdateStatus(ds, id, EnAnalyse, entry)[i] in AnalystDossiers(UpdateStatus(ds, id, EnAnalyse, entry))
    ensures UpdateStatus(ds, id, EnAnalyse, entry)[i] !in CollectorDossiers(UpdateStatus(ds, id, EnAnalyse, entry))
  {
  }

  // ---------------------------------------------------------------------
  // Loading

  /** What the browser's storage held: nothing or unreadable (None), or a
    * parsed object whose `dossiers` may or may not be a list. */
  datatype Saved = Saved(dossiers: Option<seq<Dossier>>, activeDossierId: Option<string>, activeRole: Option<Role>)

  datatype InitialState = InitialState(dossiers: seq<Dossier>, activeDossierId: Option<string>,
                                       activeRole: Role, showLanding: bool)

  /** `getInitialState`: saved state is used only when it parsed and holds
    * a list of dossiers; an empty id counts as none and a missing role is
    * the collector's. Otherwise the store starts empty on the landing page. */
  function InitialStateOf(saved: Option<Saved>): (s: InitialState)
    ensures saved.None? || saved.value.dossiers.None? ==> s == InitialState([], None, Collecteur, true)
    ensures saved.Some? && saved.value.dossiers.Some? ==>
      s.dossiers == saved.value.dossiers.value && !s.showLanding
      && (s.activeDossierId.Some? <==> saved.value.activeDossierId.Some? && saved.value.activeDossierId.value != "")
      && (s.activeDossierId.Some? ==> s.activeDossierId == saved.value.activeDossierId)
      && s.activeRole == (if saved.value.activeRole.Some? then saved.value.activeRole.value else Collecteur)
  {
    if saved.Some? && saved.value.dossiers.Some? then
      var sv := saved.value;
      InitialState(sv.dossiers.value,
                   if sv.activeDossierId.Some? && sv.activeDossierId.value != "" then sv.activeDossierId else None,
                   if sv.activeRole.Some? then sv.activeRole.value else Collecteur,
                   false)
    else InitialState([], None, Collecteur, true)
  }

  // ---------------------------------------------------------------------
  // The store

  class Store {
    var dossiers: seq<Dossier>
    var activeDossierId: Option<string>
    var activeRole: Role
    var showLanding: bool

    constructor(saved: Option<Saved>)
      ensures dossiers == InitialStateOf(saved).dossiers
      ensures activeDossierId == InitialStateOf(saved).activeDossierId
      ensures activeRole == InitialStateOf(saved).activeRole
      ensures showLanding == InitialStateOf(saved).showLanding
    {
      var s := InitialStateOf(saved);
      dossiers := s.dossiers;
      activeDossierId := s.activeDossierId;
      activeRole := s.activeRole;
      showLanding := s.showLanding;
    }

    /** `currentUser`. */
    function CurrentUser(): string
      reads this
    {
      UserName(activeRole)
    }

    /** An id is open when it is present and not empty. */
    predicate HasActive()
      reads this
    {
      activeDossierId.Some? && activeDossierId.value != ""
    }

    /** `updateDossierStatus`, signed with the current user's name. */
    method UpdateDossierStatus(id: string, status: Status, action: string, date: string)
      modifies this
      ensures dossiers == UpdateStatus(old(dossiers), id, status, AuditEntry(date, old(CurrentUser()), action))
      ensures activeDossierId == old(activeDossierId) && activeRole == old(activeRole)
      ensures showLanding == old(showLanding)
    {
      dossiers := UpdateStatus(dossiers, id, status, AuditEntry(date, CurrentUser(), action));
    }

    /** `setDossierData`: nothing happens without an open dossier. */
    method SetDossierData(update: Dossier -> Dossier)
      modifies this
      ensures !old(HasActive()) ==> dossiers == old(dossiers)
      ensures old(HasActive()) ==> dossiers == ReplaceActive(old(dossiers), old(activeDossierId).value, update)
      ensures activeDossierId == old(activeDossierId) && activeRole == old(activeRole)
      ensures showLanding == old(showLanding)
    {
      if HasActive() {
        dossiers := ReplaceActive(dossiers, activeDossierId.value, update);
      }
    }

    /** `handleNewDossier`: the three random draws come in as parameters.
      * The new dossier goes last and is opened. */
    method NewDossierAction(r1: real, r2: real, r3: real, date: string)
      requires 0.0 <= r1 < 1.0 && 0.0 <= r2 < 1.0 && 0.0 <= r3 < 1.0
      modifies this
      ensures var id := DossierNumber(NumberPart(r1), NumberPart(r2), NumberPart(r3));
        dossiers == old(dossiers) + [NewDossier(id, date, old(CurrentUser()))]
        && activeDossierId == Some(id)
      ensures activeRole == old(activeRole) && showLanding == old(showLanding)
    {
      var id := DossierNumber(NumberPart(r1), NumberPart(r2), NumberPart(r3));
      dossiers := dossiers + [NewDossier(id, date, CurrentUser())];
      activeDossierId := Some(id);
    }

    /** `handleSubmitForAnalysis`: the open dossier goes to the analyst and
      * is closed; nothing happens without an open dossier. */
    method SubmitForAnalysis(date: string)
      modifies this
      ensures !old(HasActive()) ==> dossiers == old(dossiers) && activeDossierId == old(activeDossierId)
      ensures old(HasActive()) ==>
        dossiers == UpdateStatus(old(dossiers), old(activeDossierId).value, EnAnalyse,
                                 AuditEntry(date, old(CurrentUser()), "Soumission à l'analyste"))
        && activeDossierId == None
      ensures activeRole == old(activeRole) && showLanding == old(showLanding)
    {
      if HasActive() {
        UpdateDossierStatus(activeDossierId.value, EnAnalyse, "Soumission à l'analyste", date);
        activeDossierId := None;
      }
    }

    /** The analyst's `handleSendBack` on the dossier `id`: once confirmed,
      * back to the collector, and the analyst returns to the dashboard. */
    method SendBack(id: string, confirmed: bool, date: string)
      modifies this
      ensures !confirmed ==> dossiers == old(dossiers) && activeDossierId == old(activeDossierId)
      ensures confirmed ==>
        dossiers == UpdateStatus(old(dossiers), id, RetourCollecte,
                                 AuditEntry(date, old(CurrentUser()), "Renvoyé au collecteur pour modification"))
        && activeDossierId == None
      ensures activeRole == old(activeRole) && showLanding == old(showLanding)
    {
      if confirmed {
        UpdateDossierStatus(id, RetourCollecte, "Renvoyé au collecteur pour modification", date);
        activeDossierId := None;
      }
    }

    /** The weighting page's `handleSubmitToDirector` on the dossier `id`:
      * once confirmed, on to the director, and back to the dashboard. */
    method SubmitToDirector(id: string, confirmed: bool, date: string)
      modifies this
      ensures !confirmed ==> dossiers == old(dossiers) && activeDossierId == old(activeDossierId)
      ensures confirmed ==>
        dossiers == UpdateStatus(old(dossiers), id, EnValidationDirecteur,
                                 AuditEntry(date, old(CurrentUser()), "Analyse soumise au directeur"))
        && activeDossierId == None
      ensures activeRole == old(activeRole) && showLanding == old(showLanding)
    {
      if confirmed {
        UpdateDossierStatus(id, EnValidationDirecteur, "Analyse soumise au directeur", date);
        activeDossierId := None;
      }
    }
  }

  /** Every status change leaves a trail: the dossiers it touches grow their
    * history by exactly one entry signed by the acting user, and the total
    * number of entries grows by the number of dossiers with that id. */
  lemma {:induction false} StatusChangesAreAudited(ds: seq<Dossier>, id: string, status: Status, entry: AuditEntry)
    ensures HistorySize(UpdateStatus(ds, id, status, entry)) == HistorySize(ds) + CountId(ds, id)
  {
    if ds != [] {
      var r := UpdateStatus(ds, id, status, entry);
      StatusChangesAreAudited(ds[..|ds| - 1], id, status, entry);
      assert r[..|r| - 1] == UpdateStatus(ds[..|ds| - 1], id, status, entry);
    }
  }

  function HistorySize(ds: seq<Dossier>): nat
  {
    if ds == [] then 0 else HistorySize(ds[..|ds| - 1]) + |ds[|ds| - 1].history|
  }

  function CountId(ds: seq<Dossier>, id: string): nat
  {
    if ds == [] then 0 else CountId(ds[..|ds| - 1], id) + (if ds[|ds| - 1].id == id then 1 else 0)
  }

  // ---------------------------------------------------------------------
  // Answers on the risk-analysis pages

  /** The entry a selection stores for a configured factor: the chosen
    * index and the score it earns. */
  function Answer(factor: AnalysisConfig.Factor, selection: int): Analyse.Facteur
  {
    Analyse.Facteur(selection, Analyse.FactorScore(factor, selection))
  }

  /** A selection as it is meant to act: the answer is written into the
    * open dossier's own section of category `c` and nowhere else. A dossier
    * without that section is left as it is. */
  function SelectAnswer(d: Dossier, c: AnalysisConfig.Category, factorKey: string, f: Analyse.Facteur): (r: Dossier)
    ensures r.(analysis := d.analysis) == d && r.analysis.Keys == d.analysis.Keys
    ensures forall c' :: c' in d.analysis && c' != c ==> r.analysis[c'] == d.analysis[c']
    ensures c in d.analysis ==> Analyse.Lookup(r.analysis[c], factorKey) == Some(f)
  {
    if c in d.analysis then
      Analyse.PutLookup(d.analysis[c], factorKey, f, factorKey);
      d.(analysis := d.analysis[c := Analyse.Put(d.analysis[c], factorKey, f)])
    else d
  }

  /** Applied to the open dossier, a selection changes no other dossier;
    * in the open one the factor reads back the answer, every other factor
    * reads as before, and the section total moves by the change in that
    * factor's score. */
  lemma AnswerStaysInItsDossier(ds: seq<Dossier>, id: string, c: AnalysisConfig.Category, factorKey: string,
                                f: Analyse.Facteur, i: int, k: string)
    requires 0 <= i < |ds|
    ensures var r := ReplaceActive(ds, id, d => SelectAnswer(d, c, factorKey, f));
      && (ds[i].id != id ==> r[i] == ds[i])
      && (ds[i].id == id && c in ds[i].analysis ==>
            Analyse.Lookup(r[i].analysis[c], k)
              == if k == factorKey then Some(f) else Analyse.Lookup(ds[i].analysis[c], k))
      && (ds[i].id == id && c in ds[i].analysis && Analyse.DistinctKeys(ds[i].analysis[c]) ==>
            Analyse.SectionTotal(r[i].analysis[c])
              == Analyse.SectionTotal(ds[i].analysis[c]) - Analyse.ScoreOr0(Analyse.Lookup(ds[i].analysis[c], factorKey)) + f.score)
  {
    if ds[i].id == id && c in ds[i].analysis {
      Analyse.PutLookup(ds[i].analysis[c], factorKey, f, k);
      if Analyse.DistinctKeys(ds[i].analysis[c]) {
        Analyse.PutTotal(ds[i].analysis[c], factorKey, f);
      }
    }
  }

  /** "Elevé" (index 3) for succession, the fifth entrepreneur factor. */
  const HighSuccession: Analyse.Facteur := Answer(AnalysisConfig.EntrepreneurFactors[4], 3)

  /** Every section of the analysis is blank except the entrepreneur
    * section, which holds the high succession answer. */
  predicate SuccessionAnswered(a: Analyse.AnalyseData)
  {
    && (forall c :: c in a)
    && a[AnalysisConfig.Entrepreneur] == Analyse.Put(Analyse.InitialSection(AnalysisConfig.Entrepreneur), "succession", HighSuccession)
    && (forall c :: c != AnalysisConfig.Entrepreneur ==> a[c] == Analyse.InitialSection(c))
  }

  /** The high succession answer earns the factor's full weight, 10. */
  lemma HighSuccessionScores()
    ensures "succession" in AnalysisConfig.Keys(AnalysisConfig.Config(AnalysisConfig.Entrepreneur).factors)
    ensures HighSuccession.score == 10.0
  {
    assert AnalysisConfig.Keys(AnalysisConfig.Config(AnalysisConfig.Entrepreneur).factors)[4] == "succession";
  }

  /** The blank entrepreneur section with the high succession answer
    * written in totals 10. */
  lemma SuccessionSectionScores()
    ensures Analyse.SectionTotal(Analyse.Put(Analyse.InitialSection(AnalysisConfig.Entrepreneur), "succession", HighSuccession)) == 10.0
  {
    HighSuccessionScores();
    Analyse.InitialSectionIsBlank(AnalysisConfig.Entrepreneur, "succession");
    Analyse.PutTotal(Analyse.InitialSection(AnalysisConfig.Entrepreneur), "succession", HighSuccession);
  }

  /** With 10 on the entrepreneur and 0 elsewhere the weighted total is
    * 10 at the entrepreneur's 15 percent. */
  lemma {:induction false} EntrepreneurOnlyTotal(a: Option<Analyse.AnalyseData>)
    requires Ponderation.CategoryScore(a, AnalysisConfig.Entrepreneur) == 10.0
    requires forall c :: c != AnalysisConfig.Entrepreneur ==> Ponderation.CategoryScore(a, c) == 0.0
    ensures Ponderation.ScoringOf(a).totalScore == 1.5
  {
    var cs := AnalysisConfig.Categories;
    assert cs[..1][..0] == [] && cs[..2][..1] == cs[..1] && cs[..3][..2] == cs[..2];
    assert cs[..4][..3] == cs[..3] && cs[..4] == cs[..5][..4] && cs[..5] == cs;
    assert Ponderation.WeightedTotal(a, cs[..1]) == 1.5;
    assert Ponderation.WeightedTotal(a, cs[..2]) == 1.5;
    assert Ponderation.WeightedTotal(a, cs[..3]) == 1.5;
    assert Ponderation.WeightedTotal(a, cs[..4]) == 1.5;
  }

  /** An analysis holding only the high succession answer scores 10 on the
    * entrepreneur, 0 elsewhere, and 1.5 once weighted. */
  lemma SuccessionAnswerScores(a: Analyse.AnalyseData)
    requires SuccessionAnswered(a)
    ensures Ponderation.CategoryScore(Some(a), AnalysisConfig.Entrepreneur) == 10.0
    ensures Ponderation.ScoringOf(Some(a)).totalScore == 1.5
  {
    SuccessionSectionScores();
    forall c | c != AnalysisConfig.Entrepreneur
      ensures Ponderation.CategoryScore(Some(a), c) == 0.0
    {
      Analyse.InitialSectionIsBlank(c, "");
    }
    EntrepreneurOnlyTotal(Some(a));
  }

  /** The intended behaviour on two new dossiers: the high succession
    * answer given on the first scores 10 there, and the second keeps its
    * blank entrepreneur section, scoring 0. */
  lemma AnswerStaysPut()
    ensures var ds := [NewDossier("111-111-111", "", "Analyste"), NewDossier("222-222-222", "", "Analyste")];
            var r := ReplaceActive(ds, "111-111-111", d => SelectAnswer(d, AnalysisConfig.Entrepreneur, "succession", HighSuccession));
            && Ponderation.CategoryScore(Some(r[0].analysis), AnalysisConfig.Entrepreneur) == 10.0
            && Ponderation.CategoryScore(Some(r[1].analysis), AnalysisConfig.Entrepreneur) == 0.0
  {
    var ds := [NewDossier("111-111-111", "", "Analyste"), NewDossier("222-222-222", "", "Analyste")];
    var r := ReplaceActive(ds, "111-111-111", d => SelectAnswer(d, AnalysisConfig.Entrepreneur, "succession", HighSuccession));
    assert r[1] == ds[1];
    assert SuccessionAnswered(r[0].analysis);
    SuccessionAnswerScores(r[0].analysis);
    Analyse.InitialSectionIsBlank(AnalysisConfig.Entrepreneur, "");
  }

  // ---------------------------------------------------------------------
  // The session-wide initial analysis, as the program shares it

  /** The dossiers of one session as the program holds them. A new dossier
    * is a shallow copy of the initial data, so every dossier created since
    * the application was loaded (the ids in `created`) holds the very
    * section objects of the initial analysis, whose current contents are
    * `template`. Dossiers read back from storage own their sections. */
  datatype Session = Session(dossiers: seq<Dossier>, created: set<string>, template: Analyse.AnalyseData)

  /** The analysis dossier `i` shows. */
  function AnalysisShown(s: Session, i: int): Analyse.AnalyseData
    requires 0 <= i < |s.dossiers|
  {
    if s.dossiers[i].id in s.created then s.template else s.dossiers[i].analysis
  }

  /** The session `getInitialState` starts: the stored dossiers, each with
    * its own analysis, and the initial analysis as declared. */
  function StartSession(loaded: seq<Dossier>): (s: Session)
    ensures s.dossiers == loaded
    ensures forall i :: 0 <= i < |loaded| ==> AnalysisShown(s, i) == loaded[i].analysis
    ensures s.template == Analyse.InitialAnalyse()
  {
    Session(loaded, {}, Analyse.InitialAnalyse())
  }

  /** `handleNewDossier` as written: the new dossier shows the shared
    * sections, with whatever answers they hold by now. */
  function NewDossierAsWritten(s: Session, id: string, date: string, user: string): (r: Session)
    ensures |r.dossiers| == |s.dossiers| + 1 && r.dossiers[..|s.dossiers|] == s.dossiers
    ensures AnalysisShown(r, |s.dossiers|) == s.template && r.template == s.template
    ensures forall i :: 0 <= i < |s.dossiers| && s.dossiers[i].id != id ==> AnalysisShown(r, i) == AnalysisShown(s, i)
  {
    Session(s.dossiers + [NewDossier(id, date, user).(analysis := s.template)], s.created + {id}, s.template)
  }

  /** `handleSelectionChange` as written: on a dossier created in the
    * session the answer lands in the shared section; on a stored dossier,
    * in its own. A stored dossier never sees another dossier's answer. */
  function SelectionAsWritten(s: Session, id: string, c: AnalysisConfig.Category, factorKey: string,
                              f: Analyse.Facteur): (r: Session)
    ensures |r.dossiers| == |s.dossiers| && r.created == s.created
    ensures forall i :: 0 <= i < |s.dossiers| && s.dossiers[i].id != id && s.dossiers[i].id !in s.created ==>
      AnalysisShown(r, i) == AnalysisShown(s, i)
  {
    if id in s.created then
      if c in s.template then s.(template := s.template[c := Analyse.Put(s.template[c], factorKey, f)]) else s
    else
      s.(dossiers := ReplaceActive(s.dossiers, id, d => SelectAnswer(d, c, factorKey, f)))
  }

  /** As written, an answer given on a dossier created in the session shows
    * in every dossier created in the session, whichever was open: each of
    * them shows the shared sections with the answer written in. */
  lemma AnswerReachesEveryCreatedDossier(s: Session, id: string, c: AnalysisConfig.Category, factorKey: string,
                                         f: Analyse.Facteur, j: int)
    requires id in s.created && c in s.template
    requires 0 <= j < |s.dossiers| && s.dossiers[j].id in s.created
    ensures AnalysisShown(SelectionAsWritten(s, id, c, factorKey, f), j)
              == s.template[c := Analyse.Put(s.template[c], factorKey, f)]
    ensures Analyse.Lookup(AnalysisShown(SelectionAsWritten(s, id, c, factorKey, f), j)[c], factorKey) == Some(f)
  {
    Analyse.PutLookup(s.template[c], factorKey, f, factorKey);
  }

  /** Two dossiers created in a freshly loaded session are both on the
    * shared sections, which still hold the initial analysis. */
  lemma TwoNewDossiers(a: string, b: string, date: string, user: string)
    ensures var s2 := NewDossierAsWritten(NewDossierAsWritten(StartSession([]), a, date, user), b, date, user);
            && |s2.dossiers| == 2 && s2.dossiers[0].id == a && a in s2.created
            && s2.dossiers[1].id in s2.created && s2.template == Analyse.InitialAnalyse()
  {
  }

  /** The shared sections once the high succession answer is written
    * into the initial analysis. */
  lemma SuccessionTemplate()
    ensures SuccessionAnswered(Analyse.InitialAnalyse()[AnalysisConfig.Entrepreneur :=
              Analyse.Put(Analyse.InitialSection(AnalysisConfig.Entrepreneur), "succession", HighSuccession)])
  {
  }

  /** The leak, whatever the dossier numbers: two dossiers are created in a
    * freshly loaded session and the high succession answer is given on the
    * first. The second, never opened, then scores 10 on the entrepreneur
    * instead of 0 and 1.5 in total, and a third dossier created afterwards
    * starts with the same answer. */
  lemma SharedAnswerLeaks(a: string, b: string, c: string, date: string, user: string)
    ensures var s2 := NewDossierAsWritten(NewDossierAsWritten(StartSession([]), a, date, user), b, date, user);
            var s3 := SelectionAsWritten(s2, a, AnalysisConfig.Entrepreneur, "succession", HighSuccession);
            var s4 := NewDossierAsWritten(s3, c, date, user);
            && Ponderation.CategoryScore(Some(AnalysisShown(s2, 1)), AnalysisConfig.Entrepreneur) == 0.0
            && Ponderation.CategoryScore(Some(AnalysisShown(s3, 1)), AnalysisConfig.Entrepreneur) == 10.0
            && Ponderation.ScoringOf(Some(AnalysisShown(s3, 1))).totalScore == 1.5
            && Ponderation.CategoryScore(Some(AnalysisShown(s4, 2)), AnalysisConfig.Entrepreneur) == 10.0
  {
    var e := AnalysisConfig.Entrepreneur;
    var s2 := NewDossierAsWritten(NewDossierAsWritten(StartSession([]), a, date, user), b, date, user);
    TwoNewDossiers(a, b, date, user);
    Analyse.InitialSectionIsBlank(e, "");
    AnswerReachesEveryCreatedDossier(s2, a, e, "succession", HighSuccession, 1);
    SuccessionTemplate();
    SuccessionAnswerScores(AnalysisShown(SelectionAsWritten(s2, a, e, "succession", HighSuccession), 1));
  }

  // ---------------------------------------------------------------------
  // The analyst's tabs

  datatype AnalysisTab = EntrepreneurTab | EntrepriseTab | ActiviteTab | CashFlowTab | HistoriqueTab | PonderationTab

  const AnalysisTabsOrder: seq<AnalysisTab> :=
    [EntrepreneurTab, EntrepriseTab, ActiviteTab, CashFlowTab, HistoriqueTab, PonderationTab]

  function TabIndex(t: AnalysisTab): (i: nat)
    ensures i < |AnalysisTabsOrder| && AnalysisTabsOrder[i] == t
  {
    match t
    case EntrepreneurTab => 0
    case EntrepriseTab => 1
    case ActiviteTab => 2
    case CashFlowTab => 3
    case HistoriqueTab => 4
    case PonderationTab => 5
  }

  /** The tab `handleNextAnalysis` moves to. */
  function NextAnalysisTab(t: AnalysisTab): AnalysisTab
  {
    var i := TabIndex(t);
    if i < |AnalysisTabsOrder| - 1 then AnalysisTabsOrder[i + 1] else t
  }

  /** "Next" moves one step along the tab order and stays on the weighting
    * tab, which is last; five steps reach it from any tab. */
  lemma NextAnalysisTabSteps(t: AnalysisTab)
    ensures t != PonderationTab ==> TabIndex(NextAnalysisTab(t)) == TabIndex(t) + 1
    ensures NextAnalysisTab(PonderationTab) == PonderationTab
    ensures NextAnalysisTab(NextAnalysisTab(NextAnalysisTab(NextAnalysisTab(NextAnalysisTab(t))))) == PonderationTab
  {
  }

  /** The tab the analyst view shows. */
  class AnalystTabs {
    var analysisTab: AnalysisTab

    constructor()
      ensures analysisTab == EntrepreneurTab
    {
      analysisTab := EntrepreneurTab;
    }

    /** `handleNextAnalysis`. */
    method HandleNextAnalysis()
      modifies this
      ensures analysisTab == NextAnalysisTab(old(analysisTab))
    {
      var i := TabIndex(analysisTab);
      if i < |AnalysisTabsOrder| - 1 {
        analysisTab := AnalysisTabsOrder[i + 1];
      }
    }
  }
}
