/** The weighting page: each category's score is the sum of its stored
  * factor scores, weighted by the category's institutional weight; the
  * weighted total falls into one of four decision bands. */
module Ponderation {
  import opened Base
  import opened AnalysisConfig
  import opened Analyse

  datatype Decision = Accord | AccordAvecReserves | Ajournement | Rejet

  function DecisionLabel(d: Decision): string
  {
    match d
    case Accord => "ACCORD"
    case AccordAvecReserves => "ACCORD AVEC RESERVES"
    case Ajournement => "AJOURNEMENT"
    case Rejet => "REJET"
  }

  /** The bands in increasing order of severity. */
  function Severity(d: Decision): nat
  {
    match d
    case Accord => 0
    case AccordAvecReserves => 1
    case Ajournement => 2
    case Rejet => 3
  }

  /** The band a total falls into; every threshold is a strict `>`. */
  function Decide(total: real): (d: Decision)
    ensures d == Accord <==> total <= 5.0
    ensures d == AccordAvecReserves <==> 5.0 < total <= 15.0
    ensures d == Ajournement <==> 15.0 < total <= 25.0
    ensures d == Rejet <==> 25.0 < total
  {
    if total > 25.0 then Rejet
    else if total > 15.0 then Ajournement
    else if total > 5.0 then AccordAvecReserves
    else Accord
  }

  /** A higher total never earns a milder decision. */
  lemma DecisionIsMonotone(t: real, t': real)
    requires t <= t'
    ensures Severity(Decide(t)) <= Severity(Decide(t'))
  {
  }

  /** A category's score: the sum of its section's stored scores; nothing
    * when the dossier has no analysis or no section for that category. */
  function CategoryScore(analysis: Option<AnalyseData>, c: Category): real
  {
    if analysis.Some? && c in analysis.value then SectionTotal(analysis.value[c]) else 0.0
  }

  function Weighted(analysis: Option<AnalyseData>, c: Category): real
  {
    CategoryScore(analysis, c) * (InstitutionalWeight(c) as real / 100.0)
  }

  /** The sum of the weighted scores of the listed categories, in order. */
  function WeightedTotal(analysis: Option<AnalyseData>, cs: seq<Category>): real
  {
    if cs == [] then 0.0 else WeightedTotal(analysis, cs[..|cs| - 1]) + Weighted(analysis, cs[|cs| - 1])
  }

  /** One number per category, as the page's `scores` and `weightedScores`
    * objects hold them. */
  datatype PerCategory = PerCategory(entrepreneur: real, entreprise: real, activite: real,
                                     historique: real, cashFlow: real)

  function Get(v: PerCategory, c: Category): real
  {
    match c
    case Entrepreneur => v.entrepreneur
    case Entreprise => v.entreprise
    case Activite => v.activite
    case Historique => v.historique
    case CashFlow => v.cashFlow
  }

  function Set(v: PerCategory, c: Category, x: real): (r: PerCategory)
    ensures forall d :: Get(r, d) == if d == c then x else Get(v, d)
  {
    match c
    case Entrepreneur => v.(entrepreneur := x)
    case Entreprise => v.(entreprise := x)
    case Activite => v.(activite := x)
    case Historique => v.(historique := x)
    case CashFlow => v.(cashFlow := x)
  }

  /** The per-category values given by `f`. */
  function Tabulate(f: Category -> real): (r: PerCategory)
    ensures forall c :: Get(r, c) == f(c)
  {
    PerCategory(f(Entrepreneur), f(Entreprise), f(Activite), f(Historique), f(CashFlow))
  }

  lemma PerCategoryExtensional(v: PerCategory, w: PerCategory)
    requires forall c :: Get(v, c) == Get(w, c)
    ensures v == w
  {
    assert Get(v, Entrepreneur) == Get(w, Entrepreneur) && Get(v, Entreprise) == Get(w, Entreprise);
    assert Get(v, Activite) == Get(w, Activite) && Get(v, Historique) == Get(w, Historique);
    assert Get(v, CashFlow) == Get(w, CashFlow);
  }

  datatype Scoring = Scoring(scores: PerCategory, weightedScores: PerCategory, totalScore: real, decision: Decision)

  /** What the weighting page shows for a dossier's analysis. */
  function ScoringOf(analysis: Option<AnalyseData>): Scoring
  {
    var total := WeightedTotal(analysis, Categories);
    Scoring(Tabulate(c => CategoryScore(analysis, c)), Tabulate(c => Weighted(analysis, c)),
            total, Decide(total))
  }

  /** `calculatedScores`: every category starts at 0 and is overwritten when
    * the dossier has a section for it; the weighted scores are then added
    * up and the decision is raised threshold by threshold. */
  method CalculatedScores(analysis: Option<AnalyseData>) returns (r: Scoring)
    ensures r == ScoringOf(analysis)
  {
    EveryCategoryListed();
    var scores, weightedScores := CategoryScores(analysis, Categories);
    PerCategoryExtensional(scores, Tabulate(c => CategoryScore(analysis, c)));
    PerCategoryExtensional(weightedScores, Tabulate(c => Weighted(analysis, c)));
    var totalScore := SumWeighted(analysis, weightedScores);
    var decision := Accord;
    if totalScore > 5.0 {
      decision := AccordAvecReserves;
    }
    if totalScore > 15.0 {
      decision := Ajournement;
    }
    if totalScore > 25.0 {
      decision := Rejet;
    }
    r := Scoring(scores, weightedScores, totalScore, decision);
  }

  /** The loop over the categories. */
  method CategoryScores(analysis: Option<AnalyseData>, cs: seq<Category>)
    returns (scores: PerCategory, weightedScores: PerCategory)
    requires forall i, j :: 0 <= i < j < |cs| ==> cs[i] != cs[j]
    ensures forall c :: c in cs ==> Get(scores, c) == CategoryScore(analysis, c)
    ensures forall c :: c in cs ==> Get(weightedScores, c) == Weighted(analysis, c)
  {
    scores := PerCategory(0.0, 0.0, 0.0, 0.0, 0.0);
    weightedScores := scores;
    var i := 0;
    while i < |cs|
      invariant 0 <= i <= |cs|
      invariant forall j :: 0 <= j < i ==> Get(scores, cs[j]) == CategoryScore(analysis, cs[j])
      invariant forall j :: 0 <= j < i ==> Get(weightedScores, cs[j]) == Weighted(analysis, cs[j])
      invariant forall j :: i <= j < |cs| ==> Get(scores, cs[j]) == 0.0 && Get(weightedScores, cs[j]) == 0.0
    {
      var key := cs[i];
      if analysis.Some? && key in analysis.value {
        var total := SectionTotal(analysis.value[key]);
        scores := Set(scores, key, total);
        weightedScores := Set(weightedScores, key, total * (InstitutionalWeight(key) as real / 100.0));
      }
      i := i + 1;
    }
  }

  /** The reduce over the weighted scores, in category order. */
  method SumWeighted(analysis: Option<AnalyseData>, weightedScores: PerCategory) returns (total: real)
    requires forall c :: Get(weightedScores, c) == Weighted(analysis, c)
    ensures total == WeightedTotal(analysis, Categories)
  {
    var cs := Categories;
    total := 0.0;
    var i := 0;
    while i < |cs|
      invariant 0 <= i <= |cs|
      invariant total == WeightedTotal(analysis, cs[..i])
    {
      assert cs[..i + 1][..i] == cs[..i];
      total := total + Get(weightedScores, cs[i]);
      i := i + 1;
    }
    assert cs[..|cs|] == cs;
  }

  lemma {:induction false} WeightedTotalBounds(analysis: Option<AnalyseData>, cs: seq<Category>)
    requires forall c :: 0.0 <= CategoryScore(analysis, c) <= 100.0
    ensures 0.0 <= WeightedTotal(analysis, cs) <= WeightOfAll(cs) as real
  {
    if cs != [] {
      WeightedTotalBounds(analysis, cs[..|cs| - 1]);
      var c := cs[|cs| - 1];
      WeightedBound(CategoryScore(analysis, c), InstitutionalWeight(c));
    }
  }

  lemma WeightedBound(score: real, w: int)
    requires 0.0 <= score <= 100.0 && w >= 0
    ensures 0.0 <= score * (w as real / 100.0) <= w as real
  {
  }

  /** When every category score lies between 0 and 100, so does the total:
    * the institutional weights sum to 100. */
  lemma TotalIsWeightedAverage(analysis: Option<AnalyseData>)
    requires forall c :: 0.0 <= CategoryScore(analysis, c) <= 100.0
    ensures 0.0 <= ScoringOf(analysis).totalScore <= 100.0
  {
    WeightedTotalBounds(analysis, Categories);
    InstitutionalWeightsSumTo100();
  }

  /** Only the stored scores count: two sections whose entries carry the
    * same scores, whatever their selections, have the same total. */
  lemma {:induction false} SelectionsAreNotRescored(s: Section, s': Section)
    requires |s| == |s'| && forall i :: 0 <= i < |s| ==> s[i].1.score == s'[i].1.score
    ensures SectionTotal(s) == SectionTotal(s')
  {
    if s != [] {
      SelectionsAreNotRescored(s[1..], s'[1..]);
    }
  }

  /** A dossier without any analysis, and a fresh dossier whose factors are
    * all unanswered, both score 0 and are granted. */
  lemma UnansweredAnalysisIsGranted()
    ensures ScoringOf(None).totalScore == 0.0 && ScoringOf(None).decision == Accord
    ensures ScoringOf(Some(InitialAnalyse())).totalScore == 0.0
    ensures ScoringOf(Some(InitialAnalyse())).decision == Accord
  {
    forall c: Category
      ensures CategoryScore(Some(InitialAnalyse()), c) == 0.0
    {
      InitialSectionIsBlank(c, "");
    }
    WeightedTotalBounds(None, Categories);
    WeightedTotalBounds(Some(InitialAnalyse()), Categories);
    ZeroTotal(Some(InitialAnalyse()), Categories);
    ZeroTotal(None, Categories);
  }

  lemma {:induction false} ZeroTotal(analysis: Option<AnalyseData>, cs: seq<Category>)
    requires forall c :: CategoryScore(analysis, c) == 0.0
    ensures WeightedTotal(analysis, cs) == 0.0
  {
    if cs != [] {
      ZeroTotal(analysis, cs[..|cs| - 1]);
    }
  }

  /** The stored scoring block of a dossier; only its reasons are edited. */
  datatype ScoringData = ScoringData(scores: PerCategory, weightedScores: PerCategory,
                                     totalScore: real, decision: string, motifs: string)

  /** `handleMotifsChange`. */
  function MotifsChange(data: ScoringData, motifs: string): (r: ScoringData)
    ensures r.motifs == motifs
    ensures r.scores == data.scores && r.weightedScores == data.weightedScores
    ensures r.totalScore == data.totalScore && r.decision == data.decision
  {
    data.(motifs := motifs)
  }
}
