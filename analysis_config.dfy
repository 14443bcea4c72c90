/** The risk-analysis grid: the four-step option scale, the weighted
  * factors of each of the five risk categories, and the institutional
  * weight of each category. The descriptive guidance text attached to
  * each factor is display copy and is not modelled. */
module AnalysisConfig {
  import opened Base

  datatype ScaleOption = ScaleOption(name: string, value: int)

  /** The option list shared by every factor. */
  const Scale: seq<ScaleOption> := [
    ScaleOption("Très Faible", 0), ScaleOption("Faible", 50),
    ScaleOption("Moyen", 75), ScaleOption("Elevé", 100)]

  datatype Factor = Factor(key: string, id: string, name: string, ponderation: int, options: seq<ScaleOption>)

  datatype CategoryConfig = CategoryConfig(title: string, totalPonderation: int, factors: seq<Factor>)

  datatype Category = Entrepreneur | Entreprise | Activite | CashFlow | Historique

  /** The categories in the order the weighting page lists its scores. */
  const Categories: seq<Category> := [Entrepreneur, Entreprise, Activite, Historique, CashFlow]

  const EntrepreneurFactors: seq<Factor> := [
    Factor("situationFamiliale", "1", "Situation familiale", 2, Scale),
    Factor("niveauEtude", "2", "Niveau d'étude, spécialité, diplôme et autres", 3, Scale),
    Factor("typeHabitation", "3", "Type d'habitation", 5, Scale),
    Factor("nbEnfants", "4", "Nombre d'enfants à charge", 5, Scale),
    Factor("succession", "5", "Succession", 10, Scale),
    Factor("expGlobale", "6", "Expérience globale dans le secteur", 10, Scale),
    Factor("expPro", "7", "Expérience professionnelle", 5, Scale),
    Factor("envFamilial", "8", "Environnement familial", 5, Scale),
    Factor("compManagement", "9", "Compétence en Management", 5, Scale),
    Factor("histBancaire", "10", "Historique bancaire", 10, Scale),
    Factor("histCredit", "11", "Historique de crédit", 15, Scale),
    Factor("autresAffaires", "12", "Autres affaires détenues par le demandeur", 5, Scale),
    Factor("surfacePatrimoniale", "13", "Surface patrimoniale totale", 20, Scale)]

  const EntrepriseFactors: seq<Factor> := [
    Factor("locaux", "1", "Locaux d'exploitation", 15, Scale),
    Factor("repartitionCapital", "2", "Evolution de la répartition du capital", 10, Scale),
    Factor("dirigeants", "3", "Dirigeants de l'entreprise", 10, Scale),
    Factor("autresAffaires", "4", "Autres affaires détenues par l'entreprise", 10, Scale),
    Factor("biensUtilises", "5", "Biens utilisés par l'entreprise", 20, Scale),
    Factor("moyensHumains", "6", "Moyens humains", 20, Scale),
    Factor("organisation", "7", "Organisation et management", 25, Scale)]

  const ActiviteFactors: seq<Factor> := [
    Factor("description", "1", "Description de l'activité", 10, Scale),
    Factor("produitsServices", "2", "Produits / Services", 10, Scale),
    Factor("clients", "3", "Clients", 20, Scale),
    Factor("fournisseurs", "4", "Fournisseurs", 10, Scale),
    Factor("caracteristiquesMarche", "5", "Caractéristiques du marché et positionnement", 20, Scale),
    Factor("politiqueVentes", "6", "Politique des ventes", 10, Scale),
    Factor("gestionProduction", "7", "Gestion de production et des stocks", 10, Scale),
    Factor("politiqueAchats", "8", "Politique des achats", 10, Scale)]

  const CashFlowFactors: seq<Factor> := [
    Factor("calendrier", "1", "Calendrier (3 à 12 mois glissant)", 0, Scale),
    Factor("soldeInitial", "2", "Solde initial", 5, Scale),
    Factor("nbMois", "3", "Nombre de mois à renseigner", 0, Scale),
    Factor("recettes", "4", "Recettes d'exploitation", 25, Scale),
    Factor("depenses", "5", "Dépenses d'exploitation", 20, Scale),
    Factor("autresDepenses", "6", "Autres dépenses d'exploitation", 20, Scale),
    Factor("cashFlowExploitation", "7", "CASH FLOW D'EXPLOITATION (A) - (B)", 0, Scale),
    Factor("cashFlowRisonne", "8", "CASH FLOW D'EXPLOITATION (A) - (B) raisonné", 15, Scale),
    Factor("cashFlowHorsExploitation", "9", "CASH-FLOW HORS EXPLOITATION", 5, Scale),
    Factor("cashFlowMenage", "10", "CASH-FLOW du Ménage", 5, Scale),
    Factor("cashFlowTotal", "11", "CASH-FLOW TOTAL", 0, Scale),
    Factor("soldeCumule", "12", "SOLDE DU CASH-FLOW TOTAL CUMULE", 0, Scale)]

  const HistoriqueFactors: seq<Factor> := [
    Factor("nosLivres", "1", "Historique des comptes dans nos livres (à réaliser par compte)", 60, Scale),
    Factor("autresInstitutions", "2", "Historique des comptes dans les autres institutions (à réaliser par institution)", 40, Scale)]

  /** The configuration of one category; every one declares a total
    * weighting of 100. */
  function Config(c: Category): CategoryConfig
  {
    match c
    case Entrepreneur => CategoryConfig("Risques liés à l'entrepreneur", 100, EntrepreneurFactors)
    case Entreprise => CategoryConfig("Risques liés à l'entreprise", 100, EntrepriseFactors)
    case Activite => CategoryConfig("Risques liés à l'activité", 100, ActiviteFactors)
    case CashFlow => CategoryConfig("Risques liés au cash-flow", 100, CashFlowFactors)
    case Historique => CategoryConfig("Risques liés à l'historique bancaire", 100, HistoriqueFactors)
  }

  /** The weight each category carries in the final score, in percent. */
  function InstitutionalWeight(c: Category): (w: int)
    ensures 0 < w <= 30
  {
    match c
    case Entrepreneur => 15
    case Entreprise => 10
    case Activite => 30
    case Historique => 15
    case CashFlow => 30
  }

  function WeightSum(fs: seq<Factor>): int
  {
    if fs == [] then 0 else WeightSum(fs[..|fs| - 1]) + fs[|fs| - 1].ponderation
  }

  function Keys(fs: seq<Factor>): (ks: seq<string>)
    ensures |ks| == |fs| && forall i :: 0 <= i < |fs| ==> ks[i] == fs[i].key
  {
    seq(|fs|, i requires 0 <= i < |fs| => fs[i].key)
  }

  /** The factor of a category with the given key, if it has one. */
  function FindFactor(fs: seq<Factor>, key: string): (r: Option<Factor>)
    ensures r.Some? <==> key in Keys(fs)
    ensures r.Some? ==> r.value in fs && r.value.key == key
  {
    if fs == [] then None
    else if fs[0].key == key then Some(fs[0])
    else
      var r := FindFactor(fs[1..], key);
      assert Keys(fs) == [fs[0].key] + Keys(fs[1..]);
      r
  }

  /** Every factor of a list offers the shared scale with a weight of at
    * least 0. */
  predicate OnScale(fs: seq<Factor>)
  {
    forall i :: 0 <= i < |fs| ==> fs[i].options == Scale && fs[i].ponderation >= 0
  }

  predicate DistinctFactorKeys(fs: seq<Factor>)
  {
    forall i, j :: 0 <= i < j < |fs| ==> fs[i].key != fs[j].key
  }

  lemma EntrepreneurFactorsWellFormed()
    ensures OnScale(EntrepreneurFactors) && DistinctFactorKeys(EntrepreneurFactors)
  {
  }

  lemma EntrepriseFactorsWellFormed()
    ensures OnScale(EntrepriseFactors) && DistinctFactorKeys(EntrepriseFactors)
  {
  }

  lemma ActiviteFactorsWellFormed()
    ensures OnScale(ActiviteFactors) && DistinctFactorKeys(ActiviteFactors)
  {
  }

  lemma CashFlowFactorsWellFormed()
    ensures OnScale(CashFlowFactors) && DistinctFactorKeys(CashFlowFactors)
  {
  }

  lemma HistoriqueFactorsWellFormed()
    ensures OnScale(HistoriqueFactors) && DistinctFactorKeys(HistoriqueFactors)
  {
  }

  lemma ConfigWellFormed(c: Category)
    ensures OnScale(Config(c).factors) && DistinctFactorKeys(Config(c).factors)
  {
    match c
    case Entrepreneur => EntrepreneurFactorsWellFormed();
    case Entreprise => EntrepriseFactorsWellFormed();
    case Activite => ActiviteFactorsWellFormed();
    case CashFlow => CashFlowFactorsWellFormed();
    case Historique => HistoriqueFactorsWellFormed();
  }

  /** The scale has four options, valued 0, 50, 75 and 100 in increasing
    * order, and every factor of every category offers exactly that scale. */
  lemma ScaleIsShared(c: Category)
    ensures |Scale| == 4 && Scale[0].value == 0 && Scale[1].value == 50
    ensures Scale[2].value == 75 && Scale[3].value == 100
    ensures forall i, j :: 0 <= i < j < |Scale| ==> Scale[i].value < Scale[j].value
    ensures forall f :: f in Config(c).factors ==> f.options == Scale
  {
    ConfigWellFormed(c);
  }

  /** Option values lie between 0 and 100 and weights are never negative. */
  lemma ValuesAndWeightsInRange(c: Category)
    ensures forall o :: o in Scale ==> 0 <= o.value <= 100
    ensures forall f :: f in Config(c).factors ==> f.ponderation >= 0
  {
    ConfigWellFormed(c);
  }

  /** Within a category no two factors share a key. */
  lemma KeysAreDistinct(c: Category)
    ensures var ks := Keys(Config(c).factors);
      forall i, j :: 0 <= i < j < |ks| ==> ks[i] != ks[j]
  {
    ConfigWellFormed(c);
  }

  /** Extending a prefix of a factor list by one factor adds its weight. */
  lemma PrefixStep(fs: seq<Factor>, k: nat)
    requires k < |fs|
    ensures WeightSum(fs[..k + 1]) == WeightSum(fs[..k]) + fs[k].ponderation
  {
    assert fs[..k + 1][..k] == fs[..k];
  }

  /** The factor weights of the entrepreneur, activity and banking-history
    * categories sum to their declared 100; those of the business category
    * sum to 110 and those of the cash-flow category to 95. */
  lemma WeightSums()
    ensures WeightSum(Config(Entrepreneur).factors) == 100 == Config(Entrepreneur).totalPonderation
    ensures WeightSum(Config(Activite).factors) == 100 == Config(Activite).totalPonderation
    ensures WeightSum(Config(Historique).factors) == 100 == Config(Historique).totalPonderation
    ensures WeightSum(Config(Entreprise).factors) == 110 != Config(Entreprise).totalPonderation
    ensures WeightSum(Config(CashFlow).factors) == 95 != Config(CashFlow).totalPonderation
  {
    EntrepreneurWeights();
    ActiviteWeights();
    HistoriqueWeights();
    EntrepriseWeights();
    CashFlowWeights();
  }

  lemma EntrepreneurWeights()
    ensures WeightSum(EntrepreneurFactors) == 100
  {
    var fs := EntrepreneurFactors;
    assert fs[..13] == fs;
    PrefixStep(fs, 0); PrefixStep(fs, 1); PrefixStep(fs, 2); PrefixStep(fs, 3); PrefixStep(fs, 4); PrefixStep(fs, 5);
    PrefixStep(fs, 6); PrefixStep(fs, 7); PrefixStep(fs, 8); PrefixStep(fs, 9); PrefixStep(fs, 10); PrefixStep(fs, 11);
    PrefixStep(fs, 12);
  }

  lemma ActiviteWeights()
    ensures WeightSum(ActiviteFactors) == 100
  {
    var fs := ActiviteFactors;
    assert fs[..8] == fs;
    PrefixStep(fs, 0); PrefixStep(fs, 1); PrefixStep(fs, 2); PrefixStep(fs, 3); PrefixStep(fs, 4); PrefixStep(fs, 5);
    PrefixStep(fs, 6); PrefixStep(fs, 7);
  }

  lemma HistoriqueWeights()
    ensures WeightSum(HistoriqueFactors) == 100
  {
    var fs := HistoriqueFactors;
    assert fs[..2] == fs;
    PrefixStep(fs, 0); PrefixStep(fs, 1);
  }

  lemma EntrepriseWeights()
    ensures WeightSum(EntrepriseFactors) == 110
  {
    var fs := EntrepriseFactors;
    assert fs[..7] == fs;
    PrefixStep(fs, 0); PrefixStep(fs, 1); PrefixStep(fs, 2); PrefixStep(fs, 3); PrefixStep(fs, 4); PrefixStep(fs, 5);
    PrefixStep(fs, 6);
  }

  lemma CashFlowWeights()
    ensures WeightSum(CashFlowFactors) == 95
  {
    var fs := CashFlowFactors;
    assert fs[..12] == fs;
    PrefixStep(fs, 0); PrefixStep(fs, 1); PrefixStep(fs, 2); PrefixStep(fs, 3); PrefixStep(fs, 4); PrefixStep(fs, 5);
    PrefixStep(fs, 6); PrefixStep(fs, 7); PrefixStep(fs, 8); PrefixStep(fs, 9); PrefixStep(fs, 10); PrefixStep(fs, 11);
  }

  function WeightOfAll(cs: seq<Category>): int
  {
    if cs == [] then 0 else WeightOfAll(cs[..|cs| - 1]) + InstitutionalWeight(cs[|cs| - 1])
  }

  lemma CategoryStep(cs: seq<Category>, k: nat)
    requires k < |cs|
    ensures WeightOfAll(cs[..k + 1]) == WeightOfAll(cs[..k]) + InstitutionalWeight(cs[k])
  {
    assert cs[..k + 1][..k] == cs[..k];
  }

  /** The five institutional weights are 15, 10, 30, 15 and 30 and sum to 100. */
  lemma InstitutionalWeightsSumTo100()
    ensures |Categories| == 5 && WeightOfAll(Categories) == 100
  {
    var cs := Categories;
    assert cs[..5] == cs;
    CategoryStep(cs, 0); CategoryStep(cs, 1); CategoryStep(cs, 2); CategoryStep(cs, 3); CategoryStep(cs, 4);
  }

  /** The weighting page lists every category, each once. */
  lemma EveryCategoryListed()
    ensures forall c: Category :: c in Categories
    ensures forall i, j :: 0 <= i < j < |Categories| ==> Categories[i] != Categories[j]
  {
    forall c: Category
      ensures c in Categories
    {
      var cs := Categories;
      assert c == cs[0] || c == cs[1] || c == cs[2] || c == cs[3] || c == cs[4];
    }
  }
}
