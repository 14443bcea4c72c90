/** The analyst's answers: for every factor of a category, the index of the
  * option chosen and the score it earned. */
module Analyse {
  import opened Base
  import opened AnalysisConfig

  datatype Facteur = Facteur(selection: int, score: real)

  /** One category's answers, keyed by factor key, in the order the keys
    * were first written (the iteration order of the stored object). */
  type Section = seq<(string, Facteur)>

  /** The answers of every category present in a dossier. */
  type AnalyseData = map<Category, Section>

  predicate DistinctKeys(s: Section)
  {
    forall i, j :: 0 <= i < j < |s| ==> s[i].0 != s[j].0
  }

  function KeysOf(s: Section): (ks: seq<string>)
    ensures |ks| == |s| && forall i :: 0 <= i < |s| ==> ks[i] == s[i].0
  {
    if s == [] then [] else [s[0].0] + KeysOf(s[1..])
  }

  function Lookup(s: Section, key: string): (r: Option<Facteur>)
    ensures r.None? <==> key !in KeysOf(s)
  {
    if s == [] then None
    else if s[0].0 == key then Some(s[0].1)
    else
      var r := Lookup(s[1..], key);
      assert KeysOf(s) == [s[0].0] + KeysOf(s[1..]);
      r
  }

  /** Writing `section[key] = f`: an existing entry is replaced where it
    * stands, a new key goes at the end. */
  function Put(s: Section, key: string, f: Facteur): (r: Section)
    ensures KeysOf(r) == if key in KeysOf(s) then KeysOf(s) else KeysOf(s) + [key]
  {
    if s == [] then
      [(key, f)]
    else if s[0].0 == key then
      assert KeysOf([(key, f)] + s[1..]) == [key] + KeysOf(([(key, f)] + s[1..])[1..]);
      assert ([(key, f)] + s[1..])[1..] == s[1..];
      [(key, f)] + s[1..]
    else
      var rest := Put(s[1..], key, f);
      assert KeysOf([s[0]] + rest) == [s[0].0] + KeysOf(([s[0]] + rest)[1..]);
      assert ([s[0]] + rest)[1..] == rest;
      [s[0]] + rest
  }

  /** After writing `key`'s entry, `key` reads back the new answer and every
    * other key reads as before. */
  lemma {:induction false} PutLookup(s: Section, key: string, f: Facteur, k: string)
    ensures Lookup(Put(s, key, f), k) == if k == key then Some(f) else Lookup(s, k)
  {
    if s != [] {
      if s[0].0 == key {
        assert ([(key, f)] + s[1..])[1..] == s[1..];
      } else {
        PutLookup(s[1..], key, f, k);
        assert ([s[0]] + Put(s[1..], key, f))[1..] == Put(s[1..], key, f);
      }
    }
  }

  /** Writing an entry never introduces a repeated key. */
  lemma PutKeepsKeysDistinct(s: Section, key: string, f: Facteur)
    requires DistinctKeys(s)
    ensures DistinctKeys(Put(s, key, f))
  {
    var r, ks, ks' := Put(s, key, f), KeysOf(s), KeysOf(Put(s, key, f));
    forall i, j | 0 <= i < j < |r|
      ensures r[i].0 != r[j].0
    {
      assert r[i].0 == ks'[i] == ks[i] == s[i].0;
      if j < |s| {
        assert r[j].0 == ks'[j] == ks[j] == s[j].0;
      } else {
        assert key !in ks && r[j].0 == ks'[j] == key;
      }
    }
  }

  /** The sum of the stored scores of a section. */
  function SectionTotal(s: Section): real
  {
    if s == [] then 0.0 else s[0].1.score + SectionTotal(s[1..])
  }

  function ScoreOr0(f: Option<Facteur>): real
  {
    if f.Some? then f.value.score else 0.0
  }

  /** In a section without repeated keys, writing one factor's entry moves
    * the total by exactly the change in that factor's score. */
  lemma {:induction false} PutTotal(s: Section, key: string, f: Facteur)
    requires DistinctKeys(s)
    ensures SectionTotal(Put(s, key, f)) == SectionTotal(s) - ScoreOr0(Lookup(s, key)) + f.score
  {
    if s != [] && s[0].0 != key {
      assert DistinctKeys(s[1..]) by {
        assert forall i :: 1 <= i < |s| ==> s[i] == s[1..][i - 1];
      }
      PutTotal(s[1..], key, f);
      assert Put(s, key, f)[1..] == Put(s[1..], key, f);
    } else if s != [] {
      assert Lookup(s[1..], key).None? by {
        assert forall i :: 1 <= i < |s| ==> s[i] == s[1..][i - 1];
      }
    }
  }

  /** The score of a factor for the option at `selection`: the option's
    * value as a percentage of the factor's weight, nothing for an index
    * outside the option list. */
  function FactorScore(f: Factor, selection: int): real
  {
    var value := if 0 <= selection < |f.options| then f.options[selection].value else 0;
    (value as real / 100.0) * (f.ponderation as real)
  }

  /** For any configured factor, a valid choice scores between 0 and the
    * factor's weight, choosing a higher option never scores less, the top
    * option earns the full weight, and an out-of-range index scores 0. */
  lemma FactorScoreRange(f: Factor, i: int, j: int)
    requires f.options == Scale && f.ponderation >= 0
    ensures 0 <= i < |f.options| ==> 0.0 <= FactorScore(f, i) <= f.ponderation as real
    ensures 0 <= i <= j < |f.options| ==> FactorScore(f, i) <= FactorScore(f, j)
    ensures FactorScore(f, |f.options| - 1) == f.ponderation as real
    ensures !(0 <= i < |f.options|) ==> FactorScore(f, i) == 0.0
  {
    if 0 <= i < |Scale| {
      ScaleProduct(Scale[i].value, f.ponderation);
    }
    if 0 <= i < j < |Scale| {
      ScaleMonotone(Scale[i].value, Scale[j].value, f.ponderation);
    }
  }

  /** Every configured factor offers the shared scale and has a weight of
    * at least 0, so the bounds above apply to each of them. */
  lemma ConfiguredFactorsScore(c: Category, f: Factor)
    requires f in Config(c).factors
    ensures f.options == Scale && f.ponderation >= 0
  {
    ScaleIsShared(c);
    ValuesAndWeightsInRange(c);
  }

  lemma ScaleProduct(v: int, w: int)
    requires 0 <= v <= 100 && w >= 0
    ensures 0.0 <= (v as real / 100.0) * (w as real) <= w as real
  {
  }

  lemma ScaleMonotone(v: int, v': int, w: int)
    requires v <= v' && w >= 0
    ensures (v as real / 100.0) * (w as real) <= (v' as real / 100.0) * (w as real)
  {
  }

  /** A fresh category section: every configured factor, unanswered
    * (selection -1) and scoring 0. */
  function InitialSection(c: Category): (s: Section)
    ensures |s| == |Config(c).factors|
    ensures forall i :: 0 <= i < |s| ==> s[i] == (Config(c).factors[i].key, Facteur(-1, 0.0))
  {
    var fs := Config(c).factors;
    seq(|fs|, i requires 0 <= i < |fs| => (fs[i].key, Facteur(-1, 0.0)))
  }

  /** The analysis a new dossier starts with: all five categories, fresh. */
  function InitialAnalyse(): (a: AnalyseData)
    ensures forall c :: c in a && a[c] == InitialSection(c)
  {
    EveryCategoryListed();
    map c: Category | c in Categories :: InitialSection(c)
  }

  lemma {:induction false} ZeroScoresTotalZero(s: Section)
    requires forall i :: 0 <= i < |s| ==> s[i].1.score == 0.0
    ensures SectionTotal(s) == 0.0
  {
    if s != [] {
      ZeroScoresTotalZero(s[1..]);
    }
  }

  /** A fresh section has one entry per configured factor, no key twice,
    * every key found unanswered, and a total of 0. */
  lemma InitialSectionIsBlank(c: Category, key: string)
    ensures DistinctKeys(InitialSection(c))
    ensures SectionTotal(InitialSection(c)) == 0.0
    ensures key in Keys(Config(c).factors) ==> Lookup(InitialSection(c), key) == Some(Facteur(-1, 0.0))
    ensures key !in Keys(Config(c).factors) ==> Lookup(InitialSection(c), key).None?
  {
    KeysAreDistinct(c);
    ZeroScoresTotalZero(InitialSection(c));
    assert KeysOf(InitialSection(c)) == Keys(Config(c).factors);
    LookupUniform(InitialSection(c), key, Facteur(-1, 0.0));
  }

  lemma {:induction false} LookupUniform(s: Section, key: string, x: Facteur)
    requires forall i :: 0 <= i < |s| ==> s[i].1 == x
    ensures key in KeysOf(s) ==> Lookup(s, key) == Some(x)
  {
    if s != [] && s[0].0 != key {
      LookupUniform(s[1..], key, x);
    }
  }

  /** The section object a risk-analysis page edits in place. For a dossier
    * created since the application was loaded, it is the session-wide
    * initial section, shared by every dossier created in the session
    * (`Workflow.Session`); for a dossier read back from storage, the
    * dossier's own. */
  class SectionPage {
    const category: Category
    var section: Section

    ghost predicate Valid()
      reads this
    {
      DistinctKeys(section)
    }

    constructor(category: Category, section: Section)
      requires DistinctKeys(section)
      ensures this.category == category && this.section == section && Valid()
    {
      this.category := category;
      this.section := section;
    }

    /** The footer's total: the stored scores of every entry. */
    function TotalScore(): real
      reads this
    {
      SectionTotal(section)
    }

    /** `handleSelectionChange`: stores the chosen index and the score it
      * earns for one configured factor; every other entry is untouched. */
    method SelectionChange(factorKey: string, selection: int)
      requires Valid() && factorKey in Keys(Config(category).factors)
      modifies this
      ensures Valid()
      ensures section == Put(old(section), factorKey,
                             Facteur(selection, FactorScore(FindFactor(Config(category).factors, factorKey).value, selection)))
      ensures TotalScore() == old(TotalScore()) - ScoreOr0(Lookup(old(section), factorKey))
                              + FactorScore(FindFactor(Config(category).factors, factorKey).value, selection)
    {
      var factor := FindFactor(Config(category).factors, factorKey).value;
      var entry := Facteur(selection, FactorScore(factor, selection));
      PutTotal(section, factorKey, entry);
      PutKeepsKeysDistinct(section, factorKey, entry);
      section := Put(section, factorKey, entry);
    }
  }
}
