/** The balance sheet (bilan, SYSCOHADA layout): asset lines with gross
  * value and depreciation for N and N-1, liability lines with a net value
  * for N and N-1, the section totals, the year's result recomputed from
  * the income statement, and the gap between total assets and total
  * liabilities. Also the spreadsheet import that fills the lines. */
module Bilan {
  import opened Base
  import CR = CompteDeResultat

  // ---------------------------------------------------------------------
  // Data

  /** Asset line references. */
  const ActifKeys: set<string> := {
    "AB", "AC", "AE", "AF", "AG", "AH", "AJ", "AK", "AL", "AM", "AN", "AP", "AR", "AS", "AW",
    "BA", "BC", "BD", "BE", "BF", "BH", "BI", "BJ", "BQ", "BR", "BS", "BU"}

  /** Liability line references. */
  const PassifKeys: set<string> := {
    "CA", "CB", "CC", "CD", "CE", "CF", "CG", "CH", "CK", "CL", "CM",
    "DA", "DB", "DC", "DD", "DE", "DH", "DI", "DJ", "DK", "DL", "DM", "DN", "DQ", "DR", "DS", "DU"}

  datatype ActifValue = ActifValue(brut: real, amortProv: real, brutN1: real, amortProvN1: real)
  datatype PassifValue = PassifValue(net: real, netN1: real)

  /** The lines, keyed by their reference as the page's objects are. */
  datatype BilanData = BilanData(actif: map<string, ActifValue>, passif: map<string, PassifValue>)

  /** Every key is a reference of its side. */
  predicate WellKeyed(b: BilanData)
  {
    b.actif.Keys <= ActifKeys && b.passif.Keys <= PassifKeys
  }

  /** A net amount for year N and year N-1. */
  datatype Net = Net(n: real, n1: real)

  const NoNet := Net(0.0, 0.0)

  function Add(a: Net, b: Net): Net
  {
    Net(a.n + b.n, a.n1 + b.n1)
  }

  // ---------------------------------------------------------------------
  // Net value of each asset line

  /** Gross value less depreciation, for each year. */
  function NetOf(item: ActifValue): Net
  {
    Net(item.brut - item.amortProv, item.brutN1 - item.amortProvN1)
  }

  /** The net of every asset line, as the page's `for (key in bilan.actif)` loop builds it. */
  function ActifNets(actif: map<string, ActifValue>): map<string, Net>
  {
    map k | k in actif :: NetOf(actif[k])
  }

  /** The loop itself: one entry per asset line, visited in any order. */
  method ComputeActifNets(actif: map<string, ActifValue>) returns (nets: map<string, Net>)
    ensures nets.Keys == actif.Keys
    ensures forall k :: k in actif ==> nets[k] == Net(actif[k].brut - actif[k].amortProv,
                                                      actif[k].brutN1 - actif[k].amortProvN1)
    ensures nets == ActifNets(actif)
  {
    nets := map[];
    var todo := actif.Keys;
    while todo != {}
      invariant todo <= actif.Keys
      invariant nets.Keys == actif.Keys - todo
      invariant forall k :: k in nets ==> nets[k] == NetOf(actif[k])
      decreases todo
    {
      var k :| k in todo;
      var item := actif[k];
      nets := nets[k := Net(item.brut - item.amortProv, item.brutN1 - item.amortProvN1)];
      todo := todo - {k};
    }
  }

  // ---------------------------------------------------------------------
  // Totals

  /** `actifNets[key]?.n || 0` for both years. */
  function NetAt(nets: map<string, Net>, k: string): Net
  {
    if k in nets then nets[k] else NoNet
  }

  /** `calcActifTotal(keys)` */
  function SumNets(nets: map<string, Net>, keys: seq<string>): Net
  {
    if keys == [] then NoNet else Add(SumNets(nets, keys[..|keys| - 1]), NetAt(nets, keys[|keys| - 1]))
  }

  /** `bilan.passif[key]?.net || 0` for both years. */
  function PassifAt(passif: map<string, PassifValue>, k: string): Net
  {
    if k in passif then Net(passif[k].net, passif[k].netN1) else NoNet
  }

  /** `calcPassifTotal(keys)`, without the year's result. */
  function SumPassif(passif: map<string, PassifValue>, keys: seq<string>): Net
  {
    if keys == [] then NoNet else Add(SumPassif(passif, keys[..|keys| - 1]), PassifAt(passif, keys[|keys| - 1]))
  }

  const AAKeys: seq<string> := ["AB", "AC"]
  const ADKeys: seq<string> := ["AE", "AF", "AG", "AH"]
  const AIKeys: seq<string> := ["AJ", "AK", "AL", "AM", "AN"]
  const AQKeys: seq<string> := ["AR", "AS"]
  const BBKeys: seq<string> := ["BC", "BD", "BE", "BF"]
  const BGKeys: seq<string> := ["BH", "BI", "BJ"]
  const BTKeys: seq<string> := ["BQ", "BR", "BS"]
  const CPKeys: seq<string> := ["CA", "CB", "CC", "CD", "CE", "CF", "CG", "CH", "CK", "CL", "CM"]
  const DFKeys: seq<string> := ["DA", "DB", "DC", "DD", "DE"]
  const DPKeys: seq<string> := ["DH", "DI", "DJ", "DK", "DL", "DM", "DN"]
  const DTKeys: seq<string> := ["DQ", "DR", "DS"]

  /** The income-statement products and charges the page sums to recompute the result. */
  const ProduitsKeys: seq<CR.Code> := [CR.TA, CR.TC, CR.TD, CR.TE, CR.TF, CR.TH, CR.TS, CR.TT,
                                       CR.UA, CR.UC, CR.UD, CR.UE, CR.UK, CR.UL, CR.UM, CR.UN]
  const ChargesKeys: seq<CR.Code> := [CR.RA, CR.RB, CR.RC, CR.RD, CR.RE, CR.RH, CR.RI, CR.RJ, CR.RK,
                                      CR.RL, CR.RP, CR.RQ, CR.RS, CR.SA, CR.SC, CR.SD, CR.SK, CR.SL,
                                      CR.SM, CR.SQ, CR.SR]

  datatype Totals = Totals(
    actifNets: map<string, Net>,
    AA: Net, AD: Net, AI: Net, AQ: Net, AZ: Net,
    BB: Net, BG: Net, BK: Net, BT: Net, BZ: Net,
    CP: Net, DF: Net, DG: Net, DP: Net, DT: Net, DZ: Net,
    resNetExo: Net, ecart: real)

  /** `resNetExo`: products minus charges of the income statement, per year. */
  function ResNetExo(v: CR.Values): Net
  {
    var produits := CR.Calc(v, ProduitsKeys);
    var charges := CR.Calc(v, ChargesKeys);
    Net(produits.exerciceN - charges.exerciceN, produits.exerciceN1 - charges.exerciceN1)
  }

  /** The section totals, given the asset nets, the liability lines and the year's result. */
  function Sections(nets: map<string, Net>, passif: map<string, PassifValue>, res: Net): Totals
  {
    var AA := SumNets(nets, AAKeys);
    var AD := SumNets(nets, ADKeys);
    var AI := SumNets(nets, AIKeys);
    var AQ := SumNets(nets, AQKeys);
    var AZ := Add(Add(Add(Add(AA, AD), AI), NetAt(nets, "AP")), AQ);
    var BA := SumNets(nets, ["BA"]);
    var BB := SumNets(nets, BBKeys);
    var BG := SumNets(nets, BGKeys);
    var BK := Add(Add(BA, BB), BG);
    var BT := SumNets(nets, BTKeys);
    var BZ := Add(Add(Add(AZ, BK), BT), NetAt(nets, "BU"));
    var CP := Add(SumPassif(passif, CPKeys), res);
    var DF := SumPassif(passif, DFKeys);
    var DG := Add(CP, DF);
    var DP := SumPassif(passif, DPKeys);
    var DT := SumPassif(passif, DTKeys);
    var DZ := Add(Add(Add(DG, DP), DT), PassifAt(passif, "DU"));
    Totals(nets, AA, AD, AI, AQ, AZ, BB, BG, BK, BT, BZ, CP, DF, DG, DP, DT, DZ, res, BZ.n - DZ.n)
  }

  /** The page's `calculations`. Without income-statement values every total,
    * the result and the gap are zero and no asset net is reported. */
  function Calculations(b: BilanData, cr: Option<CR.Values>): Totals
  {
    match cr
    case None =>
      Totals(map[], NoNet, NoNet, NoNet, NoNet, NoNet, NoNet, NoNet, NoNet, NoNet, NoNet,
             NoNet, NoNet, NoNet, NoNet, NoNet, NoNet, NoNet, 0.0)
    case Some(v) => Sections(ActifNets(b.actif), b.passif, ResNetExo(v))
  }

  // ---------------------------------------------------------------------
  // Edits

  datatype ActifField = Brut | AmortProv
  datatype PassifField = NetN | NetN1

  /** `handleActifChange`: only the current year's gross value or
    * depreciation is editable; a read-only page ignores the edit. */
  function SetActif(b: BilanData, readOnly: bool, key: string, field: ActifField, input: Input): (r: BilanData)
    ensures readOnly ==> r == b
    ensures r.passif == b.passif
    ensures !readOnly ==> r.actif.Keys == b.actif.Keys + {key}
    ensures forall k :: k in b.actif && k != key ==> r.actif[k] == b.actif[k]
    ensures !readOnly && field == Brut ==> r.actif[key].brut == NumberOrZero(input)
    ensures !readOnly && field == AmortProv ==> r.actif[key].amortProv == NumberOrZero(input)
    ensures !readOnly && key in b.actif ==> r.actif[key].brutN1 == b.actif[key].brutN1
    ensures !readOnly && key in b.actif ==> r.actif[key].amortProvN1 == b.actif[key].amortProvN1
    ensures !readOnly && key in b.actif && field == Brut ==> r.actif[key].amortProv == b.actif[key].amortProv
    ensures !readOnly && key in b.actif && field == AmortProv ==> r.actif[key].brut == b.actif[key].brut
  {
    if readOnly then b
    else
      var cell := if key in b.actif then b.actif[key] else ActifValue(0.0, 0.0, 0.0, 0.0);
      var x := NumberOrZero(input);
      b.(actif := b.actif[key := match field case Brut => cell.(brut := x) case AmortProv => cell.(amortProv := x)])
  }

  /** `handlePassifChange`: one year of one liability line. */
  function SetPassif(b: BilanData, readOnly: bool, key: string, field: PassifField, input: Input): (r: BilanData)
    ensures readOnly ==> r == b
    ensures r.actif == b.actif
    ensures !readOnly ==> r.passif.Keys == b.passif.Keys + {key}
    ensures forall k :: k in b.passif && k != key ==> r.passif[k] == b.passif[k]
    ensures !readOnly && field == NetN ==> r.passif[key].net == NumberOrZero(input)
    ensures !readOnly && field == NetN1 ==> r.passif[key].netN1 == NumberOrZero(input)
    ensures !readOnly && key in b.passif && field == NetN ==> r.passif[key].netN1 == b.passif[key].netN1
    ensures !readOnly && key in b.passif && field == NetN1 ==> r.passif[key].net == b.passif[key].net
  {
    if readOnly then b
    else
      var cell := if key in b.passif then b.passif[key] else PassifValue(0.0, 0.0);
      var x := NumberOrZero(input);
      b.(passif := b.passif[key := match field case NetN => cell.(net := x) case NetN1 => cell.(netN1 := x)])
  }

  // ---------------------------------------------------------------------
  // Spreadsheet import

  /** A cell of the imported sheet: empty, or its text (`toString()`) and
    * what `parseFloat` makes of it. */
  datatype Cell = Blank | Filled(text: string, number: Option<real>)

  type SheetRow = seq<Cell>

  /** The white space `String.prototype.trim` removes. */
  predicate IsTrimmed(c: char)
  {
    c == ' ' || c == '\t' || c == '\n' || c == '\r' || c == '\U{000B}' || c == '\U{000C}'
    || c == '\U{00A0}' || c == '\U{1680}' || ('\U{2000}' <= c <= '\U{200A}')
    || c == '\U{2028}' || c == '\U{2029}' || c == '\U{202F}' || c == '\U{205F}'
    || c == '\U{3000}' || c == '\U{FEFF}'
  }

  /** `trim` on the left: the suffix left once the leading blanks are gone. */
  function TrimStart(s: string): (r: string)
    ensures |r| <= |s| && r == s[|s| - |r|..]
    ensures forall j :: 0 <= j < |s| - |r| ==> IsTrimmed(s[j])
    ensures r != [] ==> !IsTrimmed(r[0])
  {
    if s != [] && IsTrimmed(s[0]) then TrimStart(s[1..]) else s
  }

  /** `trim` on the right: the prefix left once the trailing blanks are gone. */
  function TrimEnd(s: string): (r: string)
    ensures |r| <= |s| && r == s[..|r|]
    ensures forall j :: |r| <= j < |s| ==> IsTrimmed(s[j])
    ensures r != [] ==> !IsTrimmed(r[|r| - 1])
  {
    if s != [] && IsTrimmed(s[|s| - 1]) then TrimEnd(s[..|s| - 1]) else s
  }

  /** Upper-casing of the ASCII letters: `a`..`z` become `A`..`Z`, every
    * other character is kept. */
  function Upper(s: string): (r: string)
    ensures |r| == |s|
    ensures forall i :: 0 <= i < |s| && !('a' <= s[i] <= 'z') ==> r[i] == s[i]
    ensures forall i :: 0 <= i < |s| && 'a' <= s[i] <= 'z' ==>
              'A' <= r[i] <= 'Z' && r[i] as int - 'A' as int == s[i] as int - 'a' as int
    ensures forall i :: 0 <= i < |s| ==> !('a' <= r[i] <= 'z') && (IsTrimmed(r[i]) <==> IsTrimmed(s[i]))
  {
    seq(|s|, i requires 0 <= i < |s| => if 'a' <= s[i] <= 'z' then (s[i] as int - 32) as char else s[i])
  }

  /** Leading blanks do not change what `trim` keeps on the left. */
  lemma {:induction false} TrimStartSkipsBlanks(pre: string, x: string)
    requires forall j :: 0 <= j < |pre| ==> IsTrimmed(pre[j])
    ensures TrimStart(pre + x) == TrimStart(x)
  {
    if pre != [] {
      assert (pre + x)[0] == pre[0] && (pre + x)[1..] == pre[1..] + x;
      TrimStartSkipsBlanks(pre[1..], x);
    } else {
      assert pre + x == x;
    }
  }

  /** Trailing blanks do not change what `trim` keeps on the right. */
  lemma {:induction false} TrimEndSkipsBlanks(x: string, post: string)
    requires forall j :: 0 <= j < |post| ==> IsTrimmed(post[j])
    ensures TrimEnd(x + post) == TrimEnd(x)
  {
    if post != [] {
      var n := |post| - 1;
      assert (x + post)[|x + post| - 1] == post[n] && (x + post)[..|x + post| - 1] == x + post[..n];
      TrimEndSkipsBlanks(x, post[..n]);
    } else {
      assert x + post == x;
    }
  }

  /** Trimming the left of `x + post` trims the left of `x`, or of `post`
    * when `x` is all blank. */
  lemma {:induction false} TrimStartOfAppend(x: string, post: string)
    ensures TrimStart(x + post) == if TrimStart(x) != [] then TrimStart(x) + post else TrimStart(post)
  {
    if x != [] {
      if IsTrimmed(x[0]) {
        assert (x + post)[1..] == x[1..] + post;
        TrimStartOfAppend(x[1..], post);
      }
    } else {
      assert x + post == post;
    }
  }

  /** A text made only of blanks trims to nothing. */
  lemma BlanksTrimAway(s: string)
    requires forall j :: 0 <= j < |s| ==> IsTrimmed(s[j])
    ensures TrimStart(s) == []
  {
  }

  /** `trim()` ignores blanks added around a text. */
  lemma TrimIgnoresSurroundingBlanks(pre: string, x: string, post: string)
    requires forall j :: 0 <= j < |pre| ==> IsTrimmed(pre[j])
    requires forall j :: 0 <= j < |post| ==> IsTrimmed(post[j])
    ensures TrimEnd(TrimStart(pre + x + post)) == TrimEnd(TrimStart(x))
  {
    assert pre + x + post == pre + (x + post);
    TrimStartSkipsBlanks(pre, x + post);
    TrimStartOfAppend(x, post);
    if TrimStart(x) != [] {
      TrimEndSkipsBlanks(TrimStart(x), post);
    } else {
      BlanksTrimAway(post);
    }
  }

  /** Upper-casing and trimming on the left can be done in either order. */
  lemma {:induction false} UpperTrimStart(s: string)
    ensures Upper(TrimStart(s)) == TrimStart(Upper(s))
  {
    if s != [] && IsTrimmed(s[0]) {
      assert Upper(s)[1..] == Upper(s[1..]);
      UpperTrimStart(s[1..]);
    }
  }

  /** The same on the right. */
  lemma {:induction false} UpperTrimEnd(s: string)
    ensures Upper(TrimEnd(s)) == TrimEnd(Upper(s))
  {
    if s != [] && IsTrimmed(s[|s| - 1]) {
      assert Upper(s)[..|s| - 1] == Upper(s[..|s| - 1]);
      UpperTrimEnd(s[..|s| - 1]);
    }
  }

  /** `row[1]?.toString().trim().toUpperCase()`, `None` when it is empty or
    * absent. A reference read from the sheet has no surrounding blanks and
    * no lower-case letter. */
  function RowRef(row: SheetRow): (r: Option<string>)
    ensures r.Some? <==> |row| > 1 && row[1].Filled? && TrimEnd(TrimStart(row[1].text)) != ""
    ensures r.Some? ==> var ref := r.value;
      ref != "" && !IsTrimmed(ref[0]) && !IsTrimmed(ref[|ref| - 1])
      && forall i :: 0 <= i < |ref| ==> !('a' <= ref[i] <= 'z')
  {
    if |row| > 1 && row[1].Filled? then
      var ref := Upper(TrimEnd(TrimStart(row[1].text)));
      if ref == "" then None else Some(ref)
    else None
  }

  /** Two cells that differ only in blanks around the text name the same
    * line. */
  lemma RowRefIgnoresSurroundingBlanks(row: SheetRow, row': SheetRow, pre: string, post: string)
    requires |row| > 1 && row[1].Filled? && |row'| > 1 && row'[1].Filled?
    requires row'[1].text == pre + row[1].text + post
    requires forall j :: 0 <= j < |pre| ==> IsTrimmed(pre[j])
    requires forall j :: 0 <= j < |post| ==> IsTrimmed(post[j])
    ensures RowRef(row') == RowRef(row)
  {
    TrimIgnoresSurroundingBlanks(pre, row[1].text, post);
  }

  /** Two cells whose texts agree once upper-cased name the same line. */
  lemma RowRefIgnoresCase(row: SheetRow, row': SheetRow)
    requires |row| > 1 && row[1].Filled? && |row'| > 1 && row'[1].Filled?
    requires Upper(row'[1].text) == Upper(row[1].text)
    ensures RowRef(row') == RowRef(row)
  {
    var t, t' := row[1].text, row'[1].text;
    UpperTrimStart(t);
    UpperTrimEnd(TrimStart(t));
    UpperTrimStart(t');
    UpperTrimEnd(TrimStart(t'));
  }

  /** `parseFloat(row[i]) || 0`; a missing cell reads as 0. */
  function Amount(row: SheetRow, i: nat): real
  {
    if i < |row| && row[i].Filled? then row[i].number.GetOr(0.0) else 0.0
  }

  /** The asset values a row carries: columns 2, 3, 5 and 6. */
  function RowActif(row: SheetRow): ActifValue
  {
    ActifValue(Amount(row, 2), Amount(row, 3), Amount(row, 5), Amount(row, 6))
  }

  /** The liability values a row carries: columns 10 and 11. */
  function RowPassif(row: SheetRow): PassifValue
  {
    PassifValue(Amount(row, 10), Amount(row, 11))
  }

  /** One step of the import: a row naming an existing asset line overwrites
    * it; otherwise one naming an existing liability line overwrites that;
    * any other row is ignored. */
  function ApplyRow(b: BilanData, row: SheetRow): BilanData
  {
    match RowRef(row)
    case None => b
    case Some(ref) =>
      if ref in b.actif then b.(actif := b.actif[ref := RowActif(row)])
      else if ref in b.passif then b.(passif := b.passif[ref := RowPassif(row)])
      else b
  }

  /** The rows applied in sheet order. */
  function ImportAll(b: BilanData, sheet: seq<SheetRow>): BilanData
  {
    if sheet == [] then b else ApplyRow(ImportAll(b, sheet[..|sheet| - 1]), sheet[|sheet| - 1])
  }

  /** The import's `json.forEach` over a copy of the lines; a read-only page
    * imports nothing. */
  method Import(b: BilanData, readOnly: bool, sheet: seq<SheetRow>) returns (r: BilanData)
    ensures readOnly ==> r == b
    ensures !readOnly ==> r == ImportAll(b, sheet)
  {
    r := b;
    if readOnly {
      return;
    }
    var i := 0;
    while i < |sheet|
      invariant 0 <= i <= |sheet|
      invariant r == ImportAll(b, sheet[..i])
    {
      assert sheet[..i + 1][..i] == sheet[..i];
      r := ApplyRow(r, sheet[i]);
      i := i + 1;
    }
    assert sheet[..i] == sheet;
  }

  /** The last row of the sheet that names `k`, if any. */
  function LastNaming(sheet: seq<SheetRow>, k: string): Option<SheetRow>
  {
    if sheet == [] then None
    else if RowRef(sheet[|sheet| - 1]) == Some(k) then Some(sheet[|sheet| - 1])
    else LastNaming(sheet[..|sheet| - 1], k)
  }

  /** The import never adds or removes a line. */
  lemma {:induction false} ImportKeepsLines(b: BilanData, sheet: seq<SheetRow>)
    ensures ImportAll(b, sheet).actif.Keys == b.actif.Keys
    ensures ImportAll(b, sheet).passif.Keys == b.passif.Keys
    ensures WellKeyed(b) ==> WellKeyed(ImportAll(b, sheet))
  {
    if sheet != [] {
      ImportKeepsLines(b, sheet[..|sheet| - 1]);
    }
  }

  /** Each asset line ends up with the values of the last row naming it, or
    * keeps its own when no row names it. */
  lemma {:induction false} ImportActifLastRowWins(b: BilanData, sheet: seq<SheetRow>, k: string)
    requires k in b.actif
    ensures k in ImportAll(b, sheet).actif
    ensures ImportAll(b, sheet).actif[k]
         == match LastNaming(sheet, k) case None => b.actif[k] case Some(row) => RowActif(row)
  {
    ImportKeepsLines(b, sheet);
    if sheet != [] {
      var n := |sheet| - 1;
      ImportActifLastRowWins(b, sheet[..n], k);
      assert ImportAll(b, sheet) == ApplyRow(ImportAll(b, sheet[..n]), sheet[n]);
      if RowRef(sheet[n]) != Some(k) {
        assert LastNaming(sheet, k) == LastNaming(sheet[..n], k);
      }
    }
  }

  /** The same for a liability line whose reference is not also an asset line. */
  lemma {:induction false} ImportPassifLastRowWins(b: BilanData, sheet: seq<SheetRow>, k: string)
    requires k in b.passif && k !in b.actif
    ensures k in ImportAll(b, sheet).passif
    ensures ImportAll(b, sheet).passif[k]
         == match LastNaming(sheet, k) case None => b.passif[k] case Some(row) => RowPassif(row)
  {
    ImportKeepsLines(b, sheet);
    if sheet != [] {
      ImportPassifLastRowWins(b, sheet[..|sheet| - 1], k);
      ImportKeepsLines(b, sheet[..|sheet| - 1]);
    }
  }

  // ---------------------------------------------------------------------
  // Properties of the totals

  lemma {:induction false} SumNetsConcat(nets: map<string, Net>, a: seq<string>, b: seq<string>)
    ensures SumNets(nets, a + b) == Add(SumNets(nets, a), SumNets(nets, b))
    decreases |b|
  {
    if b == [] {
      assert a + b == a;
    } else {
      assert (a + b)[..|a + b| - 1] == a + b[..|b| - 1];
      SumNetsConcat(nets, a, b[..|b| - 1]);
    }
  }

  lemma {:induction false} SumPassifConcat(passif: map<string, PassifValue>, a: seq<string>, b: seq<string>)
    ensures SumPassif(passif, a + b) == Add(SumPassif(passif, a), SumPassif(passif, b))
    decreases |b|
  {
    if b == [] {
      assert a + b == a;
    } else {
      assert (a + b)[..|a + b| - 1] == a + b[..|b| - 1];
      SumPassifConcat(passif, a, b[..|b| - 1]);
    }
  }

  lemma AddRegroup(a: Net, b: Net, c: Net, d: Net)
    ensures Add(a, Add(Add(b, c), d)) == Add(Add(Add(a, b), c), d)
  {
  }

  lemma SingleNet(nets: map<string, Net>, k: string)
    ensures SumNets(nets, [k]) == NetAt(nets, k)
  {
    assert [k][..0] == [];
  }

  lemma SinglePassif(passif: map<string, PassifValue>, k: string)
    ensures SumPassif(passif, [k]) == PassifAt(passif, k)
  {
    assert [k][..0] == [];
  }

  /** Every asset line except AW, in the page's order. */
  const AssetLines: seq<string> := AAKeys + ADKeys + AIKeys + ["AP"] + AQKeys
                                   + ["BA"] + BBKeys + BGKeys + BTKeys + ["BU"]
  /** Every liability line, in the page's order. */
  const LiabilityLines: seq<string> := CPKeys + DFKeys + DPKeys + DTKeys + ["DU"]

  /** Total assets BZ is the sum of the net values of all asset lines but AW. */
  lemma TotalAssetsIsSumOfLines(nets: map<string, Net>, passif: map<string, PassifValue>, res: Net)
    ensures Sections(nets, passif, res).BZ == SumNets(nets, AssetLines)
  {
    var a1 := AAKeys + ADKeys;
    var a2 := a1 + AIKeys;
    var a3 := a2 + ["AP"];
    var a4 := a3 + AQKeys;
    var a5 := a4 + ["BA"];
    var a6 := a5 + BBKeys;
    var a7 := a6 + BGKeys;
    var a8 := a7 + BTKeys;
    SingleNet(nets, "AP");
    SingleNet(nets, "BA");
    SingleNet(nets, "BU");
    var AZ := Add(Add(Add(Add(SumNets(nets, AAKeys), SumNets(nets, ADKeys)), SumNets(nets, AIKeys)),
                      NetAt(nets, "AP")), SumNets(nets, AQKeys));
    var BK := Add(Add(SumNets(nets, ["BA"]), SumNets(nets, BBKeys)), SumNets(nets, BGKeys));
    assert Sections(nets, passif, res).BZ == Add(Add(Add(AZ, BK), SumNets(nets, BTKeys)), NetAt(nets, "BU"));
    SumNetsConcat(nets, AAKeys, ADKeys);
    SumNetsConcat(nets, a1, AIKeys);
    SumNetsConcat(nets, a2, ["AP"]);
    SumNetsConcat(nets, a3, AQKeys);
    assert AZ == SumNets(nets, a4);
    SumNetsConcat(nets, a4, ["BA"]);
    SumNetsConcat(nets, a5, BBKeys);
    SumNetsConcat(nets, a6, BGKeys);
    var BA, BB, BG := SumNets(nets, ["BA"]), SumNets(nets, BBKeys), SumNets(nets, BGKeys);
    assert SumNets(nets, a7) == Add(Add(Add(AZ, BA), BB), BG);
    AddRegroup(AZ, BA, BB, BG);
    SumNetsConcat(nets, a7, BTKeys);
    SumNetsConcat(nets, a8, ["BU"]);
  }

  /** Total liabilities DZ is the sum of all liability lines plus the year's result. */
  lemma TotalLiabilitiesIsSumOfLines(nets: map<string, Net>, passif: map<string, PassifValue>, res: Net)
    ensures Sections(nets, passif, res).DZ == Add(SumPassif(passif, LiabilityLines), res)
  {
    var l1 := CPKeys + DFKeys;
    var l2 := l1 + DPKeys;
    var l3 := l2 + DTKeys;
    SumPassifConcat(passif, CPKeys, DFKeys);
    SumPassifConcat(passif, l1, DPKeys);
    SumPassifConcat(passif, l2, DTKeys);
    SumPassifConcat(passif, l3, ["DU"]);
    SinglePassif(passif, "DU");
    assert LiabilityLines == l3 + ["DU"];
  }

  /** The year's result the balance sheet uses is the income statement's net result UZ. */
  lemma ResultMatchesIncomeStatement(v: CR.Values)
    ensures ResNetExo(v) == Net(CR.Calculations(Some(v)).UZ.exerciceN, CR.Calculations(Some(v)).UZ.exerciceN1)
  {
    assert ProduitsKeys == CR.Products;
    assert ChargesKeys == CR.Charges;
    CR.NetResultIsProductsMinusCharges(v);
  }

  /** The gap is what is left of the assets once the liabilities and the
    * income statement's result are taken out; nothing forces it to zero. */
  lemma GapIsAssetsLessLiabilitiesAndResult(b: BilanData, v: CR.Values)
    ensures Calculations(b, Some(v)).ecart
         == SumNets(ActifNets(b.actif), AssetLines).n - SumPassif(b.passif, LiabilityLines).n
            - CR.Calculations(Some(v)).UZ.exerciceN
  {
    TotalAssetsIsSumOfLines(ActifNets(b.actif), b.passif, ResNetExo(v));
    TotalLiabilitiesIsSumOfLines(ActifNets(b.actif), b.passif, ResNetExo(v));
    ResultMatchesIncomeStatement(v);
  }

  /** No line appears twice in a list. */
  predicate Distinct(keys: seq<string>)
  {
    forall i, j :: 0 <= i < j < |keys| ==> keys[i] != keys[j]
  }

  const FlatAssetLines: seq<string> :=
    ["AB", "AC", "AE", "AF", "AG", "AH", "AJ", "AK", "AL", "AM", "AN", "AP", "AR", "AS",
     "BA", "BC", "BD", "BE", "BF", "BH", "BI", "BJ", "BQ", "BR", "BS", "BU"]

  lemma AssetLinesFlat()
    ensures AssetLines == FlatAssetLines
  {
  }

  lemma FlatAssetLinesDistinct()
    ensures forall i, j :: 0 <= i < j < |FlatAssetLines| ==> FlatAssetLines[i] != FlatAssetLines[j]
  {
  }

  lemma AssetLinesDistinct()
    ensures Distinct(AssetLines)
  {
    AssetLinesFlat();
    FlatAssetLinesDistinct();
  }

  /** Changing the net of one line of a total without repeated lines moves
    * the total by the change when the line belongs to it, and not at all
    * otherwise. */
  lemma {:induction false} SumNetsUpdate(nets: map<string, Net>, keys: seq<string>, k: string, x: Net)
    requires Distinct(keys)
    ensures SumNets(nets[k := x], keys).n
         == SumNets(nets, keys).n + (if k in keys then x.n - NetAt(nets, k).n else 0.0)
  {
    if keys != [] {
      var init := keys[..|keys| - 1];
      assert Distinct(init);
      SumNetsUpdate(nets, init, k, x);
      if keys[|keys| - 1] == k {
        assert k !in init;
      }
      assert k in keys <==> k in init || keys[|keys| - 1] == k;
    }
  }

  /** The gap is reported, never corrected: raising the gross value of any
    * asset line but AW raises the gap by exactly that much. */
  lemma GrossEditMovesGap(b: BilanData, v: CR.Values, key: string, input: Input)
    requires key in AssetLines
    ensures Calculations(SetActif(b, false, key, Brut, input), Some(v)).ecart
         == Calculations(b, Some(v)).ecart + NumberOrZero(input) - (if key in b.actif then b.actif[key].brut else 0.0)
  {
    var b' := SetActif(b, false, key, Brut, input);
    var nets := ActifNets(b.actif);
    var cell := if key in b.actif then b.actif[key] else ActifValue(0.0, 0.0, 0.0, 0.0);
    var x := NetOf(cell.(brut := NumberOrZero(input)));
    assert ActifNets(b'.actif) == nets[key := x];
    GapFollowsAssetNet(nets, b.passif, ResNetExo(v), key, x);
  }

  /** Replacing the net of one asset line moves the gap by the change in
    * that net. */
  lemma GapFollowsAssetNet(nets: map<string, Net>, passif: map<string, PassifValue>, res: Net, key: string, x: Net)
    requires key in AssetLines
    ensures Sections(nets[key := x], passif, res).ecart == Sections(nets, passif, res).ecart + x.n - NetAt(nets, key).n
  {
    TotalAssetsIsSumOfLines(nets, passif, res);
    TotalAssetsIsSumOfLines(nets[key := x], passif, res);
    AssetLinesDistinct();
    SumNetsUpdate(nets, AssetLines, key, x);
  }

  /** Without income-statement values every total and the gap are zero,
    * whatever the lines hold. */
  lemma AbsentIncomeStatementZeroes(b: BilanData)
    ensures var t := Calculations(b, None);
      t.BZ == NoNet && t.DZ == NoNet && t.resNetExo == NoNet && t.ecart == 0.0 && t.actifNets == map[]
  {
  }

  lemma {:induction false} SumNetsIgnores(nets: map<string, Net>, keys: seq<string>, k: string, x: Net)
    requires k !in keys
    ensures SumNets(nets[k := x], keys) == SumNets(nets, keys)
  {
    if keys != [] {
      SumNetsIgnores(nets, keys[..|keys| - 1], k, x);
    }
  }

  /** AW is shown but enters no total. */
  lemma AWEntersNoTotal(b: BilanData, v: CR.Values, a: ActifValue)
    ensures var before, after := Calculations(b, Some(v)), Calculations(b.(actif := b.actif["AW" := a]), Some(v));
      after.BZ == before.BZ && after.DZ == before.DZ && after.ecart == before.ecart
  {
    var nets := ActifNets(b.actif);
    var nets' := ActifNets(b.actif["AW" := a]);
    assert nets' == nets["AW" := NetOf(a)];
    TotalAssetsIsSumOfLines(nets, b.passif, ResNetExo(v));
    TotalAssetsIsSumOfLines(nets', b.passif, ResNetExo(v));
    SumNetsIgnores(nets, AssetLines, "AW", NetOf(a));
  }

  /** Editing a liability line's N-1 value never moves the gap, which is taken on year N. */
  lemma PriorYearEditKeepsGap(b: BilanData, v: CR.Values, key: string, input: Input)
    ensures Calculations(SetPassif(b, false, key, NetN1, input), Some(v)).ecart == Calculations(b, Some(v)).ecart
  {
    var b' := SetPassif(b, false, key, NetN1, input);
    TotalLiabilitiesIsSumOfLines(ActifNets(b.actif), b.passif, ResNetExo(v));
    TotalLiabilitiesIsSumOfLines(ActifNets(b.actif), b'.passif, ResNetExo(v));
    PassifNIgnoresN1(b.passif, b'.passif, LiabilityLines);
  }

  lemma {:induction false} PassifNIgnoresN1(p: map<string, PassifValue>, q: map<string, PassifValue>, keys: seq<string>)
    requires p.Keys <= q.Keys
    requires forall k :: k in q ==> PassifAt(q, k).n == PassifAt(p, k).n
    ensures SumPassif(q, keys).n == SumPassif(p, keys).n
  {
    if keys != [] {
      PassifNIgnoresN1(p, q, keys[..|keys| - 1]);
    }
  }
}
