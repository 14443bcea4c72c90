/** The amortisation schedule (échéancier): a constant-installment loan of
  * `montantPrete` over `duree` months at `tauxAnnuel` percent a year, laid
  * out on a fixed table of 84 monthly rows. */
module Echeancier {
  import opened Base

  /** The table always has this many rows; months past it are not shown. */
  const TableRows := 84

  datatype ScheduleRow = ScheduleRow(mois: int, capitalRestantDu: real, rembtCapital: real,
                                     rembtInteret: real, echeance: real)

  /** The loan's parameters. The duration is a whole number of months. */
  datatype Params = Params(montantPrete: real, duree: int, tauxAnnuel: real)

  /** The schedule is filled only when all three parameters are positive. */
  predicate Active(p: Params)
  {
    p.montantPrete > 0.0 && p.duree > 0 && p.tauxAnnuel > 0.0
  }

  /** `(tauxAnnuel / 100) / 12` */
  function MonthlyRate(tauxAnnuel: real): real
  {
    (tauxAnnuel / 100.0) / 12.0
  }

  function Pow(x: real, n: nat): real
  {
    if n == 0 then 1.0 else Pow(x, n - 1) * x
  }

  /** Powers of a number above one grow strictly and stay above one. */
  lemma {:induction false} PowGrows(x: real, n: nat)
    requires x > 1.0
    ensures Pow(x, n) >= 1.0 && Pow(x, n + 1) > Pow(x, n)
    ensures n > 0 ==> Pow(x, n) > 1.0
  {
    if n > 0 {
      PowGrows(x, n - 1);
    }
    assert Pow(x, n + 1) == Pow(x, n) * x;
    assert Pow(x, n) * x > Pow(x, n) * 1.0;
  }

  lemma {:induction false} PowMonotone(x: real, k: nat, n: nat)
    requires x > 1.0 && k < n
    ensures Pow(x, k) < Pow(x, n)
    decreases n - k
  {
    PowGrows(x, k);
    if k + 1 < n {
      PowMonotone(x, k + 1, n);
    }
  }

  /** The constant installment `P·t·qⁿ / (qⁿ − 1)` with `q = 1 + t`. */
  function Installment(p: Params): real
    requires Active(p)
  {
    var t := MonthlyRate(p.tauxAnnuel);
    PowGrows(1.0 + t, p.duree);
    var f := Pow(1.0 + t, p.duree);
    p.montantPrete * (t * f) / (f - 1.0)
  }

  /** The capital still owed after `k` months on a loan of `P` at monthly
    * rate `t` repaid by installments of `a`: each month the installment less
    * the month's interest comes off. */
  function Balance(P: real, t: real, a: real, k: nat): real
  {
    if k == 0 then P
    else
      var c := Balance(P, t, a, k - 1);
      c - (a - c * t)
  }

  /** `capitalRestant` before month `k + 1`: the amount lent, then each month
    * less the principal repaid, the installment minus the month's interest. */
  function Outstanding(p: Params, k: nat): real
    requires Active(p)
  {
    Balance(p.montantPrete, MonthlyRate(p.tauxAnnuel), Installment(p), k)
  }

  /** The row of month `i + 1` before the loop fills it. */
  function ZeroRow(i: nat): ScheduleRow
  {
    ScheduleRow(i + 1, 0.0, 0.0, 0.0, 0.0)
  }

  /** The row the loop writes for month `i + 1`. */
  function FilledRow(p: Params, i: nat): ScheduleRow
    requires Active(p)
  {
    var c := Outstanding(p, i);
    var interet := c * MonthlyRate(p.tauxAnnuel);
    ScheduleRow(i + 1, c, Installment(p) - interet, interet, Installment(p))
  }

  /** What `calculatedSchedule` holds: 84 rows numbered from 1, the first
    * `duree` of them filled when the loan is active, the others zero. */
  function Schedule(p: Params): (s: seq<ScheduleRow>)
    ensures |s| == TableRows
    ensures forall i :: 0 <= i < TableRows ==> s[i].mois == i + 1
    ensures forall i :: 0 <= i < TableRows && !(Active(p) && i < p.duree) ==> s[i] == ZeroRow(i)
  {
    seq(TableRows, i requires 0 <= i < TableRows => if Active(p) && i < p.duree then FilledRow(p, i) else ZeroRow(i))
  }

  /** `calculatedSchedule`: a table of zero rows, then the loop over the
    * months of the loan, carrying the outstanding capital. */
  method CalculatedSchedule(p: Params) returns (a: array<ScheduleRow>)
    ensures fresh(a) && a[..] == Schedule(p)
  {
    a := new ScheduleRow[TableRows](i => ScheduleRow(i + 1, 0.0, 0.0, 0.0, 0.0));
    assert forall j :: 0 <= j < TableRows ==> a[j] == ZeroRow(j);
    if Active(p) {
      var tauxMensuel := MonthlyRate(p.tauxAnnuel);
      var echeanceConstante := Installment(p);
      var capitalRestant := p.montantPrete;
      var i := 0;
      while i < p.duree && i < TableRows
        invariant 0 <= i <= TableRows && i <= p.duree
        invariant capitalRestant == Outstanding(p, i)
        invariant forall j :: 0 <= j < i ==> a[j] == FilledRow(p, j)
        invariant forall j :: i <= j < TableRows ==> a[j] == ZeroRow(j)
      {
        LoopStep(p, i);
        var interet := capitalRestant * tauxMensuel;
        var capitalRembourse := echeanceConstante - interet;
        a[i] := ScheduleRow(i + 1, capitalRestant, capitalRembourse, interet, echeanceConstante);
        capitalRestant := capitalRestant - capitalRembourse;
        i := i + 1;
      }
    }
  }

  /** One turn of the loop: the row it writes and the capital it carries on. */
  lemma LoopStep(p: Params, i: nat)
    requires Active(p)
    ensures var c, t, a := Outstanding(p, i), MonthlyRate(p.tauxAnnuel), Installment(p);
      FilledRow(p, i) == ScheduleRow(i + 1, c, a - c * t, c * t, a) && Outstanding(p, i + 1) == c - (a - c * t)
  {
  }

  // ---------------------------------------------------------------------
  // The annuity

  /** `A · (qⁿ − 1) = P · t · qⁿ`: the installment undoes its division. */
  lemma InstallmentEquation(p: Params)
    requires Active(p)
    ensures var t := MonthlyRate(p.tauxAnnuel); var f := Pow(1.0 + t, p.duree);
      t > 0.0 && f > 1.0 && Installment(p) * (f - 1.0) == p.montantPrete * t * f
  {
    var t := MonthlyRate(p.tauxAnnuel);
    PowGrows(1.0 + t, p.duree);
    var f := Pow(1.0 + t, p.duree);
    Undivide(p.montantPrete * (t * f), f - 1.0);
  }

  lemma Undivide(x: real, d: real)
    requires d != 0.0
    ensures (x / d) * d == x
  {
  }

  /** With a positive rate the installment exceeds the first month's
    * interest, so every month repays some principal. */
  lemma InstallmentExceedsInterest(p: Params)
    requires Active(p)
    ensures Installment(p) > p.montantPrete * MonthlyRate(p.tauxAnnuel) > 0.0
  {
    var t := MonthlyRate(p.tauxAnnuel);
    PowGrows(1.0 + t, p.duree);
    var f := Pow(1.0 + t, p.duree);
    var pt := p.montantPrete * t;
    var d := f - 1.0;
    var a := Installment(p);
    assert pt > 0.0;
    assert a == pt * f / d;
    assert a * d == pt * f;
    assert (a - pt) * d == pt;
    PositiveFactor(a - pt, d);
  }

  /** A product with a positive factor is positive only if the other is. */
  lemma PositiveFactor(x: real, d: real)
    requires d > 0.0 && x * d > 0.0
    ensures x > 0.0
  {
  }

  /** `Cₖ · t = P·t·qᵏ − a·(qᵏ − 1)` with `q = 1 + t`: the capital owed in
    * closed form, whatever the installment. */
  lemma {:induction false} BalanceTimesRate(P: real, t: real, a: real, k: nat)
    ensures Balance(P, t, a, k) * t == P * t * Pow(1.0 + t, k) - a * (Pow(1.0 + t, k) - 1.0)
  {
    if k > 0 {
      BalanceTimesRate(P, t, a, k - 1);
      var q := 1.0 + t;
      var c := Balance(P, t, a, k - 1);
      var x := Pow(q, k - 1);
      assert Balance(P, t, a, k) == c * q - a;
      assert Pow(q, k) == x * q;
      calc {
        Balance(P, t, a, k) * t;
        (c * q - a) * t;
        (c * t) * q - a * t;
        (P * t * x - a * (x - 1.0)) * q - a * t;
        P * t * (x * q) - a * (x * q - 1.0);
      }
    }
  }

  /** For the installment of an `n`-month annuity, `a·(qⁿ − 1) = P·t·qⁿ`,
    * the capital owed after `k` months is `P·(qⁿ − qᵏ)/(qⁿ − 1)`. */
  lemma BalanceShare(P: real, t: real, a: real, n: nat, k: nat)
    requires t > 0.0 && a * (Pow(1.0 + t, n) - 1.0) == P * t * Pow(1.0 + t, n)
    ensures Balance(P, t, a, k) * (Pow(1.0 + t, n) - 1.0) == P * (Pow(1.0 + t, n) - Pow(1.0 + t, k))
  {
    BalanceTimesRate(P, t, a, k);
    ShareArith(P, t, Pow(1.0 + t, n), Pow(1.0 + t, k), a, Balance(P, t, a, k));
  }

  /** The arithmetic of `BalanceShare`: from `c·t = P·t·g − a·(g − 1)` and
    * `a·(f − 1) = P·t·f`, `c·(f − 1) = P·(f − g)`. */
  lemma ShareArith(P: real, t: real, f: real, g: real, a: real, c: real)
    requires t > 0.0
    requires c * t == P * t * g - a * (g - 1.0) && a * (f - 1.0) == P * t * f
    ensures c * (f - 1.0) == P * (f - g)
  {
    calc {
      (c * (f - 1.0)) * t;
      (c * t) * (f - 1.0);
      (P * t * g - a * (g - 1.0)) * (f - 1.0);
      P * t * g * (f - 1.0) - (a * (f - 1.0)) * (g - 1.0);
      P * t * g * (f - 1.0) - (P * t * f) * (g - 1.0);
      (P * (f - g)) * t;
    }
    CancelRate(c * (f - 1.0), P * (f - g), t);
  }

  lemma CancelRate(x: real, y: real, t: real)
    requires t > 0.0 && x * t == y * t
    ensures x == y
  {
    assert (x - y) * t == 0.0;
  }

  /** `Cₖ · (qⁿ − 1) = P · (qⁿ − qᵏ)`: the capital still owed after `k`
    * months, as a share of the amount lent. */
  lemma OutstandingShare(p: Params, k: nat)
    requires Active(p)
    ensures var q := 1.0 + MonthlyRate(p.tauxAnnuel);
      Outstanding(p, k) * (Pow(q, p.duree) - 1.0) == p.montantPrete * (Pow(q, p.duree) - Pow(q, k))
  {
    InstallmentEquation(p);
    BalanceShare(p.montantPrete, MonthlyRate(p.tauxAnnuel), Installment(p), p.duree, k);
  }

  /** After `duree` months the loan is exactly repaid. */
  lemma LoanIsRepaid(p: Params)
    requires Active(p)
    ensures Outstanding(p, p.duree) == 0.0
  {
    var q := 1.0 + MonthlyRate(p.tauxAnnuel);
    OutstandingShare(p, p.duree);
    PowGrows(q, p.duree);
  }

  /** Before that, the capital owed is positive and falls every month. */
  lemma OutstandingFalls(p: Params, k: nat)
    requires Active(p) && k < p.duree
    ensures 0.0 <= Outstanding(p, k + 1) < Outstanding(p, k)
  {
    InstallmentEquation(p);
    BalanceFalls(p.montantPrete, MonthlyRate(p.tauxAnnuel), Installment(p), p.duree, k);
  }

  /** Under an `n`-month annuity the balance stays non-negative and falls
    * every month before the last. */
  lemma BalanceFalls(P: real, t: real, a: real, n: nat, k: nat)
    requires P > 0.0 && t > 0.0 && k < n
    requires a * (Pow(1.0 + t, n) - 1.0) == P * t * Pow(1.0 + t, n)
    ensures 0.0 <= Balance(P, t, a, k + 1) < Balance(P, t, a, k)
  {
    var q := 1.0 + t;
    BalanceShare(P, t, a, n, k);
    BalanceShare(P, t, a, n, k + 1);
    PowOrder(q, k, n);
    FallsArith(P, Pow(q, n), Pow(q, k), Pow(q, k + 1), Balance(P, t, a, k), Balance(P, t, a, k + 1));
  }

  /** For `k < n`, `1 ≤ qᵏ < qᵏ⁺¹ ≤ qⁿ` and `qⁿ > 1`. */
  lemma PowOrder(q: real, k: nat, n: nat)
    requires q > 1.0 && k < n
    ensures Pow(q, n) > 1.0 && Pow(q, k) < Pow(q, k + 1) <= Pow(q, n)
  {
    PowGrows(q, n);
    PowGrows(q, k);
    if k + 1 < n {
      PowMonotone(q, k + 1, n);
    }
  }

  /** The arithmetic of `OutstandingFalls`: `c = P·(f − g)/(f − 1)` falls as
    * `g` grows towards `f`. */
  lemma FallsArith(P: real, f: real, g0: real, g1: real, c0: real, c1: real)
    requires P > 0.0 && f > 1.0 && g0 < g1 <= f
    requires c0 * (f - 1.0) == P * (f - g0) && c1 * (f - 1.0) == P * (f - g1)
    ensures 0.0 <= c1 < c0
  {
    var d := f - 1.0;
    assert (c0 - c1) * d == c0 * d - c1 * d;
    assert P * (f - g0) - P * (f - g1) == P * (g1 - g0);
    PositiveProduct(P, g1 - g0);
    PositiveFactor(c0 - c1, d);
    if g1 < f {
      PositiveProduct(P, f - g1);
      PositiveFactor(c1, d);
    }
  }

  lemma PositiveProduct(x: real, y: real)
    requires x > 0.0 && y > 0.0
    ensures x * y > 0.0
  {
  }

  /** Every filled row splits the constant installment into positive
    * interest on the capital owed and a positive repayment of principal. */
  lemma FilledRowsArePositive(p: Params, i: nat)
    requires Active(p) && i < p.duree
    ensures var r := FilledRow(p, i);
      r.capitalRestantDu > 0.0 && r.rembtInteret > 0.0 && r.rembtCapital > 0.0 && r.echeance > 0.0
      && r.rembtCapital + r.rembtInteret == r.echeance
      && r.rembtInteret == r.capitalRestantDu * p.tauxAnnuel / 1200.0
  {
    OutstandingFalls(p, i);
    InstallmentExceedsInterest(p);
    var c := Outstanding(p, i);
    var t := MonthlyRate(p.tauxAnnuel);
    assert c * t > 0.0;
    assert Outstanding(p, i + 1) == c - (Installment(p) - c * t);
  }

  // ---------------------------------------------------------------------
  // Totals

  datatype Totals = Totals(rembtCapital: real, rembtInteret: real, echeance: real)

  /** The totals row: sums over the rows whose installment is positive. */
  function TotalsOf(rows: seq<ScheduleRow>): Totals
  {
    if rows == [] then Totals(0.0, 0.0, 0.0)
    else
      var acc := TotalsOf(rows[..|rows| - 1]);
      var row := rows[|rows| - 1];
      if row.echeance > 0.0 then
        Totals(acc.rembtCapital + row.rembtCapital, acc.rembtInteret + row.rembtInteret, acc.echeance + row.echeance)
      else acc
  }

  /** `totals`: the reduce over the table, adding up the rows that belong to
    * the loan. */
  method ComputeTotals(a: array<ScheduleRow>) returns (acc: Totals)
    ensures acc == TotalsOf(a[..])
  {
    acc := Totals(0.0, 0.0, 0.0);
    var i := 0;
    while i < a.Length
      invariant 0 <= i <= a.Length
      invariant acc == TotalsOf(a[..i])
    {
      assert a[..i + 1][..i] == a[..i];
      var row := a[i];
      if row.echeance > 0.0 {
        acc := Totals(acc.rembtCapital + row.rembtCapital, acc.rembtInteret + row.rembtInteret,
                      acc.echeance + row.echeance);
      }
      i := i + 1;
    }
    assert a[..a.Length] == a[..];
  }

  /** Over the first `m` months of an active loan, the totals are: the
    * principal repaid is the capital no longer owed, the installments are
    * `m` times the constant, and interest is the rest. */
  lemma TotalsOfPrefix(p: Params, m: nat)
    requires Active(p) && m <= p.duree && m <= TableRows
    ensures PrefixTotalsHold(p, m, TotalsOf(Schedule(p)[..m]))
  {
    PrefixPrincipal(p, m);
    PrefixInstallments(p, m);
    InterestIsTheRest(Schedule(p)[..m]);
  }

  lemma PrefixPrincipal(p: Params, m: nat)
    requires Active(p) && m <= p.duree && m <= TableRows
    ensures TotalsOf(Schedule(p)[..m]).rembtCapital == p.montantPrete - Outstanding(p, m)
  {
    var owed := OwedSequence(p, m);
    InstallmentExceedsInterest(p);
    ScheduleRowsRepay(p, m);
    PrincipalTelescopes(Schedule(p)[..m], m, owed);
    assert owed[0] == p.montantPrete && owed[m] == Outstanding(p, m);
  }

  lemma PrefixInstallments(p: Params, m: nat)
    requires Active(p) && m <= p.duree && m <= TableRows
    ensures TotalsOf(Schedule(p)[..m]).echeance == (m as real) * Installment(p)
  {
    InstallmentExceedsInterest(p);
    ScheduleRowsRepay(p, m);
    InstallmentsAddUp(Schedule(p)[..m], m, Installment(p));
  }

  /** The capital owed before each of the first `m + 1` months. */
  function OwedSequence(p: Params, m: nat): (owed: seq<real>)
    requires Active(p)
    ensures |owed| == m + 1 && forall i :: 0 <= i <= m ==> owed[i] == Outstanding(p, i)
  {
    seq(m + 1, i requires 0 <= i <= m => Outstanding(p, i))
  }

  /** Each of the first `m` rows charges the installment, split into
    * principal and interest, the principal taking the capital owed from
    * one month to the next. */
  lemma ScheduleRowsRepay(p: Params, m: nat)
    requires Active(p) && m <= p.duree && m <= TableRows
    ensures var rows, a, owed := Schedule(p)[..m], Installment(p), OwedSequence(p, m);
      forall i :: 0 <= i < m ==>
        rows[i].echeance == a && rows[i].rembtCapital + rows[i].rembtInteret == a
        && rows[i].rembtCapital == owed[i] - owed[i + 1]
  {
    var rows, owed := Schedule(p)[..m], OwedSequence(p, m);
    forall i | 0 <= i < m
      ensures rows[i].rembtCapital == owed[i] - owed[i + 1]
    {
      assert rows[i] == FilledRow(p, i);
    }
  }

  /** The totals of the first `m` rows of an active loan. */
  predicate PrefixTotalsHold(p: Params, m: nat, s: Totals)
    requires Active(p)
  {
    s.rembtCapital == p.montantPrete - Outstanding(p, m)
    && s.echeance == (m as real) * Installment(p)
    && s.rembtInteret == s.echeance - s.rembtCapital
  }

  /** Rows whose principal takes the balance from `owed[i]` to
    * `owed[i + 1]`, all counted: together they repay `owed[0] − owed[n]`. */
  lemma {:induction false} PrincipalTelescopes(rows: seq<ScheduleRow>, n: nat, owed: seq<real>)
    requires |rows| == n && |owed| == n + 1
    requires forall i :: 0 <= i < n ==> rows[i].echeance > 0.0 && rows[i].rembtCapital == owed[i] - owed[i + 1]
    ensures TotalsOf(rows).rembtCapital == owed[0] - owed[n]
  {
    if n > 0 {
      PrincipalTelescopes(rows[..n - 1], n - 1, owed[..n]);
    }
  }

  /** `n` rows each charging the positive installment `a` add up to `n·a`. */
  lemma {:induction false} InstallmentsAddUp(rows: seq<ScheduleRow>, n: nat, a: real)
    requires |rows| == n && a > 0.0
    requires forall i :: 0 <= i < n ==> rows[i].echeance == a
    ensures TotalsOf(rows).echeance == (n as real) * a
  {
    if n > 0 {
      InstallmentsAddUp(rows[..n - 1], n - 1, a);
      assert ((n - 1) as real) * a + a == (n as real) * a;
    }
  }

  /** Rows that split their installment into principal and interest have
    * an interest total equal to installments less principal. */
  lemma {:induction false} InterestIsTheRest(rows: seq<ScheduleRow>)
    requires forall i :: 0 <= i < |rows| ==> rows[i].rembtCapital + rows[i].rembtInteret == rows[i].echeance
    ensures TotalsOf(rows).rembtInteret == TotalsOf(rows).echeance - TotalsOf(rows).rembtCapital
  {
    if rows != [] {
      InterestIsTheRest(rows[..|rows| - 1]);
    }
  }

  /** Past the loan's last month the rows add nothing. */
  lemma {:induction false} TotalsIgnoreZeroRows(p: Params, m: nat)
    requires m <= TableRows
    ensures TotalsOf(Schedule(p)[..m]) == TotalsOf(Schedule(p)[..if Active(p) && p.duree < m then p.duree else if Active(p) then m else 0])
  {
    var s := Schedule(p);
    var n := if Active(p) && p.duree < m then p.duree else if Active(p) then m else 0;
    if m > n {
      assert s[..m][..m - 1] == s[..m - 1];
      assert s[m - 1] == ZeroRow(m - 1);
      TotalsIgnoreZeroRows(p, m - 1);
    }
  }

  /** For a loan that fits the table, the principal column adds up to the
    * amount lent, the installments to `duree` constant installments and the
    * interest to their difference; a loan that does not fit shows only its
    * first 84 months; an inactive loan shows zero totals. */
  lemma TotalsRepayTheLoan(p: Params)
    ensures var s := TotalsOf(Schedule(p));
      (Active(p) && p.duree <= TableRows ==>
        s.rembtCapital == p.montantPrete
        && s.echeance == (p.duree as real) * Installment(p)
        && s.rembtInteret == (p.duree as real) * Installment(p) - p.montantPrete)
      && (Active(p) && p.duree > TableRows ==>
        s.rembtCapital == p.montantPrete - Outstanding(p, TableRows)
        && s.echeance == (TableRows as real) * Installment(p))
      && (!Active(p) ==> s == Totals(0.0, 0.0, 0.0))
  {
    if Active(p) && p.duree <= TableRows {
      TotalsOfFittingLoan(p);
    } else if Active(p) {
      TotalsOfLongLoan(p);
    } else {
      TotalsOfInactiveLoan(p);
    }
  }

  lemma TotalsOfFittingLoan(p: Params)
    requires Active(p) && p.duree <= TableRows
    ensures var s := TotalsOf(Schedule(p));
      s.rembtCapital == p.montantPrete
      && s.echeance == (p.duree as real) * Installment(p)
      && s.rembtInteret == (p.duree as real) * Installment(p) - p.montantPrete
  {
    var t := TotalsOf(Schedule(p)[..p.duree]);
    TotalsOfPrefix(p, p.duree);
    LoanTotalsAreItsMonths(p);
    FittingLoanTotals(p, t);
  }

  lemma FittingLoanTotals(p: Params, t: Totals)
    requires Active(p) && PrefixTotalsHold(p, p.duree, t)
    ensures t.rembtCapital == p.montantPrete && t.echeance == (p.duree as real) * Installment(p)
    ensures t.rembtInteret == t.echeance - t.rembtCapital
  {
    LoanIsRepaid(p);
  }

  /** For a loan that fits the table, the totals are those of its months. */
  lemma LoanTotalsAreItsMonths(p: Params)
    requires Active(p) && p.duree <= TableRows
    ensures TotalsOf(Schedule(p)) == TotalsOf(Schedule(p)[..p.duree])
  {
    var s := Schedule(p);
    assert s[..TableRows] == s;
    TotalsIgnoreZeroRows(p, TableRows);
  }

  lemma TotalsOfLongLoan(p: Params)
    requires Active(p) && p.duree > TableRows
    ensures var s := TotalsOf(Schedule(p));
      s.rembtCapital == p.montantPrete - Outstanding(p, TableRows)
      && s.echeance == (TableRows as real) * Installment(p)
  {
    var s := Schedule(p);
    assert s[..TableRows] == s;
    TotalsOfPrefix(p, TableRows);
  }

  lemma TotalsOfInactiveLoan(p: Params)
    requires !Active(p)
    ensures TotalsOf(Schedule(p)) == Totals(0.0, 0.0, 0.0)
  {
    var s := Schedule(p);
    assert s[..TableRows] == s;
    TotalsIgnoreZeroRows(p, TableRows);
  }

  /** `echeanceCalc`: the first row's installment when positive, else 0. */
  function EcheanceCalc(s: seq<ScheduleRow>): real
  {
    if |s| > 0 && s[0].echeance > 0.0 then s[0].echeance else 0.0
  }

  /** The installment shown is the annuity constant for an active loan and
    * zero otherwise. */
  lemma DisplayedInstallment(p: Params)
    ensures EcheanceCalc(Schedule(p)) == if Active(p) then Installment(p) else 0.0
  {
    if Active(p) {
      FilledRowsArePositive(p, 0);
    }
  }

  // ---------------------------------------------------------------------
  // Editing the parameters

  datatype Param = MontantPrete | Duree | TauxAnnuel

  /** `handleParamChange`: the parsed number, or 0, stored in the chosen
    * parameter; nothing changes on a read-only page. */
  function SetParam(p: Params, readOnly: bool, field: Param, input: Input): (r: Params)
    ensures readOnly ==> r == p
    ensures !readOnly && field == MontantPrete ==> r == p.(montantPrete := NumberOrZero(input))
    ensures !readOnly && field == Duree ==> r == p.(duree := NumberOrZero(input).Floor)
    ensures !readOnly && field == TauxAnnuel ==> r == p.(tauxAnnuel := NumberOrZero(input))
  {
    if readOnly then p
    else
      match field
      case MontantPrete => p.(montantPrete := NumberOrZero(input))
      case Duree => p.(duree := NumberOrZero(input).Floor)
      case TauxAnnuel => p.(tauxAnnuel := NumberOrZero(input))
  }

  /** Clearing a parameter, or entering a value of 0 or less, empties the
    * schedule: every row goes back to its zero row. */
  lemma ClearedParamEmptiesSchedule(p: Params, field: Param, input: Input)
    requires NumberOrZero(input) <= 0.0
    ensures forall i :: 0 <= i < TableRows ==> Schedule(SetParam(p, false, field, input))[i] == ZeroRow(i)
  {
    assert !Active(SetParam(p, false, field, input));
  }
}
