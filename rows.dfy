/** The editable tables of the dossier (credits, accounts, guarantees, sales
  * lines, ...) are arrays of rows that the pages grow, shrink, edit and
  * total. This module holds those list operations once, with what they
  * keep. */
module Rows {

  /** Sum of `f` over the rows, accumulated left to right as `reduce` does. */
  function SumOf<T>(s: seq<T>, f: T -> real): real
  {
    if s == [] then 0.0 else SumOf(s[..|s| - 1], f) + f(s[|s| - 1])
  }

  /** Appending a row (`[...rows, newRow]`). */
  function Append<T>(s: seq<T>, x: T): (r: seq<T>)
    ensures |r| == |s| + 1 && r[..|s|] == s && r[|s|] == x
  {
    s + [x]
  }

  /** `rows.filter((_, i) => i !== index)`: the row at `index` goes, the
    * others keep their order; an index outside the table removes nothing. */
  function RemoveAt<T>(s: seq<T>, index: int): (r: seq<T>)
    ensures 0 <= index < |s| ==> |r| == |s| - 1
    ensures !(0 <= index < |s|) ==> r == s
    ensures forall j :: 0 <= j < |r| ==> r[j] == if 0 <= index <= j then s[j + 1] else s[j]
  {
    if 0 <= index < |s| then s[..index] + s[index + 1..] else s
  }

  /** `copy[index] = { ...copy[index], ... }`: one row replaced, the others kept. */
  function UpdateAt<T>(s: seq<T>, index: nat, x: T): (r: seq<T>)
    requires index < |s|
    ensures |r| == |s| && r[index] == x
    ensures forall j :: 0 <= j < |s| && j != index ==> r[j] == s[j]
  {
    s[index := x]
  }

  lemma {:induction false} SumOfConcat<T>(a: seq<T>, b: seq<T>, f: T -> real)
    ensures SumOf(a + b, f) == SumOf(a, f) + SumOf(b, f)
    decreases |b|
  {
    if b == [] {
      assert a + b == a;
    } else {
      var b' := b[..|b| - 1];
      assert (a + b)[..|a + b| - 1] == a + b';
      SumOfConcat(a, b', f);
    }
  }

  /** Removing a row takes exactly its own contribution out of a column total. */
  lemma {:induction false} SumOfRemoveAt<T>(s: seq<T>, index: int, f: T -> real)
    ensures SumOf(RemoveAt(s, index), f)
         == if 0 <= index < |s| then SumOf(s, f) - f(s[index]) else SumOf(s, f)
  {
    if 0 <= index < |s| {
      var a, b := s[..index], s[index + 1..];
      assert s[..index + 1] + b == s;
      SumOfConcat(s[..index + 1], b, f);
      assert s[..index + 1][..index] == a;
      SumOfConcat(a, b, f);
    }
  }

  /** Replacing a row changes a column total by the difference of the two rows. */
  lemma {:induction false} SumOfUpdateAt<T>(s: seq<T>, index: nat, x: T, f: T -> real)
    requires index < |s|
    ensures SumOf(UpdateAt(s, index, x), f) == SumOf(s, f) - f(s[index]) + f(x)
  {
    var r := UpdateAt(s, index, x);
    assert s == s[..index] + [s[index]] + s[index + 1..];
    assert r == s[..index] + [x] + s[index + 1..];
    SumOfConcat(s[..index] + [s[index]], s[index + 1..], f);
    SumOfConcat(s[..index], [s[index]], f);
    SumOfConcat(s[..index] + [x], s[index + 1..], f);
    SumOfConcat(s[..index], [x], f);
    assert [s[index]][..0] == [] && [x][..0] == [];
  }

  /** Adding a row and then removing the last row gives back the table. */
  lemma RemoveAppended<T>(s: seq<T>, x: T)
    ensures RemoveAt(Append(s, x), |s|) == s
  {
    assert (s + [x])[..|s|] == s;
  }

  /** A column total over rows that each contribute nothing is zero. */
  lemma {:induction false} SumOfZero<T>(s: seq<T>, f: T -> real)
    requires forall j :: 0 <= j < |s| ==> f(s[j]) == 0.0
    ensures SumOf(s, f) == 0.0
  {
    if s != [] {
      SumOfZero(s[..|s| - 1], f);
    }
  }

  /** A column total over rows that each contribute at least zero is at least zero. */
  lemma {:induction false} SumOfNonNegative<T>(s: seq<T>, f: T -> real)
    requires forall j :: 0 <= j < |s| ==> f(s[j]) >= 0.0
    ensures SumOf(s, f) >= 0.0
  {
    if s != [] {
      SumOfNonNegative(s[..|s| - 1], f);
    }
  }

  /** Two column functions that agree on every row give the same total. */
  lemma {:induction false} SumOfCongruent<T>(s: seq<T>, f: T -> real, g: T -> real)
    requires forall j :: 0 <= j < |s| ==> f(s[j]) == g(s[j])
    ensures SumOf(s, f) == SumOf(s, g)
  {
    if s != [] {
      SumOfCongruent(s[..|s| - 1], f, g);
    }
  }
}
