/** Small helpers shared by every component of the model. */
module Common {

  datatype Option<+T> = None | Some(value: T)

  function Max(a: int, b: int): int {
    if a >= b then a else b
  }

  function Min(a: int, b: int): int {
    if a <= b then a else b
  }

  /** Adding one new element to a finite set grows it by one. */
  lemma CardAdd<T>(s: set<T>, x: T, t: set<T>)
    requires x !in s && t == s + {x}
    ensures |t| == |s| + 1
  {
  }

  /** The sum of a sequence of integers. */
  function Sum(xs: seq<int>): int {
    if xs == [] then 0 else xs[0] + Sum(xs[1..])
  }

  lemma {:induction false} SumAppend(xs: seq<int>, ys: seq<int>)
    ensures Sum(xs + ys) == Sum(xs) + Sum(ys)
  {
    if xs == [] {
      assert xs + ys == ys;
    } else {
      assert (xs + ys)[1..] == xs[1..] + ys;
      SumAppend(xs[1..], ys);
    }
  }

  /** Changing one element changes the sum by the difference. */
  lemma {:induction false} SumUpdate(xs: seq<int>, i: nat, v: int)
    requires i < |xs|
    ensures Sum(xs[i := v]) == Sum(xs) - xs[i] + v
  {
    assert xs == xs[..i] + [xs[i]] + xs[i + 1..];
    assert xs[i := v] == xs[..i] + [v] + xs[i + 1..];
    SumAppend(xs[..i] + [xs[i]], xs[i + 1..]);
    SumAppend(xs[..i], [xs[i]]);
    SumAppend(xs[..i] + [v], xs[i + 1..]);
    SumAppend(xs[..i], [v]);
    assert Sum([v]) == v + Sum([]);
    assert Sum([xs[i]]) == xs[i] + Sum([]);
  }

  /** A sum of non-negative terms is at least each of its terms. */
  lemma {:induction false} SumNonNegative(xs: seq<int>)
    requires forall i :: 0 <= i < |xs| ==> xs[i] >= 0
    ensures Sum(xs) >= 0
    ensures forall i :: 0 <= i < |xs| ==> Sum(xs) >= xs[i]
  {
    if xs != [] {
      SumNonNegative(xs[1..]);
      forall i | 0 <= i < |xs| ensures Sum(xs) >= xs[i] {
        assert i > 0 ==> xs[i] == xs[1..][i - 1];
      }
    }
  }

  lemma {:induction false} SumZero(xs: seq<int>)
    requires forall i | 0 <= i < |xs| :: xs[i] == 0
    ensures Sum(xs) == 0
  {
    if xs != [] { SumZero(xs[1..]); }
  }

  /** The characters Python's strip() removes. */
  predicate IsSpace(c: char) {
    || '\U{9}' <= c <= '\U{D}' || '\U{1C}' <= c <= ' ' || c in ['\U{85}', '\U{A0}', '\U{1680}']
    || '\U{2000}' <= c <= '\U{200A}' || c in ['\U{2028}', '\U{2029}', '\U{202F}', '\U{205F}', '\U{3000}']
  }

  predicate Blank(s: string) {
    forall i | 0 <= i < |s| :: IsSpace(s[i])
  }

  /** Python's list(dict.fromkeys(xs)): each element once, at its first place. */
  function Distinct<T(==, !new)>(xs: seq<T>): (r: seq<T>)
    ensures forall x :: x in r <==> x in xs
    ensures forall i, j | 0 <= i < j < |r| :: r[i] != r[j]
    ensures |r| <= |xs| && (r == [] <==> xs == [])
  {
    if xs == [] then []
    else
      var r, x := Distinct(xs[..|xs| - 1]), xs[|xs| - 1];
      assert xs == xs[..|xs| - 1] + [x];
      if x in r then r else r + [x]
  }
}
