/** Small vocabulary shared by the models. */
module Common {

  datatype Option<+T> = None | Some(value: T) {
    function GetOr(default: T): T {
      if Some? then value else default
    }
  }

  predicate Distinct(s: seq<int>) {
    forall i, j :: 0 <= i < j < |s| ==> s[i] != s[j]
  }

  predicate Ascending(s: seq<int>) {
    forall i, j :: 0 <= i < j < |s| ==> s[i] < s[j]
  }

  function Min(a: nat, b: nat): nat { if a < b then a else b }

  function Max(a: nat, b: nat): nat { if a < b then b else a }

  function CeilDiv(a: nat, b: nat): nat
    requires b > 0
  {
    (a + b - 1) / b
  }

  lemma CeilDivBounds(a: nat, b: nat)
    requires b > 0
    ensures a <= CeilDiv(a, b) * b < a + b
  {
    var c := a + b - 1;
    assert c == c / b * b + c % b;
  }

  lemma MulCancel(a: int, c: int, b: nat)
    requires a * b < c * b
    ensures a < c
  {
    assert (c - a) * b > 0;
  }

  lemma CeilDivUnique(a: nat, b: nat, k: nat)
    requires b > 0 && a <= k * b < a + b
    ensures CeilDiv(a, b) == k
  {
    CeilDivBounds(a, b);
    hide CeilDiv;
    var c := CeilDiv(a, b);
    assert (k + 1) * b == k * b + b && (c + 1) * b == c * b + b;
    MulCancel(c, k + 1, b);
    MulCancel(k, c + 1, b);
  }

  lemma SubsetSize(a: set<int>, b: set<int>)
    requires a <= b
    ensures |a| <= |b|
  {
    assert b == a + (b - a);
  }

  lemma SameProduct(a: real, b: real, scale: real)
    requires scale > 0.0 && a * scale == b * scale
    ensures a == b
  {
    var d := a - b;
    assert d * scale == 0.0;
  }
}
