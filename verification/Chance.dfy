/** Finite probabilistic programs over token strings.

    A program is a decision tree: a `Draw` node is one call of a multinomial
    sampler, a `Coin` node one comparison of a uniform draw against a threshold.
    `Expect` gives a tree its meaning as a distribution; `Follow` gives it its
    meaning as a run against a tape of uniform draws, and `PickIsInverseCdf`
    says why the two agree on a single draw.
 */
module Chance {

  function Sum(w: seq<real>): real {
    if w == [] then 0.0 else w[0] + Sum(w[1..])
  }

  function Dot(w: seq<real>, v: seq<real>): real
    requires |w| == |v|
  {
    if w == [] then 0.0 else w[0] * v[0] + Dot(w[1..], v[1..])
  }

  predicate NonNegative(w: seq<real>) {
    forall i :: 0 <= i < |w| ==> w[i] >= 0.0
  }

  predicate IsDistribution(w: seq<real>, size: nat) {
    |w| == size && NonNegative(w) && Sum(w) == 1.0
  }

  lemma {:induction false} SumNonNegative(w: seq<real>)
    requires NonNegative(w)
    ensures Sum(w) >= 0.0
  {
    if w == [] {
    } else {
      SumNonNegative(w[1..]);
    }
  }

  /** An affine payoff passes through a weighted sum. */
  lemma DotAffine(w: seq<real>, u: seq<real>, v: seq<real>, a: real, b: real)
    requires |w| == |u| == |v|
    requires forall i :: 0 <= i < |w| ==> v[i] == a * u[i] + b
    ensures Dot(w, v) == a * Dot(w, u) + b * Sum(w)
  {
    DotCombined(w, u, v, a, b);
  }

  function Combined(a: real, b: real, x: real, y: real): real {
    a * x + b * y
  }

  lemma {:induction false} DotCombined(w: seq<real>, u: seq<real>, v: seq<real>, a: real, b: real)
    requires |w| == |u| == |v|
    requires forall i :: 0 <= i < |w| ==> v[i] == Combined(a, b, u[i], 1.0)
    ensures Dot(w, v) == Combined(a, b, Dot(w, u), Sum(w))
  {
    if w == [] {
    } else {
      hide Combined, Dot, Sum;
      DotCombined(w[1..], u[1..], v[1..], a, b);
      DotUnfolds(w, u);
      DotUnfolds(w, v);
      Affine(w[0], u[0], v[0], a, b, Dot(w[1..], u[1..]), Sum(w[1..]), Dot(w[1..], v[1..]), Dot(w, u), Sum(w),
             Dot(w, v));
    }
  }

  lemma DotUnfolds(w: seq<real>, u: seq<real>)
    requires |w| == |u| && w != []
    ensures Dot(w, u) == w[0] * u[0] + Dot(w[1..], u[1..]) && Sum(w) == w[0] + Sum(w[1..])
  {
  }

  /** One term more on either side. */
  lemma Affine(w: real, u: real, v: real, a: real, b: real, dot: real, sum: real, rest: real, dot': real, sum': real,
               whole: real)
    requires v == Combined(a, b, u, 1.0) && rest == Combined(a, b, dot, sum)
    requires dot' == w * u + dot && sum' == w + sum && whole == w * v + rest
    ensures whole == Combined(a, b, dot', sum')
  {
    assert w * v == a * (w * u) + b * w;
    assert a * dot' == a * (w * u) + a * dot;
    assert b * sum' == b * w + b * sum;
  }

  lemma {:induction false} DotConstant(w: seq<real>, v: seq<real>, c: real)
    requires |w| == |v|
    requires forall i :: 0 <= i < |w| ==> v[i] == c
    ensures Dot(w, v) == c * Sum(w)
  {
    DotAffine(w, v, v, 0.0, c);
  }

  /** A program that draws tokens and finally returns a token string. */
  datatype Tree =
    | Leaf(out: seq<nat>)
    | Draw(weights: seq<real>, next: seq<Tree>)
    | Coin(odds: real, yes: Tree, no: Tree)

  /** The expected payoff of a program's result. */
  ghost function Expect(t: Tree, f: seq<nat> -> real): real {
    match t
    case Leaf(out) => f(out)
    case Draw(w, next) => if |w| == |next| then Dot(w, Expects(next, f)) else 0.0
    case Coin(odds, yes, no) => odds * Expect(yes, f) + (1.0 - odds) * Expect(no, f)
  }

  ghost function Expects(ts: seq<Tree>, f: seq<nat> -> real): (r: seq<real>)
    ensures |r| == |ts|
    ensures forall i :: 0 <= i < |ts| ==> r[i] == Expect(ts[i], f)
  {
    seq(|ts|, i requires 0 <= i < |ts| => Expect(ts[i], f))
  }

  /** Inverse-transform sampling: the first index whose cumulative weight exceeds `u`. */
  function Pick(w: seq<real>, u: real): (i: nat)
    ensures i <= |w|
  {
    if w == [] || u < w[0] then 0 else 1 + Pick(w[1..], u - w[0])
  }

  /** `Pick` returns `i` exactly when `u` lies in an interval of length `w[i]`;
      so a uniform `u` selects `i` with probability `w[i]`, and never selects an
      index of weight zero. */
  lemma {:induction false} PickIsInverseCdf(w: seq<real>, u: real, i: nat)
    requires NonNegative(w) && 0.0 <= u && i < |w|
    ensures Pick(w, u) == i <==> Sum(w[..i]) <= u < Sum(w[..i]) + w[i]
  {
    if i == 0 {
      assert w[..0] == [];
    } else {
      assert w[..i][1..] == w[1..][..i - 1];
      SumNonNegative(w[1..][..i - 1]);
      if u >= w[0] {
        PickIsInverseCdf(w[1..], u - w[0], i - 1);
      }
    }
  }

  lemma {:induction false} PickInRange(w: seq<real>, u: real)
    requires NonNegative(w) && 0.0 <= u < Sum(w)
    ensures Pick(w, u) < |w| && w[Pick(w, u)] > 0.0
  {
    if u >= w[0] {
      PickInRange(w[1..], u - w[0]);
    }
  }

  /** Runs a program against a tape of uniform draws, from a tape position. */
  ghost function Follow(t: Tree, tape: nat -> real, at: nat): seq<nat> {
    match t
    case Leaf(out) => out
    case Draw(w, next) =>
      var i := Pick(w, tape(at));
      if i < |next| then Follow(next[i], tape, at + 1) else []
    case Coin(odds, yes, no) => Follow(if tape(at) < odds then yes else no, tape, at + 1)
  }
}
