/** Speculative sampling is lossless: the program `generate` runs has the same
    distribution over whole outputs as ancestral sampling from the target.
 */
module SpeculativeSampling {
  import opened Chance
  import opened Common
  import opened Speculative

  // ---------------------------------------------------------------------------
  // One position: accept with min(1, p/q), else draw from the residual.
  // ---------------------------------------------------------------------------

  /** The payoff of proposing `x`: keep it with its ratio, otherwise the rejection payoff. */
  function Judged(p: seq<real>, q: seq<real>, h: seq<real>, rejected: real): (r: seq<real>)
    requires |p| == |q| == |h|
    ensures |r| == |p|
  {
    seq(|p|, x requires 0 <= x < |p| => Ratio(p, q, x) * h[x] + (1.0 - Ratio(p, q, x)) * rejected)
  }

  lemma KeptMass(p: seq<real>, q: seq<real>, x: nat)
    requires |p| == |q| && x < |p| && p[x] >= 0.0 && q[x] >= 0.0
    ensures q[x] * Ratio(p, q, x) == p[x] - Residual(p, q)[x]
  {
    if q[x] > 0.0 {
      QuotientAndOne(p[x], q[x]);
    }
  }

  lemma QuotientAndOne(a: real, b: real)
    requires b > 0.0
    ensures b * (a / b) == a && (a / b > 1.0 <==> a > b)
  {
    var d := a / b;
    assert d * b == a;
    if d > 1.0 {
      assert d * b > 1.0 * b;
    } else {
      assert d * b <= 1.0 * b;
    }
  }

  lemma Distribute(q: real, r: real, k: real, h: real, rejected: real)
    requires q * r == k
    ensures q * (r * h + (1.0 - r) * rejected) == k * h + (q - k) * rejected
  {
    assert q * (r * h) == (q * r) * h;
    assert q * ((1.0 - r) * rejected) == (q - q * r) * rejected;
  }

  /** Sums a pointwise split of `a * b` into kept mass and rejected mass. */
  lemma {:induction false} DotSplit(a: seq<real>, b: seq<real>, p: seq<real>, e: seq<real>, h: seq<real>,
                                    g: seq<real>, rejected: real)
    requires |a| == |b| == |p| == |e| == |h| == |g|
    requires forall x :: 0 <= x < |a| ==> a[x] * b[x] == p[x] * h[x] - e[x] * h[x] + g[x] * rejected
    ensures Dot(a, b) == Dot(p, h) - Dot(e, h) + Sum(g) * rejected
  {
    if a == [] {
    } else {
      DotSplit(a[1..], b[1..], p[1..], e[1..], h[1..], g[1..], rejected);
      assert (g[0] + Sum(g[1..])) * rejected == g[0] * rejected + Sum(g[1..]) * rejected;
    }
  }

  lemma {:induction false} SumSplit(q: seq<real>, p: seq<real>, e: seq<real>, g: seq<real>)
    requires |q| == |p| == |e| == |g|
    requires forall x :: 0 <= x < |q| ==> g[x] == q[x] - p[x] + e[x]
    ensures Sum(g) == Sum(q) - Sum(p) + Sum(e)
  {
    if q == [] {
    } else {
      SumSplit(q[1..], p[1..], e[1..], g[1..]);
    }
  }

  lemma JudgedEntry(p: seq<real>, q: seq<real>, h: seq<real>, rejected: real, x: nat)
    requires |p| == |q| == |h| && NonNegative(p) && NonNegative(q) && x < |p|
    ensures var e := Residual(p, q)[x];
      q[x] * Judged(p, q, h, rejected)[x] == p[x] * h[x] - e * h[x] + (q[x] - p[x] + e) * rejected
  {
    KeptMass(p, q, x);
    hide Ratio, Residual;
    var e := Residual(p, q)[x];
    Distribute(q[x], Ratio(p, q, x), p[x] - e, h[x], rejected);
    assert (p[x] - e) * h[x] == p[x] * h[x] - e * h[x];
  }

  /** The kept mass is `p` less its excess over `q`; as much of `q` is rejected. */
  lemma JudgedMass(p: seq<real>, q: seq<real>, h: seq<real>, rejected: real)
    requires IsDistribution(p, |h|) && IsDistribution(q, |h|)
    ensures Dot(q, Judged(p, q, h, rejected))
         == Dot(p, h) - Dot(Residual(p, q), h) + Sum(Residual(p, q)) * rejected
  {
    hide Dot, Sum;
    var e, j := Residual(p, q), Judged(p, q, h, rejected);
    var g := seq(|q|, x requires 0 <= x < |q| => q[x] - p[x] + e[x]);
    forall x | 0 <= x < |q| ensures q[x] * j[x] == p[x] * h[x] - e[x] * h[x] + g[x] * rejected {
      JudgedEntry(p, q, h, rejected, x);
    }
    hide Judged, Residual, Ratio;
    SumSplit(q, p, e, g);
    DotSplit(q, j, p, e, h, g, rejected);
  }

  lemma {:induction false} DotScaled(w: seq<real>, v: seq<real>, h: seq<real>, c: real)
    requires |w| == |v| == |h| && forall i :: 0 <= i < |w| ==> v[i] == w[i] * c
    ensures Dot(v, h) == Dot(w, h) * c
  {
    if w == [] {
    } else {
      DotScaled(w[1..], v[1..], h[1..], c);
      assert v[0] * h[0] == (w[0] * h[0]) * c;
      var d := Dot(w[1..], h[1..]);
      assert (w[0] * h[0] + d) * c == (w[0] * h[0]) * c + d * c;
    }
  }

  lemma {:induction false} DotZero(w: seq<real>, h: seq<real>)
    requires |w| == |h| && NonNegative(w) && Sum(w) == 0.0
    ensures Dot(w, h) == 0.0
  {
    if w == [] {
    } else {
      SumNonNegative(w[1..]);
      DotZero(w[1..], h[1..]);
    }
  }

  /** The rejection-sampling identity: the accepted proposal and the residual draw
      together have exactly the target's distribution. */
  lemma AcceptOrResidual(p: seq<real>, q: seq<real>, h: seq<real>)
    requires IsDistribution(p, |h|) && IsDistribution(q, |h|)
    ensures Dot(q, Judged(p, q, h, Dot(Normalised(Residual(p, q)), h))) == Dot(p, h)
  {
    hide Dot, Sum, Residual, Normalised, Judged;
    var e := Residual(p, q);
    var rejected := Dot(Normalised(e), h);
    JudgedMass(p, q, h, rejected);
    SumNonNegative(e);
    if Sum(e) > 0.0 {
      var c := InverseOf(Sum(e));
      NormalisedEntries(e, c);
      DotScaled(e, Normalised(e), h, c);
      var d, t := Dot(e, h), Sum(e);
      assert t * (d * c) == d * (t * c);
    } else {
      DotZero(e, h);
    }
  }

  // ---------------------------------------------------------------------------
  // A block.
  // ---------------------------------------------------------------------------

  /** The value of target decoding from `ctx`. */
  ghost function Value(s: Setup, ctx: seq<nat>, n: nat, f: seq<nat> -> real): real {
    Expect(TargetTree(s, Clip(ctx, n), n), f)
  }

  /** The values of every one-token extension of `ctx`. */
  ghost function NextValues(s: Setup, ctx: seq<nat>, n: nat, f: seq<nat> -> real): (r: seq<real>)
    ensures |r| == s.vocab
    ensures forall y :: 0 <= y < s.vocab ==> r[y] == Value(s, ctx + [y], n, f)
  {
    seq(s.vocab, y requires 0 <= y < s.vocab => Value(s, ctx + [y], n, f))
  }

  /** Expected payoffs of target decoding after every next token. */
  ghost function Branches(s: Setup, ctx: seq<nat>, n: nat, f: seq<nat> -> real): (r: seq<real>)
    ensures |r| == s.vocab
    ensures forall y :: 0 <= y < s.vocab ==> r[y] == Expect(TargetTree(s, ctx + [y], n), f)
  {
    seq(s.vocab, y requires 0 <= y < s.vocab => Expect(TargetTree(s, ctx + [y], n), f))
  }

  lemma TargetStep(s: Setup, ctx: seq<nat>, n: nat, f: seq<nat> -> real)
    requires s.Valid() && |ctx| < n
    ensures Expect(TargetTree(s, ctx, n), f) == Dot(s.target(ctx).probs, Branches(s, ctx, n, f))
  {
    var next := seq(s.vocab, y requires 0 <= y < s.vocab => TargetTree(s, ctx + [y], n));
    assert TargetTree(s, ctx, n) == Draw(s.target(ctx).probs, next);
    assert Expects(next, f) == Branches(s, ctx, n, f);
  }

  /** The value of a context is the target's average over its extensions, at the
      budget (where the extension is clipped away) as below it. */
  lemma ValueIsAverage(s: Setup, ctx: seq<nat>, n: nat, f: seq<nat> -> real)
    requires s.Valid() && |ctx| <= n
    ensures Value(s, ctx, n, f) == Dot(s.target(ctx).probs, NextValues(s, ctx, n, f))
  {
    var w := s.target(ctx).probs;
    if |ctx| == n {
      forall y | 0 <= y < s.vocab ensures NextValues(s, ctx, n, f)[y] == Value(s, ctx, n, f) {
        assert Clip(ctx + [y], n) == ctx;
      }
      DotConstant(w, NextValues(s, ctx, n, f), Value(s, ctx, n, f));
    } else {
      TargetStep(s, ctx, n, f);
      assert Branches(s, ctx, n, f) == NextValues(s, ctx, n, f);
    }
  }

  /** The value of verifying proposals `j..`, when everything after the block
      decodes like the target. */
  ghost function BlockValue(s: Setup, ctx: seq<nat>, props: seq<nat>, j: nat, n: nat, f: seq<nat> -> real): real
    requires s.Valid() && j <= |props| && (forall i :: 0 <= i < |props| ==> props[i] < s.vocab)
    decreases |props| - j
  {
    if j == |props| then Value(s, ctx + props, n, f)
    else JudgeValue(s, ctx + props[..j], props[j], BlockValue(s, ctx, props, j + 1, n, f), n, f)
  }

  /** One step of `BlockValue`. */
  ghost function JudgeValue(s: Setup, seen: seq<nat>, x: nat, kept: real, n: nat, f: seq<nat> -> real): real
    requires s.Valid() && x < s.vocab
  {
    var p, q := s.target(seen).probs, s.draft(seen).probs;
    Ratio(p, q, x) * kept + (1.0 - Ratio(p, q, x)) * Dot(Normalised(Residual(p, q)), NextValues(s, seen, n, f))
  }

  /** Proposing one token and judging it against everything after is one target draw. */
  lemma LastProposal(s: Setup, seen: seq<nat>, n: nat, f: seq<nat> -> real, vals: seq<real>)
    requires s.Valid() && |seen| <= n && |vals| == s.vocab
    requires forall x :: 0 <= x < s.vocab ==> vals[x] == JudgeValue(s, seen, x, Value(s, seen + [x], n, f), n, f)
    ensures Dot(s.draft(seen).probs, vals) == Value(s, seen, n, f)
  {
    hide Dot, Sum, Residual, Normalised, Ratio, Value;
    var p, q := s.target(seen).probs, s.draft(seen).probs;
    var h := NextValues(s, seen, n, f);
    var rejected := Dot(Normalised(Residual(p, q)), h);
    forall x | 0 <= x < s.vocab ensures vals[x] == Judged(p, q, h, rejected)[x] {
      assert vals[x] == JudgeValue(s, seen, x, h[x], n, f);
    }
    assert vals == Judged(p, q, h, rejected);
    AcceptOrResidual(p, q, h);
    ValueIsAverage(s, seen, n, f);
  }

  /** A proposal not yet drawn does not change the value of the block. */
  lemma {:induction false} ProposalIsFree(s: Setup, ctx: seq<nat>, props: seq<nat>, j: nat, n: nat,
                                          f: seq<nat> -> real, vals: seq<real>)
    requires s.Valid() && j <= |props| && |ctx + props| <= n
    requires forall i :: 0 <= i < |props| ==> props[i] < s.vocab
    requires |vals| == s.vocab
    requires forall x :: 0 <= x < s.vocab ==> vals[x] == BlockValue(s, ctx, props + [x], j, n, f)
    ensures Dot(s.draft(ctx + props).probs, vals) == BlockValue(s, ctx, props, j, n, f)
    decreases |props| - j
  {
    hide Dot, JudgeValue, Value;
    forall x | 0 <= x < s.vocab
      ensures vals[x] ==
        JudgeValue(s, ctx + props[..j], (props + [x])[j], BlockValue(s, ctx, props + [x], j + 1, n, f), n, f)
    {
      assert (props + [x])[..j] == props[..j];
    }
    if j == |props| {
      assert props[..j] == props;
      forall x | 0 <= x < s.vocab
        ensures BlockValue(s, ctx, props + [x], j + 1, n, f) == Value(s, (ctx + props) + [x], n, f)
      {
        assert ctx + (props + [x]) == (ctx + props) + [x];
      }
      LastProposal(s, ctx + props, n, f, vals);
    } else {
      var tails := seq(s.vocab, x requires 0 <= x < s.vocab => BlockValue(s, ctx, props + [x], j + 1, n, f));
      ProposalIsFree(s, ctx, props, j + 1, n, f, tails);
      EarlierProposal(s, ctx + props[..j], props[j], n, f, s.draft(ctx + props).probs, tails, vals);
    }
  }

  /** Judging an earlier proposal commutes with drawing a later one. */
  lemma EarlierProposal(s: Setup, seen: seq<nat>, y: nat, n: nat, f: seq<nat> -> real,
                        w: seq<real>, tails: seq<real>, vals: seq<real>)
    requires s.Valid() && y < s.vocab && IsDistribution(w, s.vocab) && |tails| == |vals| == s.vocab
    requires forall x :: 0 <= x < s.vocab ==> vals[x] == JudgeValue(s, seen, y, tails[x], n, f)
    ensures Dot(w, vals) == JudgeValue(s, seen, y, Dot(w, tails), n, f)
  {
    hide Dot, Sum, NonNegative, JudgeValue, Ratio;
    var r, b := Ratio(s.target(seen).probs, s.draft(seen).probs, y), JudgeValue(s, seen, y, 0.0, n, f);
    forall x | 0 <= x < s.vocab ensures vals[x] == r * tails[x] + b {
      JudgeAffine(s, seen, y, tails[x], n, f);
    }
    JudgeAffine(s, seen, y, Dot(w, tails), n, f);
    DotAffine(w, tails, vals, r, b);
  }

  lemma JudgeAffine(s: Setup, seen: seq<nat>, y: nat, kept: real, n: nat, f: seq<nat> -> real)
    requires s.Valid() && y < s.vocab
    ensures JudgeValue(s, seen, y, kept, n, f)
         == Ratio(s.target(seen).probs, s.draft(seen).probs, y) * kept + JudgeValue(s, seen, y, 0.0, n, f)
  {
    hide Dot, Sum, Ratio, Residual, Normalised;
  }

  // ---------------------------------------------------------------------------
  // Whole runs.
  // ---------------------------------------------------------------------------

  /** Speculative decoding and target decoding give every observation of the
      output the same expectation. */
  lemma {:induction false} SamplingIsLossless(s: Setup, ctx: seq<nat>, n: nat, f: seq<nat> -> real)
    requires s.Valid()
    ensures Expect(SpecTree(s, ctx, n), f) == Expect(TargetTree(s, ctx, n), f)
    decreases Missing(ctx, n), 3, 0
  {
    if |ctx| < n {
      ProposeIsLossless(s, ctx, Min(s.lookahead, n - |ctx|), [], n, f);
      assert ctx + [] == ctx;
    }
  }

  lemma {:induction false} ProposeIsLossless(s: Setup, ctx: seq<nat>, span: nat, props: seq<nat>, n: nat,
                                             f: seq<nat> -> real)
    requires s.Valid() && |ctx| < n && |props| <= span <= n - |ctx|
    requires forall i :: 0 <= i < |props| ==> props[i] < s.vocab
    ensures Expect(ProposeTree(s, ctx, span, props, n), f) == BlockValue(s, ctx, props, 0, n, f)
    decreases Missing(ctx, n), 2, span - |props|
  {
    if |props| == span {
      VerifyIsLossless(s, ctx, props, 0, n, f);
    } else {
      var w := s.draft(ctx + props).probs;
      var next := seq(s.vocab, x requires 0 <= x < s.vocab => ProposeTree(s, ctx, span, props + [x], n));
      assert ProposeTree(s, ctx, span, props, n) == Draw(w, next);
      var vals := Expects(next, f);
      assert Expect(Draw(w, next), f) == Dot(w, vals);
      hide ProposeTree, Expect, BlockValue, Dot, Sum;
      forall x | 0 <= x < s.vocab ensures vals[x] == BlockValue(s, ctx, props + [x], 0, n, f) {
        ProposeIsLossless(s, ctx, span, props + [x], n, f);
      }
      ProposalIsFree(s, ctx, props, 0, n, f, vals);
    }
  }

  lemma {:induction false} VerifyIsLossless(s: Setup, ctx: seq<nat>, props: seq<nat>, j: nat, n: nat,
                                            f: seq<nat> -> real)
    requires s.Valid() && |ctx| < n && j <= |props| && |ctx + props| <= n
    requires forall i :: 0 <= i < |props| ==> props[i] < s.vocab
    ensures Expect(VerifyTree(s, ctx, props, j, n), f) == BlockValue(s, ctx, props, j, n, f)
    decreases Missing(ctx, n), 1, |props| - j
  {
    hide Dot, Sum, Residual, Normalised, Ratio, Value, SettleTree;
    if j == |props| {
      SettleIsLossless(s, ctx, props, s.target(ctx + props).probs, n, f);
      ValueIsAverage(s, ctx + props, n, f);
    } else {
      var p, q := s.target(ctx + props[..j]).probs, s.draft(ctx + props[..j]).probs;
      VerifyIsLossless(s, ctx, props, j + 1, n, f);
      var rejected := SettleTree(s, ctx, props[..j], Normalised(Residual(p, q)), n);
      SettleIsLossless(s, ctx, props[..j], Normalised(Residual(p, q)), n, f);
      assert VerifyTree(s, ctx, props, j, n)
          == Coin(Ratio(p, q, props[j]), VerifyTree(s, ctx, props, j + 1, n), rejected);
    }
  }

  lemma {:induction false} SettleIsLossless(s: Setup, ctx: seq<nat>, taken: seq<nat>, w: seq<real>, n: nat,
                                            f: seq<nat> -> real)
    requires s.Valid() && |ctx| < n && |ctx + taken| <= n && |w| == s.vocab
    ensures Expect(SettleTree(s, ctx, taken, w, n), f) == Dot(w, NextValues(s, ctx + taken, n, f))
    decreases Missing(ctx, n), 0, 0
  {
    var next := seq(s.vocab, y requires 0 <= y < s.vocab => SpecTree(s, Clip(ctx + taken + [y], n), n));
    assert SettleTree(s, ctx, taken, w, n) == Draw(w, next);
    forall y | 0 <= y < s.vocab ensures Expects(next, f)[y] == NextValues(s, ctx + taken, n, f)[y] {
      SamplingIsLossless(s, Clip(ctx + taken + [y], n), n, f);
    }
    assert Expects(next, f) == NextValues(s, ctx + taken, n, f);
  }

  // ---------------------------------------------------------------------------
  // Probabilities of strings.
  // ---------------------------------------------------------------------------

  /** The observation "the output is exactly `w`". */
  function Is(w: seq<nat>): seq<nat> -> real {
    out => if out == w then 1.0 else 0.0
  }

  /** The target's chain-rule probability of continuing `ctx` with `w`. */
  ghost function ChainRule(s: Setup, ctx: seq<nat>, w: seq<nat>): real
    requires s.Valid() && forall i :: 0 <= i < |w| ==> w[i] < s.vocab
    decreases |w|
  {
    if w == [] then 1.0 else s.target(ctx).probs[w[0]] * ChainRule(s, ctx + [w[0]], w[1..])
  }

  lemma {:induction false} DotIndicator(w: seq<real>, v: seq<real>, y: nat)
    requires |w| == |v| && y < |w|
    requires forall i :: 0 <= i < |w| && i != y ==> v[i] == 0.0
    ensures Dot(w, v) == w[y] * v[y]
  {
    if y == 0 {
      DotConstant(w[1..], v[1..], 0.0);
    } else {
      DotIndicator(w[1..], v[1..], y - 1);
    }
  }

  /** Target decoding never changes what is already settled. */
  lemma {:induction false} SettledStays(s: Setup, ctx: seq<nat>, n: nat, out: seq<nat>)
    requires s.Valid() && |ctx| <= n && !(ctx <= out)
    ensures Expect(TargetTree(s, ctx, n), Is(out)) == 0.0
    decreases Missing(ctx, n)
  {
    if |ctx| < n {
      TargetStep(s, ctx, n, Is(out));
      hide TargetTree, Dot, Sum;
      forall y | 0 <= y < s.vocab ensures Branches(s, ctx, n, Is(out))[y] == 0.0 {
        assert ctx + [y] <= out ==> ctx <= out;
        SettledStays(s, ctx + [y], n, out);
      }
      DotConstant(s.target(ctx).probs, Branches(s, ctx, n, Is(out)), 0.0);
    }
  }

  lemma OffPath(s: Setup, ctx: seq<nat>, w: seq<nat>, y: nat)
    requires s.Valid() && w != [] && y != w[0]
    ensures Expect(TargetTree(s, ctx + [y], |ctx| + |w|), Is(ctx + w)) == 0.0
  {
    assert (ctx + w)[|ctx|] == w[0] && (ctx + [y])[|ctx|] == y;
    SettledStays(s, ctx + [y], |ctx| + |w|, ctx + w);
  }

  /** Only the branch that continues `w` contributes. */
  lemma OnPath(s: Setup, ctx: seq<nat>, w: seq<nat>)
    requires s.Valid() && w != [] && w[0] < s.vocab
    ensures Expect(TargetTree(s, ctx, |ctx| + |w|), Is(ctx + w))
         == s.target(ctx).probs[w[0]] * Expect(TargetTree(s, ctx + [w[0]], |ctx| + |w|), Is(ctx + w))
  {
    hide Dot, Sum, TargetTree, Expect;
    var n, f := |ctx| + |w|, Is(ctx + w);
    TargetStep(s, ctx, n, f);
    forall y | 0 <= y < s.vocab && y != w[0] ensures Branches(s, ctx, n, f)[y] == 0.0 {
      OffPath(s, ctx, w, y);
    }
    DotIndicator(s.target(ctx).probs, Branches(s, ctx, n, f), w[0]);
  }

  lemma {:induction false} TargetChainRule(s: Setup, ctx: seq<nat>, w: seq<nat>)
    requires s.Valid() && forall i :: 0 <= i < |w| ==> w[i] < s.vocab
    ensures Expect(TargetTree(s, ctx, |ctx| + |w|), Is(ctx + w)) == ChainRule(s, ctx, w)
    decreases |w|
  {
    if w == [] {
      assert ctx + w == ctx;
    } else {
      OnPath(s, ctx, w);
      TargetChainRule(s, ctx + [w[0]], w[1..]);
      assert (ctx + [w[0]]) + w[1..] == ctx + w;
    }
    hide TargetTree, Expect;
  }

  /** For every draft, target, lookahead and string of the budget's length, the
      probability that speculative sampling produces that string is the target's. */
  lemma SpeculativeChainRule(s: Setup, prompt: seq<nat>, w: seq<nat>)
    requires s.Valid() && forall i :: 0 <= i < |w| ==> w[i] < s.vocab
    ensures Expect(SpecTree(s, prompt, |prompt| + |w|), Is(prompt + w)) == ChainRule(s, prompt, w)
  {
    hide SpecTree, TargetTree, Expect, ChainRule;
    SamplingIsLossless(s, prompt, |prompt| + |w|, Is(prompt + w));
    TargetChainRule(s, prompt, w);
  }

  /** The draft and the lookahead affect speed only. */
  lemma DraftIsImmaterial(s: Setup, t: Setup, prompt: seq<nat>, n: nat, f: seq<nat> -> real)
    requires s.Valid() && t.Valid() && s.target == t.target && s.vocab == t.vocab
    ensures Expect(SpecTree(s, prompt, n), f) == Expect(SpecTree(t, prompt, n), f)
  {
    SamplingIsLossless(s, prompt, n, f);
    SamplingIsLossless(t, prompt, n, f);
    SameTarget(s, t, prompt, n);
  }

  lemma {:induction false} SameTarget(s: Setup, t: Setup, ctx: seq<nat>, n: nat)
    requires s.target == t.target && s.vocab == t.vocab
    ensures TargetTree(s, ctx, n) == TargetTree(t, ctx, n)
    decreases Missing(ctx, n)
  {
    if |ctx| < n {
      forall y | 0 <= y < s.vocab ensures TargetTree(s, ctx + [y], n) == TargetTree(t, ctx + [y], n) {
        SameTarget(s, t, ctx + [y], n);
      }
      assert seq(s.vocab, y requires 0 <= y < s.vocab => TargetTree(s, ctx + [y], n))
          == seq(s.vocab, y requires 0 <= y < s.vocab => TargetTree(t, ctx + [y], n));
    }
  }
}
