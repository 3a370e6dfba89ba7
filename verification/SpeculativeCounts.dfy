/** What speculation saves: how many target calls a run takes, at best, at worst, and with a draft
    that is the target itself. */
module SpeculativeCounts {
  import opened Chance
  import opened Common
  import opened Speculative

  /** What one block adds, and how far it gets. */
  lemma OneBlock(s: Setup, greedy: bool, tape: nat -> real, at: nat, ctx: seq<nat>, n: nat)
    requires s.Valid() && |ctx| < n
    ensures var b := BlockOf(s, greedy, tape, at, ctx, n);
      var rest, w := Walk(s, greedy, tape, b.at, After(ctx, b, n), n), Walk(s, greedy, tape, at, ctx, n);
      && w.blocks == 1 + rest.blocks && w.proposed == |b.proposals| + rest.proposed && w.kept == b.taken + rest.kept
      && |After(ctx, b, n)| == Min(|ctx| + b.taken + 1, n)
  {
    hide Walk, BlockOf;
    var b := BlockOf(s, greedy, tape, at, ctx, n);
    WalkOn(s, greedy, tape, at, ctx, n);
    BlockSettled(ctx, b.proposals, b.taken, b.replacement, n);
  }

  /** Every block settles the tokens it keeps and one more, clipped to the budget. */
  lemma {:induction false} KeptAndOne(s: Setup, greedy: bool, tape: nat -> real, at: nat, ctx: seq<nat>, n: nat)
    requires s.Valid()
    ensures var w := Walk(s, greedy, tape, at, ctx, n);
      && Missing(ctx, n) <= w.blocks + w.kept <= Missing(ctx, n) + 1
      && w.kept <= w.proposed && w.blocks <= Missing(ctx, n)
    decreases Missing(ctx, n)
  {
    hide Walk, BlockOf, After;
    if |ctx| >= n {
      WalkEnds(s, greedy, tape, at, ctx, n);
    } else {
      var b := BlockOf(s, greedy, tape, at, ctx, n);
      OneBlock(s, greedy, tape, at, ctx, n);
      KeptAndOne(s, greedy, tape, b.at, After(ctx, b, n), n);
      if |After(ctx, b, n)| == n {
        WalkEnds(s, greedy, tape, b.at, After(ctx, b, n), n);
      }
    }
  }

  /** No draft gets by with fewer target calls than the budget in portions of a block. */
  lemma {:induction false} FewestCalls(s: Setup, greedy: bool, tape: nat -> real, at: nat, ctx: seq<nat>, n: nat)
    requires s.Valid()
    ensures Walk(s, greedy, tape, at, ctx, n).blocks >= CeilDiv(Missing(ctx, n), s.lookahead + 1)
    decreases Missing(ctx, n)
  {
    hide Walk, BlockOf, After, CeilDiv;
    var portion := s.lookahead + 1;
    if |ctx| >= n {
      CeilDivUnique(0, portion, 0);
    } else {
      var b := BlockOf(s, greedy, tape, at, ctx, n);
      OneBlock(s, greedy, tape, at, ctx, n);
      FewestCalls(s, greedy, tape, b.at, After(ctx, b, n), n);
      Portions(Missing(ctx, n), Missing(After(ctx, b, n), n), portion);
    }
  }

  /** One portion less, or not even one. */
  lemma Portions(before: nat, after: nat, portion: nat)
    requires portion > 0 && before > 0 && after < before
    ensures before <= after + portion ==> CeilDiv(before, portion) <= CeilDiv(after, portion) + 1
    ensures before == after + portion || (after == 0 && before <= portion) ==>
      CeilDiv(before, portion) == CeilDiv(after, portion) + 1
  {
    CeilDivBounds(before, portion);
    CeilDivBounds(after, portion);
    hide CeilDiv;
    var a, b := CeilDiv(after, portion), CeilDiv(before, portion);
    assert (a + 1) * portion == a * portion + portion && (a + 2) * portion == a * portion + 2 * portion;
    assert (b + 1) * portion == b * portion + portion && (b - 1) * portion == b * portion - portion;
    if before <= after + portion {
      MulCancel(b, a + 2, portion);
    }
    if before == after + portion {
      MulCancel(a, b, portion);
    }
    if after == 0 && before <= portion {
      CeilDivUnique(before, portion, 1);
      CeilDivUnique(0, portion, 0);
    }
  }

  lemma {:induction false} DrawnAt(s: Setup, greedy: bool, tape: nat -> real, at: nat, seen: seq<nat>, span: nat,
                                   j: nat)
    requires j < span
    ensures var props := Draws(s, greedy, tape, at, seen, span);
      props[j] == Chosen(s.draft(seen + props[..j]), greedy, tape(at + j))
    decreases span
  {
    var props := Draws(s, greedy, tape, at, seen, span);
    if j == 0 {
      assert seen + props[..0] == seen;
    } else {
      var x := props[0];
      DrawnAt(s, greedy, tape, at + 1, seen + [x], span - 1, j - 1);
      assert (seen + [x]) + props[1..][..j - 1] == seen + props[..j];
    }
  }

  /** The two models agree on everything. */
  ghost predicate Twins(s: Setup) {
    forall h: seq<nat> :: s.draft(h) == s.target(h)
  }

  /** A draft equal to the target is never turned down, however the tape runs. */
  lemma {:induction false} TwinsSurvive(s: Setup, greedy: bool, tape: nat -> real, at: nat, middle: nat, ctx: seq<nat>,
                                        span: nat, j: nat)
    requires s.Valid() && Twins(s) && j <= span && forall i: nat :: 0.0 <= tape(i) < 1.0
    ensures var props := Draws(s, greedy, tape, at, ctx, span);
      Survivors(s, greedy, tape, middle, ctx, props, j) == span
    decreases span - j
  {
    var props := Draws(s, greedy, tape, at, ctx, span);
    SurvivorsStep(s, greedy, tape, middle, ctx, props, j);
    if j < span {
      DrawnAt(s, greedy, tape, at, ctx, span, j);
      TwinsSurvive(s, greedy, tape, at, middle + 1, ctx, span, j + 1);
      hide Draws, Survivors;
      OwnChoiceSurvives(s, greedy, tape(at + j), tape(middle), ctx + props[..j]);
    }
  }

  lemma OwnChoiceSurvives(s: Setup, greedy: bool, u: real, v: real, seen: seq<nat>)
    requires s.Valid() && Twins(s) && 0.0 <= u < 1.0 && 0.0 <= v < 1.0
    ensures Survives(s, greedy, v, seen, Chosen(s.draft(seen), greedy, u))
  {
    if !greedy {
      var p := s.draft(seen).probs;
      PickInRange(p, u);
      var x := Pick(p, u);
      RatioOfSelf(p[x]);
    }
  }

  lemma RatioOfSelf(a: real)
    requires a > 0.0
    ensures a / a == 1.0
  {
    var r := a / a;
    assert r * a == a;
    SameProduct(r, 1.0, a);
  }

  lemma WholeBlock(s: Setup, greedy: bool, tape: nat -> real, at: nat, ctx: seq<nat>, n: nat)
    requires s.Valid() && Twins(s) && |ctx| < n && forall i: nat :: 0.0 <= tape(i) < 1.0
    ensures var b := BlockOf(s, greedy, tape, at, ctx, n); b.taken == |b.proposals|
  {
    var span := Min(s.lookahead, n - |ctx|);
    TwinsSurvive(s, greedy, tape, at, if greedy then at else at + span, ctx, span, 0);
    hide Draws, Survivors, Twins;
  }

  /** With a draft equal to the target every proposal is kept, and the target is called once for each
      portion of `lookahead + 1` tokens, greedy or not. */
  lemma {:induction false} TwinDraft(s: Setup, greedy: bool, tape: nat -> real, at: nat, ctx: seq<nat>, n: nat)
    requires s.Valid() && Twins(s) && forall i: nat :: 0.0 <= tape(i) < 1.0
    ensures var w := Walk(s, greedy, tape, at, ctx, n);
      w.blocks == CeilDiv(Missing(ctx, n), s.lookahead + 1) && w.kept == w.proposed
    decreases Missing(ctx, n)
  {
    hide Walk, BlockOf, After, CeilDiv, Twins;
    var portion := s.lookahead + 1;
    if |ctx| >= n {
      CeilDivUnique(0, portion, 0);
      WalkEnds(s, greedy, tape, at, ctx, n);
    } else {
      var b := BlockOf(s, greedy, tape, at, ctx, n);
      WholeBlock(s, greedy, tape, at, ctx, n);
      OneBlock(s, greedy, tape, at, ctx, n);
      TwinDraft(s, greedy, tape, b.at, After(ctx, b, n), n);
      Portions(Missing(ctx, n), Missing(After(ctx, b, n), n), portion);
    }
  }

  lemma EmptyBlock(s: Setup, tape: nat -> real, at: nat, ctx: seq<nat>, n: nat)
    requires s.Valid() && |ctx| < n && s.draft(ctx).top != s.target(ctx).top
    ensures BlockOf(s, true, tape, at, ctx, n).taken == 0
  {
    var span := Min(s.lookahead, n - |ctx|);
    var props := Draws(s, true, tape, at, ctx, span);
    DrawnAt(s, true, tape, at, ctx, span, 0);
    SurvivorsStep(s, true, tape, at, ctx, props, 0);
    assert ctx + props[..0] == ctx;
    hide Draws, Survivors;
  }

  /** What is proposed when every block settles one token. */
  function Offered(missing: nat, lookahead: nat): nat {
    if missing == 0 then 0 else Min(lookahead, missing) + Offered(missing - 1, lookahead)
  }

  /** With a draft whose argmax is never the target's, nothing is kept, and every token costs a call. */
  lemma {:induction false} ContraryDraft(s: Setup, tape: nat -> real, at: nat, ctx: seq<nat>, n: nat)
    requires s.Valid() && forall h: seq<nat> :: s.draft(h).top != s.target(h).top
    ensures var w := Walk(s, true, tape, at, ctx, n);
      w.kept == 0 && w.blocks == Missing(ctx, n) && w.proposed == Offered(Missing(ctx, n), s.lookahead)
    decreases Missing(ctx, n)
  {
    hide Walk, BlockOf, After;
    if |ctx| >= n {
      WalkEnds(s, true, tape, at, ctx, n);
    } else {
      var b := BlockOf(s, true, tape, at, ctx, n);
      EmptyBlock(s, tape, at, ctx, n);
      OneBlock(s, true, tape, at, ctx, n);
      ContraryDraft(s, tape, b.at, After(ctx, b, n), n);
    }
  }

  // ---------------------------------------------------------------------------
  // What to expect of a lookahead.
  // ---------------------------------------------------------------------------

  function Times(a: real, b: real): real {
    a * b
  }

  function Power(a: real, n: nat): real {
    if n == 0 then 1.0 else Times(a, Power(a, n - 1))
  }

  /** The prediction for a draft whose every proposal is kept with probability `acceptance`. */
  function ExpectedTokensPerCall(acceptance: real, lookahead: int): Option<real> {
    if !(0.0 <= acceptance <= 1.0) || lookahead < 1 then None
    else if acceptance >= 1.0 then Some((lookahead + 1) as real)
    else Some((1.0 - Power(acceptance, lookahead + 1)) / (1.0 - acceptance))
  }

  /** The mean number of tokens of a block, with `left` proposals still to be judged: the next one is
      kept and the block goes on, or it is replaced and the block ends; the last token is free. */
  function MeanTokens(acceptance: real, left: nat): real {
    if left == 0 then 1.0
    else acceptance * (1.0 + MeanTokens(acceptance, left - 1)) + (1.0 - acceptance) * 1.0
  }

  lemma {:induction false} MeanTelescopes(a: real, left: nat)
    ensures MeanTokens(a, left) * (1.0 - a) == 1.0 - Power(a, left + 1)
  {
    if left == 0 {
    } else {
      MeanTelescopes(a, left - 1);
      var m, p := MeanTokens(a, left - 1), Power(a, left);
      assert MeanTokens(a, left) == 1.0 + a * m;
      assert (1.0 + a * m) * (1.0 - a) == 1.0 - a + a * (m * (1.0 - a));
    }
  }

  lemma {:induction false} AllKept(left: nat)
    ensures MeanTokens(1.0, left) == (left + 1) as real
  {
    if left == 0 {
    } else {
      AllKept(left - 1);
    }
  }

  /** The prediction is the mean, and it is made exactly for a probability and a positive lookahead. */
  lemma PredictionIsMean(acceptance: real, lookahead: int)
    ensures ExpectedTokensPerCall(acceptance, lookahead) ==
      if 0.0 <= acceptance <= 1.0 && lookahead >= 1 then Some(MeanTokens(acceptance, lookahead)) else None
  {
    if 0.0 <= acceptance <= 1.0 && lookahead >= 1 {
      if acceptance == 1.0 {
        AllKept(lookahead);
      } else {
        MeanTelescopes(acceptance, lookahead);
        Quotient(1.0 - Power(acceptance, lookahead + 1), MeanTokens(acceptance, lookahead), 1.0 - acceptance);
      }
    }
  }

  lemma Quotient(n: real, m: real, d: real)
    requires d > 0.0 && n == m * d
    ensures n / d == m
  {
    var q := n / d;
    assert q * d == n;
    SameProduct(q, m, d);
  }

  /** One proposal more adds the probability that it and all before it are kept, which is never
      negative; below certain acceptance no lookahead reaches `1 / (1 - acceptance)`. */
  lemma {:induction false} MeanSaturates(a: real, left: nat)
    requires 0.0 <= a <= 1.0
    ensures MeanTokens(a, left + 1) == MeanTokens(a, left) + Power(a, left + 1)
    ensures 0.0 <= Power(a, left + 1) <= a
    ensures 0.0 < a < 1.0 ==> MeanTokens(a, left) * (1.0 - a) < 1.0
  {
    PowerWithin(a, left + 1);
    MeanTelescopes(a, left);
    if left > 0 {
      MeanSaturates(a, left - 1);
      assert MeanTokens(a, left + 1) == 1.0 + a * MeanTokens(a, left);
      assert MeanTokens(a, left) == 1.0 + a * MeanTokens(a, left - 1);
      assert a * (MeanTokens(a, left - 1) + Power(a, left)) == a * MeanTokens(a, left - 1) + a * Power(a, left);
    }
  }

  lemma {:induction false} PowerWithin(a: real, n: nat)
    requires 0.0 <= a <= 1.0
    ensures 0.0 <= Power(a, n) <= if n == 0 then 1.0 else a
    ensures a > 0.0 ==> Power(a, n) > 0.0
  {
    hide Times;
    if n == 0 {
    } else {
      PowerWithin(a, n - 1);
      Scaled(a, Power(a, n - 1));
    }
  }

  lemma Scaled(a: real, p: real)
    requires 0.0 <= a <= 1.0 && 0.0 <= p <= 1.0
    ensures 0.0 <= Times(a, p) <= a
    ensures a > 0.0 && p > 0.0 ==> Times(a, p) > 0.0
  {
    assert a - a * p == a * (1.0 - p);
  }

  /** At even odds and a lookahead of four: 1.9375, with two as the ceiling. */
  lemma EvenOdds()
    ensures ExpectedTokensPerCall(0.5, 4) == Some(1.9375)
  {
    PredictionIsMean(0.5, 4);
    assert MeanTokens(0.5, 1) == 1.5 && MeanTokens(0.5, 2) == 1.75 && MeanTokens(0.5, 3) == 1.875;
  }
}
