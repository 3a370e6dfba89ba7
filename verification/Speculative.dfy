/** Speculative decoding: the decision tree of one `generate` call, the plain
    target decoder it must agree with, and the imperative decoder with its two
    incremental caches.
 */
module Speculative {
  import opened Chance
  import opened Common

  /** One row of logits, seen only through the sampling distribution and the argmax. */
  datatype Row = Row(probs: seq<real>, top: nat)

  /** A causal language model: the prediction after every token history. */
  type Model = seq<nat> -> Row

  ghost predicate ValidModel(m: Model, vocab: nat) {
    forall h: seq<nat> :: IsDistribution(m(h).probs, vocab) && m(h).top < vocab
  }

  datatype Setup = Setup(vocab: nat, target: Model, draft: Model, lookahead: nat) {
    ghost predicate Valid() {
      1 <= lookahead && ValidModel(target, vocab) && ValidModel(draft, vocab)
    }
  }

  /** The chance that a proposed `x` is accepted. The draft never proposes a token of
      probability zero, so the value there is immaterial. */
  function Ratio(p: seq<real>, q: seq<real>, x: nat): real
    requires x < |p| == |q|
  {
    if q[x] == 0.0 then 0.0
    else if p[x] / q[x] > 1.0 then 1.0 else p[x] / q[x]
  }

  /** The part of `p` above `q`: an entry and the smaller of its two probabilities add up to `p`. */
  function Residual(p: seq<real>, q: seq<real>): (r: seq<real>)
    requires |p| == |q|
    ensures |r| == |p| && NonNegative(r)
    ensures forall i :: 0 <= i < |p| ==> r[i] + (if p[i] < q[i] then p[i] else q[i]) == p[i]
  {
    seq(|p|, i requires 0 <= i < |p| => if p[i] > q[i] then p[i] - q[i] else 0.0)
  }

  function Normalised(w: seq<real>): (r: seq<real>)
    ensures |r| == |w|
  {
    var total := Sum(w);
    if total > 0.0 then seq(|w|, i requires 0 <= i < |w| => w[i] / total) else w
  }

  /** Python's `tokens[:n]`. */
  function Clip(tokens: seq<nat>, n: nat): seq<nat> {
    if |tokens| <= n then tokens else tokens[..n]
  }

  function Missing(ctx: seq<nat>, n: nat): nat {
    if |ctx| < n then n - |ctx| else 0
  }

  // ---------------------------------------------------------------------------
  // The reference: the target decoding alone.
  // ---------------------------------------------------------------------------

  /** Ancestral sampling from the target until `n` tokens are settled. */
  ghost function TargetTree(s: Setup, ctx: seq<nat>, n: nat): Tree
    decreases Missing(ctx, n)
  {
    if |ctx| >= n then Leaf(ctx)
    else Draw(s.target(ctx).probs,
              seq(s.vocab, y requires 0 <= y < s.vocab => TargetTree(s, ctx + [y], n)))
  }

  /** Greedy decoding with the target alone. */
  ghost function TargetGreedy(target: Model, ctx: seq<nat>, n: nat): seq<nat>
    decreases Missing(ctx, n)
  {
    if |ctx| >= n then ctx else TargetGreedy(target, ctx + [target(ctx).top], n)
  }

  // ---------------------------------------------------------------------------
  // The program `generate` runs when sampling. `n` is prompt length + budget.
  // ---------------------------------------------------------------------------

  ghost function SpecTree(s: Setup, ctx: seq<nat>, n: nat): Tree
    requires s.Valid()
    decreases Missing(ctx, n), 3, 0
  {
    if |ctx| >= n then Leaf(ctx)
    else ProposeTree(s, ctx, Min(s.lookahead, n - |ctx|), [], n)
  }

  /** The draft draws the rest of a block of `span` proposals. */
  ghost function ProposeTree(s: Setup, ctx: seq<nat>, span: nat, props: seq<nat>, n: nat): Tree
    requires s.Valid() && |ctx| < n && |props| <= span
    decreases Missing(ctx, n), 2, span - |props|
  {
    if |props| == span then VerifyTree(s, ctx, props, 0, n)
    else Draw(s.draft(ctx + props).probs,
              seq(s.vocab, x requires 0 <= x < s.vocab => ProposeTree(s, ctx, span, props + [x], n)))
  }

  /** The target judges proposals `j..` of the block. */
  ghost function VerifyTree(s: Setup, ctx: seq<nat>, props: seq<nat>, j: nat, n: nat): Tree
    requires s.Valid() && |ctx| < n && j <= |props|
    decreases Missing(ctx, n), 1, |props| - j
  {
    if j == |props| then
      SettleTree(s, ctx, props, s.target(ctx + props).probs, n)
    else if props[j] < s.vocab then
      var p, q := s.target(ctx + props[..j]).probs, s.draft(ctx + props[..j]).probs;
      Coin(Ratio(p, q, props[j]),
           VerifyTree(s, ctx, props, j + 1, n),
           SettleTree(s, ctx, props[..j], Normalised(Residual(p, q)), n))
    else Leaf([])
  }

  /** Draw the token after the accepted proposals, clip to the budget, carry on. */
  ghost function SettleTree(s: Setup, ctx: seq<nat>, taken: seq<nat>, w: seq<real>, n: nat): Tree
    requires s.Valid() && |ctx| < n
    decreases Missing(ctx, n), 0, 0
  {
    Draw(w, seq(s.vocab, y requires 0 <= y < s.vocab => SpecTree(s, Clip(ctx + taken + [y], n), n)))
  }

  // ---------------------------------------------------------------------------
  // Randomness, caches and counters.
  // ---------------------------------------------------------------------------

  /** The random generator: a tape of uniform draws and a read position. */
  class Rng {
    const tape: nat -> real
    var at: nat

    ghost predicate Valid() {
      forall i: nat :: 0.0 <= tape(i) < 1.0
    }

    constructor (tape: nat -> real)
      requires forall i: nat :: 0.0 <= tape(i) < 1.0
      ensures Valid() && this.tape == tape && at == 0
    {
      this.tape := tape;
      at := 0;
    }

    method Uniform() returns (u: real)
      requires Valid()
      modifies this
      ensures u == tape(old(at)) && at == old(at) + 1 && 0.0 <= u < 1.0
    {
      u := tape(at);
      at := at + 1;
    }

    method Multinomial(w: seq<real>) returns (x: nat)
      requires Valid() && IsDistribution(w, |w|)
      modifies this
      ensures x == Pick(w, tape(old(at))) && at == old(at) + 1
      ensures x < |w| && w[x] > 0.0
    {
      x := Pick(w, tape(at));
      PickInRange(w, tape(at));
      at := at + 1;
    }
  }

  /** A model's incremental cache: the tokens it has ingested. */
  class ModelCache {
    var history: seq<nat>

    constructor ()
      ensures history == []
    {
      history := [];
    }

    /** Drops `-count` tokens from the end. */
    method Crop(count: int)
      requires 0 < -count <= |history|
      modifies this
      ensures history == old(history)[..|old(history)| + count]
    {
      history := history[..|history| + count];
    }
  }

  class SpeculativeStats {
    var targetCalls: nat
    var draftCalls: nat
    var proposed: nat
    var accepted: nat
    var generated: nat

    constructor ()
      ensures targetCalls == draftCalls == proposed == accepted == generated == 0
    {
      targetCalls, draftCalls, proposed, accepted, generated := 0, 0, 0, 0, 0;
    }
  }

  ghost function History(cache: ModelCache?): seq<nat>
    reads cache
  {
    if cache == null then [] else cache.history
  }

  /** The rows a forward pass yields, one for every input token. */
  function Rows(m: Model, history: seq<nat>, input: seq<nat>): (rows: seq<Row>)
    ensures |rows| == |input|
    ensures forall i :: 0 <= i < |input| ==> rows[i] == m(history + input[..i + 1])
  {
    seq(|input|, i requires 0 <= i < |input| => m(history + input[..i + 1]))
  }

  // ---------------------------------------------------------------------------
  // One block: proposals, verdict, settlement.
  // ---------------------------------------------------------------------------

  /** Each recorded distribution is the draft's own, and gave its proposal positive weight. */
  ghost predicate ProposedFrom(s: Setup, ctx: seq<nat>, proposals: seq<nat>, distributions: seq<seq<real>>) {
    && |proposals| == |distributions|
    && (forall i :: 0 <= i < |proposals| ==> distributions[i] == s.draft(ctx + proposals[..i]).probs)
    && (forall i :: 0 <= i < |proposals| ==> proposals[i] < |distributions[i]| && distributions[i][proposals[i]] > 0.0)
  }

  /** Each proposal is the draft's greedy choice after the ones before it. */
  ghost predicate DraftsOwn(draft: Model, ctx: seq<nat>, proposals: seq<nat>) {
    forall i :: 0 <= i < |proposals| ==> proposals[i] == draft(ctx + proposals[..i]).top
  }

  /** What the draft has proposed so far, and where that leaves the run. */
  ghost predicate Drafted(s: Setup, ctx: seq<nat>, span: nat, n: nat, proposals: seq<nat>,
                          distributions: seq<seq<real>>,
                          greedy: bool, tape: nat -> real, from: nat, at: nat)
    requires s.Valid() && |ctx| < n
  {
    && |proposals| <= span
    && (greedy ==> at == from && DraftsOwn(s.draft, ctx, proposals))
    && (!greedy ==> && ProposedFrom(s, ctx, proposals, distributions)
                    && SameRun(tape, ProposeTree(s, ctx, span, [], n), from,
                               ProposeTree(s, ctx, span, proposals, n), at))
  }

  lemma DraftedNothing(s: Setup, ctx: seq<nat>, span: nat, n: nat, greedy: bool, tape: nat -> real, at: nat)
    requires s.Valid() && |ctx| < n
    ensures Drafted(s, ctx, span, n, [], [], greedy, tape, at, at)
  {
  }

  lemma DraftedMore(s: Setup, ctx: seq<nat>, span: nat, n: nat, proposals: seq<nat>, distributions: seq<seq<real>>,
                    greedy: bool, tape: nat -> real, from: nat, at: nat, x: nat, w: seq<real>)
    requires s.Valid() && |ctx| < n && |proposals| < span && x < s.vocab
    requires Drafted(s, ctx, span, n, proposals, distributions, greedy, tape, from, at)
    requires greedy ==> x == s.draft(ctx + proposals).top
    requires !greedy ==> w == s.draft(ctx + proposals).probs && x == Pick(w, tape(at)) && x < |w| && w[x] > 0.0
    ensures Drafted(s, ctx, span, n, proposals + [x], distributions + [w], greedy, tape, from,
                    if greedy then at else at + 1)
  {
    hide ProposeTree, Follow, Pick;
    Prefixes(proposals, x);
    if !greedy {
      FollowPropose(s, ctx, span, proposals, n, x, tape, at);
      hide DraftsOwn;
    } else {
      hide ProposedFrom, SameRun;
    }
  }

  lemma Prefixes(proposals: seq<nat>, x: nat)
    ensures forall k :: 0 <= k <= |proposals| ==> (proposals + [x])[..k] == proposals[..k]
    ensures proposals[..|proposals|] == proposals
  {
  }

  lemma DraftedOwn(s: Setup, ctx: seq<nat>, span: nat, n: nat, proposals: seq<nat>, distributions: seq<seq<real>>,
                   greedy: bool, tape: nat -> real, from: nat, at: nat)
    requires s.Valid() && |ctx| < n
    requires Drafted(s, ctx, span, n, proposals, distributions, greedy, tape, from, at)
    ensures !greedy ==> ProposedFrom(s, ctx, proposals, distributions)
  {
  }

  /** The run, or the target's greedy path, continues from `ctx` at `from` as from `after` at `at`. */
  ghost predicate Advances(s: Setup, greedy: bool, n: nat, tape: nat -> real, ctx: seq<nat>, from: nat,
                           after: seq<nat>, at: nat)
    requires s.Valid()
  {
    && (greedy ==> TargetGreedy(s.target, after, n) == TargetGreedy(s.target, ctx, n))
    && (!greedy ==> SameRun(tape, SpecTree(s, ctx, n), from, SpecTree(s, after, n), at))
  }

  lemma BlockAdvances(s: Setup, ctx: seq<nat>, span: nat, n: nat, proposals: seq<nat>, distributions: seq<seq<real>>,
                      greedy: bool, tape: nat -> real, from: nat, middle: nat, taken: nat, replacement: nat, at: nat)
    requires s.Valid() && |ctx| < n && span == Min(s.lookahead, n - |ctx|)
    requires taken <= |proposals| == span
    requires Drafted(s, ctx, span, n, proposals, distributions, greedy, tape, from, middle)
    requires greedy ==> forall i :: 0 <= i < taken ==> proposals[i] == s.target(ctx + proposals[..i]).top
    requires greedy ==> replacement == s.target(ctx + proposals[..taken]).top
    requires !greedy ==> SameRun(tape, VerifyTree(s, ctx, proposals, 0, n), middle,
                                 SpecTree(s, Clip(ctx + proposals[..taken] + [replacement], n), n), at)
    ensures Advances(s, greedy, n, tape, ctx, from, Clip(ctx + proposals[..taken] + [replacement], n), at)
  {
    if greedy {
      GreedyBlock(s.target, ctx, proposals, taken, n);
    } else {
      BlockStarts(s, ctx, n);
      BlockProposed(s, ctx, proposals, n);
      hide SpecTree, ProposeTree, VerifyTree;
    }
  }

  /** What one block settles, and that both caches roll back to a prefix of it. */
  lemma BlockSettled(ctx: seq<nat>, proposals: seq<nat>, taken: nat, replacement: nat, n: nat)
    requires taken <= |proposals| && 1 <= |proposals| && |ctx| + |proposals| <= n
    ensures var context := ctx + Clip(proposals[..taken] + [replacement], n - |ctx|);
      && context == Clip(ctx + proposals[..taken] + [replacement], n)
      && |context| == Min(|ctx| + taken + 1, n)
      && ctx + proposals[..taken] <= context
  {
  }

  /** Two programs, each from its own tape position, that return the same string. */
  ghost predicate SameRun(tape: nat -> real, s: Tree, from: nat, t: Tree, at: nat) {
    Follow(s, tape, from) == Follow(t, tape, at)
  }

  lemma BlockStarts(s: Setup, ctx: seq<nat>, n: nat)
    requires s.Valid() && |ctx| < n
    ensures SpecTree(s, ctx, n) == ProposeTree(s, ctx, Min(s.lookahead, n - |ctx|), [], n)
  {
  }

  lemma BlockProposed(s: Setup, ctx: seq<nat>, props: seq<nat>, n: nat)
    requires s.Valid() && |ctx| < n
    ensures ProposeTree(s, ctx, |props|, props, n) == VerifyTree(s, ctx, props, 0, n)
  {
  }

  lemma BudgetSpent(s: Setup, ctx: seq<nat>, n: nat, tape: nat -> real, at: nat)
    requires s.Valid() && |ctx| >= n
    ensures Follow(SpecTree(s, ctx, n), tape, at) == ctx
    ensures TargetGreedy(s.target, ctx, n) == ctx
  {
  }

  lemma FollowPropose(s: Setup, ctx: seq<nat>, span: nat, props: seq<nat>, n: nat, x: nat, tape: nat -> real, at: nat)
    requires s.Valid() && |ctx| < n && |props| < span && x < s.vocab
    requires x == Pick(s.draft(ctx + props).probs, tape(at))
    ensures SameRun(tape, ProposeTree(s, ctx, span, props, n), at, ProposeTree(s, ctx, span, props + [x], n), at + 1)
  {
  }

  lemma FollowAccept(s: Setup, ctx: seq<nat>, props: seq<nat>, j: nat, n: nat, tape: nat -> real, at: nat)
    requires s.Valid() && |ctx| < n && j < |props| && props[j] < s.vocab
    requires tape(at) < Ratio(s.target(ctx + props[..j]).probs, s.draft(ctx + props[..j]).probs, props[j])
    ensures SameRun(tape, VerifyTree(s, ctx, props, j, n), at, VerifyTree(s, ctx, props, j + 1, n), at + 1)
  {
  }

  lemma FollowReject(s: Setup, ctx: seq<nat>, props: seq<nat>, j: nat, n: nat, y: nat, tape: nat -> real, at: nat)
    requires s.Valid() && |ctx| < n && j < |props| && props[j] < s.vocab && y < s.vocab
    requires tape(at) >= Ratio(s.target(ctx + props[..j]).probs, s.draft(ctx + props[..j]).probs, props[j])
    requires var seen := ctx + props[..j];
      y == Pick(Normalised(Residual(s.target(seen).probs, s.draft(seen).probs)), tape(at + 1))
    ensures SameRun(tape, VerifyTree(s, ctx, props, j, n), at, SpecTree(s, Clip(ctx + props[..j] + [y], n), n), at + 2)
  {
  }

  lemma FollowBonus(s: Setup, ctx: seq<nat>, props: seq<nat>, n: nat, y: nat, tape: nat -> real, at: nat)
    requires s.Valid() && |ctx| < n && y < s.vocab
    requires y == Pick(s.target(ctx + props).probs, tape(at))
    ensures SameRun(tape, VerifyTree(s, ctx, props, |props|, n), at, SpecTree(s, Clip(ctx + props + [y], n), n), at + 1)
  {
  }

  /** The last `span + 1` rows of the target's pass are its predictions at the proposals. */
  lemma VerdictAligned(m: Model, ctx: seq<nat>, ingested: nat, proposals: seq<nat>, span: nat)
    requires ingested < |ctx| && |proposals| == span
    ensures ctx[..ingested] + (ctx[ingested..] + proposals) == ctx + proposals
    ensures var rows := Rows(m, ctx[..ingested], ctx[ingested..] + proposals);
      |rows| >= span + 1 &&
      forall i :: 0 <= i <= span ==> rows[|rows| - (span + 1)..][i] == m(ctx + proposals[..i])
  {
    var input := ctx[ingested..] + proposals;
    forall i | 0 <= i <= span
      ensures ctx[..ingested] + input[..|input| - (span + 1) + i + 1] == ctx + proposals[..i]
    {
    }
  }

  /** A block of target-approved proposals followed by the target's own token
      stays on the target's greedy path, clipped or not. */
  lemma {:induction false} GreedyBlock(target: Model, ctx: seq<nat>, props: seq<nat>, taken: nat, n: nat)
    requires |ctx| < n && taken <= |props| && |ctx| + taken <= n
    requires forall i :: 0 <= i < taken ==> props[i] == target(ctx + props[..i]).top
    ensures TargetGreedy(target, Clip(ctx + props[..taken] + [target(ctx + props[..taken]).top], n), n)
         == TargetGreedy(target, ctx, n)
  {
    GreedyPrefix(target, ctx, props, taken, n);
    if |ctx| + taken == n {
      assert Clip(ctx + props[..taken] + [target(ctx + props[..taken]).top], n) == ctx + props[..taken];
    }
  }

  lemma {:induction false} GreedyPrefix(target: Model, ctx: seq<nat>, props: seq<nat>, taken: nat, n: nat)
    requires taken <= |props| && |ctx| + taken <= n
    requires forall i :: 0 <= i < taken ==> props[i] == target(ctx + props[..i]).top
    ensures TargetGreedy(target, ctx + props[..taken], n) == TargetGreedy(target, ctx, n)
  {
    if taken == 0 {
      assert ctx + props[..0] == ctx;
    } else {
      GreedyPrefix(target, ctx, props, taken - 1, n);
      assert ctx + props[..taken] == (ctx + props[..taken - 1]) + [props[taken - 1]];
    }
  }

  // ---------------------------------------------------------------------------
  // The blocks of a run, counted without running it.
  // ---------------------------------------------------------------------------

  /** The token a row yields: its argmax, or what the uniform number `u` draws. */
  ghost function Chosen(row: Row, greedy: bool, u: real): nat {
    if greedy then row.top else Pick(row.probs, u)
  }

  /** What the draft proposes after `seen`, one token at a time. */
  ghost function Draws(s: Setup, greedy: bool, tape: nat -> real, at: nat, seen: seq<nat>, span: nat): (r: seq<nat>)
    ensures |r| == span
    decreases span
  {
    if span == 0 then []
    else
      var x := Chosen(s.draft(seen), greedy, tape(at));
      [x] + Draws(s, greedy, tape, at + 1, seen + [x], span - 1)
  }

  /** Whether the target keeps `x` after `seen`: it is its own choice, or `u` falls below the ratio. */
  ghost predicate Survives(s: Setup, greedy: bool, u: real, seen: seq<nat>, x: nat)
    requires s.Valid()
  {
    if greedy then s.target(seen).top == x
    else x < s.vocab && u < Ratio(s.target(seen).probs, s.draft(seen).probs, x)
  }

  /** How many proposals the target keeps, from the `j`-th on, before it rejects one. */
  ghost function Survivors(s: Setup, greedy: bool, tape: nat -> real, at: nat, ctx: seq<nat>, props: seq<nat>,
                           j: nat): (taken: nat)
    requires s.Valid() && j <= |props|
    ensures j <= taken <= |props|
    decreases |props| - j
  {
    if j < |props| && Survives(s, greedy, tape(at), ctx + props[..j], props[j])
    then Survivors(s, greedy, tape, at + 1, ctx, props, j + 1)
    else j
  }

  /** The token that follows the proposals kept. */
  ghost function Successor(s: Setup, greedy: bool, tape: nat -> real, at: nat, ctx: seq<nat>, props: seq<nat>,
                           taken: nat): nat
    requires s.Valid() && taken <= |props|
  {
    var p, q := s.target(ctx + props[..taken]), s.draft(ctx + props[..taken]);
    if greedy then p.top
    else if taken == |props| then Pick(p.probs, tape(at + taken))
    else Pick(Normalised(Residual(p.probs, q.probs)), tape(at + taken + 1))
  }

  /** One block: what is proposed, how much of it is kept, what follows, and where the tape is then. */
  datatype Block = Block(proposals: seq<nat>, taken: nat, replacement: nat, at: nat)

  ghost function BlockOf(s: Setup, greedy: bool, tape: nat -> real, at: nat, ctx: seq<nat>, n: nat): (b: Block)
    requires s.Valid() && |ctx| < n
    ensures b.taken <= |b.proposals| == Min(s.lookahead, n - |ctx|)
  {
    var span := Min(s.lookahead, n - |ctx|);
    var props := Draws(s, greedy, tape, at, ctx, span);
    var middle := if greedy then at else at + span;
    var taken := Survivors(s, greedy, tape, middle, ctx, props, 0);
    Block(props, taken, Successor(s, greedy, tape, middle, ctx, props, taken),
          if greedy then at else middle + taken + if taken == span then 1 else 2)
  }

  /** The context after a block. */
  ghost function After(ctx: seq<nat>, b: Block, n: nat): seq<nat>
    requires b.taken <= |b.proposals|
  {
    Clip(ctx + b.proposals[..b.taken] + [b.replacement], n)
  }

  /** What a run comes to: its blocks, each one target call, and the tokens proposed and kept in them. */
  datatype Tally = Tally(blocks: nat, proposed: nat, kept: nat) {
    function Plus(other: Tally): Tally {
      Tally(blocks + other.blocks, proposed + other.proposed, kept + other.kept)
    }
  }

  ghost function Walk(s: Setup, greedy: bool, tape: nat -> real, at: nat, ctx: seq<nat>, n: nat): Tally
    requires s.Valid()
    decreases Missing(ctx, n)
  {
    if |ctx| >= n then Tally(0, 0, 0)
    else
      var b := BlockOf(s, greedy, tape, at, ctx, n);
      Tally(1, |b.proposals|, b.taken).Plus(Walk(s, greedy, tape, b.at, After(ctx, b, n), n))
  }

  /** The next proposal is kept, or is where the block ends. */
  lemma SurvivorsStep(s: Setup, greedy: bool, tape: nat -> real, at: nat, ctx: seq<nat>, props: seq<nat>, j: nat)
    requires s.Valid() && j <= |props|
    ensures Survivors(s, greedy, tape, at, ctx, props, j) ==
      if j < |props| && Survives(s, greedy, tape(at), ctx + props[..j], props[j])
      then Survivors(s, greedy, tape, at + 1, ctx, props, j + 1) else j
  {
  }

  lemma BlockIs(s: Setup, greedy: bool, tape: nat -> real, at: nat, ctx: seq<nat>, n: nat, props: seq<nat>, middle: nat,
                taken: nat)
    requires s.Valid() && |ctx| < n && props == Draws(s, greedy, tape, at, ctx, Min(s.lookahead, n - |ctx|))
    requires middle == if greedy then at else at + |props|
    requires taken == Survivors(s, greedy, tape, middle, ctx, props, 0)
    ensures BlockOf(s, greedy, tape, at, ctx, n) ==
      Block(props, taken, Successor(s, greedy, tape, middle, ctx, props, taken),
            if greedy then at else middle + taken + if taken == |props| then 1 else 2)
  {
  }

  lemma PlusOn(done: Tally, block: Tally, rest: Tally)
    ensures done.Plus(block).Plus(rest) == done.Plus(block.Plus(rest)) && done.Plus(Tally(0, 0, 0)) == done
    ensures Tally(0, 0, 0).Plus(rest) == rest
    ensures done.Plus(block) ==
      Tally(done.blocks + block.blocks, done.proposed + block.proposed, done.kept + block.kept)
  {
  }

  lemma WalkOn(s: Setup, greedy: bool, tape: nat -> real, at: nat, ctx: seq<nat>, n: nat)
    requires s.Valid() && |ctx| < n
    ensures var b := BlockOf(s, greedy, tape, at, ctx, n);
      Walk(s, greedy, tape, at, ctx, n) ==
      Tally(1, |b.proposals|, b.taken).Plus(Walk(s, greedy, tape, b.at, After(ctx, b, n), n))
  {
    hide BlockOf;
  }

  lemma WalkEnds(s: Setup, greedy: bool, tape: nat -> real, at: nat, ctx: seq<nat>, n: nat)
    requires s.Valid() && |ctx| >= n
    ensures Walk(s, greedy, tape, at, ctx, n) == Tally(0, 0, 0)
  {
  }

  lemma NoDraws(s: Setup, greedy: bool, tape: nat -> real, at: nat, seen: seq<nat>)
    ensures Draws(s, greedy, tape, at, seen, 0) == []
  {
  }

  lemma DrawsMore(s: Setup, greedy: bool, tape: nat -> real, at: nat, ctx: seq<nat>, props: seq<nat>, span: nat, x: nat)
    requires span > 0 && x == Chosen(s.draft(ctx + props), greedy, tape(at))
    ensures props + Draws(s, greedy, tape, at, ctx + props, span) ==
      (props + [x]) + Draws(s, greedy, tape, at + 1, ctx + (props + [x]), span - 1)
  {
    assert ctx + props + [x] == ctx + (props + [x]);
  }

  // ---------------------------------------------------------------------------
  // Rejection and the residual.
  // ---------------------------------------------------------------------------

  /** The excess of `p` over `q` and of `q` over `p` weigh the same. */
  lemma {:induction false} ExcessBalance(p: seq<real>, q: seq<real>)
    requires |p| == |q|
    ensures Sum(Residual(p, q)) - Sum(Residual(q, p)) == Sum(p) - Sum(q)
  {
    if p == [] {
    } else {
      ExcessBalance(p[1..], q[1..]);
      assert Residual(p, q)[1..] == Residual(p[1..], q[1..]);
      assert Residual(q, p)[1..] == Residual(q[1..], p[1..]);
    }
  }

  lemma {:induction false} EntryBelowSum(w: seq<real>, i: nat)
    requires NonNegative(w) && i < |w|
    ensures w[i] <= Sum(w)
  {
    SumNonNegative(w[1..]);
    if i > 0 { EntryBelowSum(w[1..], i - 1); }
  }

  /** The decoder's assertion: where a rejection is possible the residual has mass. */
  lemma RejectionLeavesResidual(p: seq<real>, q: seq<real>, x: nat)
    requires |p| == |q| && IsDistribution(p, |p|) && IsDistribution(q, |q|)
    requires x < |p| && q[x] > 0.0 && Ratio(p, q, x) < 1.0
    ensures Sum(Residual(p, q)) > 0.0
  {
    QuotientBelowOne(p[x], q[x]);
    ExcessBalance(p, q);
    EntryBelowSum(Residual(q, p), x);
  }

  lemma {:induction false} SumScaled(w: seq<real>, v: seq<real>, c: real)
    requires |v| == |w| && forall i :: 0 <= i < |w| ==> v[i] == w[i] * c
    ensures Sum(v) == Sum(w) * c
  {
    if w == [] {
    } else {
      SumScaled(w[1..], v[1..], c);
      assert (w[0] + Sum(w[1..])) * c == w[0] * c + Sum(w[1..]) * c;
    }
  }

  lemma InverseOf(t: real) returns (c: real)
    requires t > 0.0
    ensures t * c == 1.0 && c > 0.0
  {
    c := 1.0 / t;
  }

  lemma DivideIsScale(a: real, t: real, c: real)
    requires t > 0.0 && t * c == 1.0
    ensures a / t == a * c
    ensures a >= 0.0 && c > 0.0 ==> a * c >= 0.0
  {
    var d := a / t;
    assert d == d * (t * c) == (d * t) * c;
  }

  lemma NormalisedEntry(w: seq<real>, c: real, i: nat)
    requires NonNegative(w) && Sum(w) > 0.0 && Sum(w) * c == 1.0 && c > 0.0 && i < |w|
    ensures Normalised(w)[i] == w[i] * c && Normalised(w)[i] >= 0.0
  {
    hide Sum;
    DivideIsScale(w[i], Sum(w), c);
  }

  lemma NormalisedIsDistribution(w: seq<real>)
    requires NonNegative(w) && Sum(w) > 0.0
    ensures IsDistribution(Normalised(w), |w|)
  {
    hide Normalised, Sum;
    var c := InverseOf(Sum(w));
    NormalisedEntries(w, c);
    SumScaled(w, Normalised(w), c);
  }

  lemma NormalisedEntries(w: seq<real>, c: real)
    requires NonNegative(w) && Sum(w) > 0.0 && Sum(w) * c == 1.0 && c > 0.0
    ensures NonNegative(Normalised(w))
    ensures forall i :: 0 <= i < |w| ==> Normalised(w)[i] == w[i] * c
  {
    hide Normalised, Sum;
    forall i | 0 <= i < |w| ensures Normalised(w)[i] == w[i] * c && Normalised(w)[i] >= 0.0 {
      NormalisedEntry(w, c, i);
    }
  }

  lemma QuotientBelowOne(a: real, b: real)
    requires b > 0.0 && a / b < 1.0
    ensures a < b
  {
    var c := a / b;
    assert a == c * b;
  }

  // ---------------------------------------------------------------------------
  // The decoder.
  // ---------------------------------------------------------------------------

  class SpeculativeDecoder {
    const setup: Setup

    constructor (setup: Setup)
      ensures this.setup == setup
    {
      this.setup := setup;
    }

    /** A forward pass: predicts after every input token and ingests the input. */
    method Forward(m: Model, input: seq<nat>, cache: ModelCache?) returns (rows: seq<Row>, grown: ModelCache)
      modifies cache
      ensures cache == null ==> fresh(grown)
      ensures cache != null ==> grown == cache
      ensures rows == Rows(m, old(History(cache)), input)
      ensures grown.history == old(History(cache)) + input
    {
      if cache == null {
        grown := new ModelCache();
      } else {
        grown := cache;
      }
      rows := Rows(m, grown.history, input);
      grown.history := grown.history + input;
    }

    /** Only the first `wanted` of `current` tokens stay. Nothing is called when that is all of them. */
    method Crop(cache: ModelCache, current: nat, wanted: nat)
      requires wanted <= current == |cache.history|
      modifies cache
      ensures cache.history == old(cache.history)[..wanted]
    {
      var excess := current - wanted;
      if excess > 0 {
        cache.Crop(-excess);
      }
    }

    /** One draft call: ingest `stepInput`, then choose the next proposal. */
    method DraftToken(ghost seen: seq<nat>, stepInput: seq<nat>, cache: ModelCache?, greedy: bool, rng: Rng,
                      stats: SpeculativeStats)
      returns (token: nat, probabilities: seq<real>, grown: ModelCache)
      requires setup.Valid() && rng.Valid()
      requires stepInput != [] && History(cache) + stepInput == seen
      modifies rng, cache, stats`draftCalls
      ensures cache == null ==> fresh(grown)
      ensures cache != null ==> grown == cache
      ensures grown.history == seen && token < setup.vocab
      ensures stats.draftCalls == old(stats.draftCalls) + 1
      ensures greedy ==> rng.at == old(rng.at) && token == setup.draft(seen).top
      ensures !greedy ==> && rng.at == old(rng.at) + 1
                          && probabilities == setup.draft(seen).probs
                          && token == Pick(probabilities, rng.tape(old(rng.at)))
                          && token < |probabilities| && probabilities[token] > 0.0
    {
      var rows;
      rows, grown := Forward(setup.draft, stepInput, cache);
      stats.draftCalls := stats.draftCalls + 1;
      var row := rows[|rows| - 1];
      assert stepInput[..|stepInput| - 1 + 1] == stepInput;
      if greedy {
        token := row.top;
        probabilities := seq(|row.probs|, x => if x == token then 1.0 else 0.0);
      } else {
        probabilities := row.probs;
        token := rng.Multinomial(probabilities);
      }
    }

    /** A block of `span` proposals, each conditioned on those before it. */
    method Propose(ghost ctx: seq<nat>, ghost n: nat, pending: seq<nat>, cache: ModelCache?, span: nat,
                   greedy: bool, rng: Rng, stats: SpeculativeStats)
      returns (proposals: seq<nat>, distributions: seq<seq<real>>, grown: ModelCache)
      requires setup.Valid() && rng.Valid() && 1 <= span && |ctx| < n
      requires pending != [] && History(cache) + pending == ctx
      modifies rng, cache, stats`draftCalls
      ensures cache == null ==> fresh(grown)
      ensures cache != null ==> grown == cache
      ensures |proposals| == |distributions| == span
      ensures grown.history == ctx + proposals[..span - 1]
      ensures stats.draftCalls == old(stats.draftCalls) + span
      ensures Drafted(setup, ctx, span, n, proposals, distributions, greedy, rng.tape, old(rng.at), rng.at)
      ensures proposals == Draws(setup, greedy, rng.tape, old(rng.at), ctx, span)
      ensures rng.at == if greedy then old(rng.at) else old(rng.at) + span
    {
      hide Drafted, Draws;
      proposals, distributions := [], [];
      var stepInput := pending;
      var current := cache;
      DraftedNothing(setup, ctx, span, n, greedy, rng.tape, rng.at);
      for i := 0 to span
        invariant |proposals| == |distributions| == i
        invariant stepInput != [] && History(current) + stepInput == ctx + proposals
        invariant i == 0 ==> current == cache
        invariant i > 0 ==> current != null && (if cache == null then fresh(current) else current == cache)
        invariant i > 0 ==> |stepInput| == 1
        invariant stats.draftCalls == old(stats.draftCalls) + i
        invariant Drafted(setup, ctx, span, n, proposals, distributions, greedy, rng.tape, old(rng.at), rng.at)
        invariant rng.at == if greedy then old(rng.at) else old(rng.at) + i
        invariant Draws(setup, greedy, rng.tape, old(rng.at), ctx, span) ==
          proposals + Draws(setup, greedy, rng.tape, old(rng.at) + i, ctx + proposals, span - i)
      {
        ghost var at := rng.at;
        var token, probabilities, after := DraftToken(ctx + proposals, stepInput, current, greedy, rng, stats);
        DraftedMore(setup, ctx, span, n, proposals, distributions, greedy, rng.tape, old(rng.at), at, token,
                    probabilities);
        DrawsMore(setup, greedy, rng.tape, old(rng.at) + i, ctx, proposals, span - i, token);
        current := after;
        proposals := proposals + [token];
        distributions := distributions + [probabilities];
        stepInput := [token];
      }
      NoDraws(setup, greedy, rng.tape, old(rng.at) + span, ctx + proposals);
      grown := current;
      assert grown.history == (ctx + proposals)[..|ctx| + span - 1] == ctx + proposals[..span - 1];
    }

    /** Judges the block: the accepted prefix, and what replaces the first rejection or comes after all. */
    method Verify(ghost ctx: seq<nat>, ghost n: nat, proposals: seq<nat>, verdict: seq<Row>,
                  draftProbabilities: seq<seq<real>>, greedy: bool, rng: Rng)
      returns (taken: nat, replacement: nat)
      requires setup.Valid() && rng.Valid() && |ctx| < n
      requires |verdict| == |proposals| + 1
      requires forall i :: 0 <= i <= |proposals| ==> verdict[i] == setup.target(ctx + proposals[..i])
      requires !greedy ==> ProposedFrom(setup, ctx, proposals, draftProbabilities)
      modifies rng
      ensures taken <= |proposals|
      ensures greedy ==> forall i :: 0 <= i < taken ==> proposals[i] == setup.target(ctx + proposals[..i]).top
      ensures greedy ==> replacement == setup.target(ctx + proposals[..taken]).top
      ensures greedy ==> taken < |proposals| ==> replacement != proposals[taken]
      ensures taken == Survivors(setup, greedy, rng.tape, old(rng.at), ctx, proposals, 0)
      ensures replacement == Successor(setup, greedy, rng.tape, old(rng.at), ctx, proposals, taken)
      ensures rng.at == if greedy then old(rng.at)
                        else old(rng.at) + taken + if taken == |proposals| then 1 else 2
      ensures !greedy ==> SameRun(rng.tape, VerifyTree(setup, ctx, proposals, 0, n), old(rng.at),
                                  SpecTree(setup, Clip(ctx + proposals[..taken] + [replacement], n), n), rng.at)
    {
      hide ProposeTree, VerifyTree, SpecTree, SettleTree, Follow, Ratio, Residual, Normalised, Sum, Survivors;
      for index := 0 to |proposals|
        invariant greedy ==> forall i :: 0 <= i < index ==> proposals[i] == setup.target(ctx + proposals[..i]).top
        invariant !greedy ==> SameRun(rng.tape, VerifyTree(setup, ctx, proposals, 0, n), old(rng.at),
                                      VerifyTree(setup, ctx, proposals, index, n), rng.at)
        invariant rng.at == if greedy then old(rng.at) else old(rng.at) + index
        invariant Survivors(setup, greedy, rng.tape, old(rng.at), ctx, proposals, 0) ==
                  Survivors(setup, greedy, rng.tape, old(rng.at) + index, ctx, proposals, index)
      {
        SurvivorsStep(setup, greedy, rng.tape, old(rng.at) + index, ctx, proposals, index);
        var row := verdict[index];
        if greedy {
          if row.top != proposals[index] {
            return index, row.top;
          }
        } else {
          var target, draft := row.probs, draftProbabilities[index];
          var proposed := proposals[index];
          var ratio := Ratio(target, draft, proposed);
          ghost var at := rng.at;
          var u := rng.Uniform();
          if u < ratio {
            FollowAccept(setup, ctx, proposals, index, n, rng.tape, at);
          } else {
            var residual := Residual(target, draft);
            var total := Sum(residual);
            RejectionLeavesResidual(target, draft, proposed);
            assert total > 0.0;
            NormalisedIsDistribution(residual);
            var y := rng.Multinomial(Normalised(residual));
            FollowReject(setup, ctx, proposals, index, n, y, rng.tape, at);
            return index, y;
          }
        }
      }
      assert proposals[..|proposals|] == proposals;
      SurvivorsStep(setup, greedy, rng.tape, old(rng.at) + |proposals|, ctx, proposals, |proposals|);
      var bonus := verdict[|proposals|];
      taken := |proposals|;
      if greedy {
        replacement := bonus.top;
      } else {
        ghost var at := rng.at;
        replacement := rng.Multinomial(bonus.probs);
        FollowBonus(setup, ctx, proposals, n, replacement, rng.tape, at);
      }
    }

    /** One target pass over the pending tokens and every proposal; the last
        `|proposals| + 1` rows are its verdict on the block. */
    method TargetPass(context: seq<nat>, proposals: seq<nat>, ingested: nat, cache: ModelCache?)
      returns (verdict: seq<Row>, grown: ModelCache)
      requires ingested < |context| && History(cache) == context[..ingested]
      modifies cache
      ensures cache == null ==> fresh(grown)
      ensures cache != null ==> grown == cache
      ensures grown.history == context + proposals
      ensures |verdict| == |proposals| + 1
      ensures forall i :: 0 <= i <= |proposals| ==> verdict[i] == setup.target(context + proposals[..i])
    {
      var block := context[ingested..] + proposals;
      VerdictAligned(setup.target, context, ingested, proposals, |proposals|);
      var rows;
      rows, grown := Forward(setup.target, block, cache);
      verdict := rows[|rows| - (|proposals| + 1)..];
    }

    /** The model calls of one block: the draft proposes, one target pass judges. */
    method Speculate(ghost n: nat, context: seq<nat>, span: nat, draftIngested: nat, draftCache: ModelCache?,
                     targetIngested: nat, targetCache: ModelCache?, greedy: bool, rng: Rng, stats: SpeculativeStats)
      returns (proposals: seq<nat>, taken: nat, replacement: nat, draftAfter: ModelCache, targetAfter: ModelCache)
      requires setup.Valid() && rng.Valid() && |context| < n && span == Min(setup.lookahead, n - |context|)
      requires targetIngested < |context| && History(targetCache) == context[..targetIngested]
      requires draftIngested < |context| && History(draftCache) == context[..draftIngested]
      requires targetCache != null ==> targetCache != draftCache
      modifies rng, draftCache, targetCache, stats
      ensures draftCache == null ==> fresh(draftAfter)
      ensures draftCache != null ==> draftAfter == draftCache
      ensures targetCache == null ==> fresh(targetAfter)
      ensures targetCache != null ==> targetAfter == targetCache
      ensures draftAfter != targetAfter
      ensures taken <= |proposals| == span
      ensures draftAfter.history == context + proposals[..span - 1]
      ensures targetAfter.history == context + proposals
      ensures stats.targetCalls == old(stats.targetCalls) + 1 && stats.generated == old(stats.generated)
      ensures stats.draftCalls == old(stats.draftCalls) + span && stats.proposed == old(stats.proposed) + span
      ensures stats.accepted == old(stats.accepted) + taken
      ensures Block(proposals, taken, replacement, rng.at) ==
        BlockOf(setup, greedy, rng.tape, old(rng.at), context, n)
      ensures Advances(setup, greedy, n, rng.tape, context, old(rng.at),
                       Clip(context + proposals[..taken] + [replacement], n), rng.at)
    {
      hide Drafted, ProposedFrom, SameRun, Advances, ValidModel, Clip, SpecTree, ProposeTree, VerifyTree, Draws,
        Survivors, Successor, BlockOf;
      var draftProbabilities;
      proposals, draftProbabilities, draftAfter :=
        Propose(context, n, context[draftIngested..], draftCache, span, greedy, rng, stats);
      ghost var middle := rng.at;

      var verdict;
      verdict, targetAfter := TargetPass(context, proposals, targetIngested, targetCache);
      stats.targetCalls := stats.targetCalls + 1;

      DraftedOwn(setup, context, span, n, proposals, draftProbabilities, greedy, rng.tape, old(rng.at), middle);
      taken, replacement := Verify(context, n, proposals, verdict, draftProbabilities, greedy, rng);
      BlockAdvances(setup, context, span, n, proposals, draftProbabilities, greedy, rng.tape,
                    old(rng.at), middle, taken, replacement, rng.at);
      BlockIs(setup, greedy, rng.tape, old(rng.at), context, n, proposals, middle, taken);
      stats.proposed := stats.proposed + span;
      stats.accepted := stats.accepted + taken;
    }

    /** Each cache ends as a prefix of the context, its counter saying how long; the token just
        settled is in neither. */
    method RollBack(base: nat, proposals: seq<nat>, taken: nat, ghost ctx: seq<nat>, ghost context: seq<nat>,
                    draftCache: ModelCache, targetCache: ModelCache)
      returns (targetIngested: nat, draftIngested: nat)
      requires base == |ctx| && taken <= |proposals| && 1 <= |proposals| && draftCache != targetCache
      requires draftCache.history == ctx + proposals[..|proposals| - 1]
      requires targetCache.history == ctx + proposals
      requires ctx + proposals[..taken] <= context
      modifies draftCache, targetCache
      ensures targetIngested == base + taken
      ensures draftIngested == Min(base + |proposals| - 1, base + taken)
      ensures targetCache.history == context[..targetIngested]
      ensures draftCache.history == context[..draftIngested]
    {
      var span := |proposals|;
      var draftCovered := base + span - 1;
      targetIngested := base + taken;
      assert (ctx + proposals)[..targetIngested] == ctx + proposals[..taken] == context[..targetIngested];
      Crop(targetCache, base + span, targetIngested);
      draftIngested := Min(draftCovered, targetIngested);
      assert (ctx + proposals[..span - 1])[..draftIngested] == (ctx + proposals[..taken])[..draftIngested];
      Crop(draftCache, draftCovered, draftIngested);
    }

    /** Generates `budget` tokens after a prompt.

        Sampling returns the result the program `SpecTree` reaches on the tape;
        greedy returns the target's own continuation, whatever the draft does. */
    method Generate(inputIds: seq<nat>, budget: nat, greedy: bool, rng: Rng)
      returns (generated: seq<nat>, stats: SpeculativeStats)
      requires setup.Valid() && rng.Valid() && inputIds != []
      modifies rng
      ensures fresh(stats)
      ensures |generated| == budget
      ensures greedy ==> inputIds + generated == TargetGreedy(setup.target, inputIds, |inputIds| + budget)
      ensures !greedy ==>
        Follow(SpecTree(setup, inputIds, |inputIds| + budget), rng.tape, old(rng.at)) == inputIds + generated
      ensures stats.generated == budget
      ensures stats.targetCalls <= budget
      ensures stats.draftCalls == stats.proposed && stats.accepted <= stats.proposed
      ensures stats.generated <= stats.accepted + stats.targetCalls <= stats.generated + 1
      ensures Tally(stats.targetCalls, stats.proposed, stats.accepted) ==
        Walk(setup, greedy, rng.tape, old(rng.at), inputIds, |inputIds| + budget)
    {
      hide SpecTree, Follow, TargetGreedy, Walk, BlockOf, Tally.Plus;
      stats := new SpeculativeStats();
      var context := inputIds;
      var promptLength := |context|;
      var targetIngested: nat, draftIngested: nat := 0, 0;
      var targetCache: ModelCache? := null;
      var draftCache: ModelCache? := null;
      ghost var n := promptLength + budget;
      PlusOn(Tally(0, 0, 0), Tally(0, 0, 0), Walk(setup, greedy, rng.tape, rng.at, context, n));
      while |context| - promptLength < budget
        invariant inputIds <= context && |context| <= n
        invariant fresh(stats)
        invariant targetCache != null ==> fresh(targetCache)
        invariant draftCache != null ==> fresh(draftCache)
        invariant targetCache != null ==> targetCache != draftCache
        // Each cache holds exactly the prefix of `context` its counter names.
        invariant targetIngested <= |context| && History(targetCache) == context[..targetIngested]
        invariant draftIngested <= |context| && History(draftCache) == context[..draftIngested]
        // Anything but the last block leaves at least one token for each model to read.
        invariant |context| < n ==> targetIngested < |context| && draftIngested < |context|
        invariant stats.generated == |context| - promptLength
        invariant stats.targetCalls <= stats.generated
        invariant stats.draftCalls == stats.proposed && stats.accepted <= stats.proposed
        invariant stats.accepted + stats.targetCalls == stats.generated
               || (|context| == n && stats.accepted + stats.targetCalls == stats.generated + 1)
        invariant Advances(setup, greedy, n, rng.tape, inputIds, old(rng.at), context, rng.at)
        invariant Tally(stats.targetCalls, stats.proposed, stats.accepted)
                    .Plus(Walk(setup, greedy, rng.tape, rng.at, context, n)) ==
                  Walk(setup, greedy, rng.tape, old(rng.at), inputIds, n)
        decreases n - |context|
      {
        ghost var ctx := context;
        var base := |context|;
        var remaining := budget - (base - promptLength);
        var span := Min(setup.lookahead, remaining);

        ghost var so := Tally(stats.targetCalls, stats.proposed, stats.accepted);
        WalkOn(setup, greedy, rng.tape, rng.at, context, n);
        var proposals, taken, replacement, draftAfter, targetAfter :=
          Speculate(n, context, span, draftIngested, draftCache, targetIngested, targetCache, greedy, rng, stats);
        draftCache, targetCache := draftAfter, targetAfter;

        var settled := Clip(proposals[..taken] + [replacement], remaining);
        context := context + settled;
        stats.generated := stats.generated + |settled|;
        BlockSettled(ctx, proposals, taken, replacement, n);
        PlusOn(so, Tally(1, span, taken), Walk(setup, greedy, rng.tape, rng.at, context, n));

        targetIngested, draftIngested := RollBack(base, proposals, taken, ctx, context, draftAfter, targetAfter);
      }
      BudgetSpent(setup, context, n, rng.tape, rng.at);
      WalkEnds(setup, greedy, rng.tape, rng.at, context, n);
      PlusOn(Tally(stats.targetCalls, stats.proposed, stats.accepted), Tally(0, 0, 0), Tally(0, 0, 0));
      generated := context[promptLength..];
    }
  }
}
