/** One row of a left-padded batch cache, and the solo run it must not differ from. */
module PaddedCache {

  /** What a model computes at one position: its own cache entry and its best next token. */
  datatype Output<+K> = Output(entry: K, best: nat)

  /** A causal model that sees only unmasked entries: it maps the visible entries
      before a position, the token there and the position id to an output. */
  type Attend<!K> = (seq<K>, nat, nat) -> Output<K>

  /** The entries a mask leaves visible, in order. */
  function Visible<K>(entries: seq<K>, mask: seq<bool>): seq<K>
    requires |entries| == |mask|
  {
    if entries == [] then []
    else
      var n := |entries| - 1;
      Visible(entries[..n], mask[..n]) + (if mask[n] then [entries[n]] else [])
  }

  /** `mask.cumsum()` at the last position. */
  function Count(mask: seq<bool>): nat {
    if mask == [] then 0
    else Count(mask[..|mask| - 1]) + (if mask[|mask| - 1] then 1 else 0)
  }

  /** The position id of the last column: its rank among the unmasked ones, clamped at 0. */
  function LastPosition(mask: seq<bool>): nat {
    var c := Count(mask);
    if c == 0 then 0 else c - 1
  }

  function Padding<T>(deficit: nat, pad: T): (r: seq<T>)
    ensures |r| == deficit
  {
    seq(deficit, i => pad)
  }

  /** Filled up in front to the given length. */
  function LeftPad<T>(row: seq<T>, toLength: nat, pad: T): (r: seq<T>)
    ensures |r| == if |row| < toLength then toLength else |row|
  {
    if toLength <= |row| then row else Padding(toLength - |row|, pad) + row
  }

  /** A forward pass over one row: `mask` covers the cached columns and the new ones. */
  function Forward<K>(attend: Attend<K>, past: seq<K>, mask: seq<bool>, input: seq<nat>): (r: (seq<K>, nat))
    requires |mask| == |past| + |input| && input != []
    ensures |r.0| == |past| + |input|
    decreases |input|
  {
    var n := |input| - 1;
    var before := if n == 0 then past else Forward(attend, past, mask[..|past| + n], input[..n]).0;
    var out := attend(Visible(before, mask[..|past| + n]), input[n], LastPosition(mask));
    (before + [out.entry], out.best)
  }

  // ---------------------------------------------------------------------------
  // The reference: one sequence alone, no padding, no batch.
  // ---------------------------------------------------------------------------

  /** The cache of a sequence that has read `tokens` at positions 0, 1, ... */
  function Solo<K>(attend: Attend<K>, tokens: seq<nat>): (r: seq<K>)
    ensures |r| == |tokens|
  {
    if tokens == [] then []
    else
      var n := |tokens| - 1;
      var before := Solo(attend, tokens[..n]);
      before + [attend(before, tokens[n], n).entry]
  }

  /** The token a sequence alone generates after `tokens`. */
  function SoloNext<K>(attend: Attend<K>, tokens: seq<nat>): nat
    requires tokens != []
  {
    var n := |tokens| - 1;
    attend(Solo(attend, tokens[..n]), tokens[n], n).best
  }

  /** The first `steps` tokens generated after a prompt, end marker included. */
  function SoloRun<K>(attend: Attend<K>, prompt: seq<nat>, steps: nat): (r: seq<nat>)
    requires prompt != []
    ensures |r| == steps
  {
    if steps == 0 then []
    else
      var before := SoloRun(attend, prompt, steps - 1);
      before + [SoloNext(attend, prompt + before)]
  }

  /** What a sequence alone returns: tokens up to the end marker or the budget. */
  function SoloOutput<K>(attend: Attend<K>, eos: nat, hasEos: bool, prompt: seq<nat>, budget: nat, from: nat): seq<nat>
    requires prompt != [] && from <= budget
    decreases budget - from
  {
    var sofar := SoloRun(attend, prompt, from);
    if from == budget then sofar
    else
      var next := SoloNext(attend, prompt + sofar);
      if hasEos && next == eos then sofar else SoloOutput(attend, eos, hasEos, prompt, budget, from + 1)
  }

  // ---------------------------------------------------------------------------
  // Padding is invisible.
  // ---------------------------------------------------------------------------

  lemma {:induction false} CountIsVisible<K>(entries: seq<K>, mask: seq<bool>)
    requires |entries| == |mask|
    ensures |Visible(entries, mask)| == Count(mask)
  {
    if entries == [] {
    } else {
      var n := |entries| - 1;
      CountIsVisible(entries[..n], mask[..n]);
    }
  }

  lemma {:induction false} PaddingInvisible<K>(d: nat, pad: K, entries: seq<K>, mask: seq<bool>)
    requires |entries| == |mask|
    ensures Visible(Padding(d, pad) + entries, Padding(d, false) + mask) == Visible(entries, mask)
    decreases d + |entries|
  {
    var n := |entries|;
    if n > 0 {
      assert (Padding(d, pad) + entries)[..d + n - 1] == Padding(d, pad) + entries[..n - 1];
      assert (Padding(d, false) + mask)[..d + n - 1] == Padding(d, false) + mask[..n - 1];
      PaddingInvisible(d, pad, entries[..n - 1], mask[..n - 1]);
    } else if d > 0 {
      assert (Padding(d, pad) + entries)[..d - 1] == Padding(d - 1, pad) + entries;
      assert (Padding(d, false) + mask)[..d - 1] == Padding(d - 1, false) + mask;
      PaddingInvisible(d - 1, pad, entries, mask);
    } else {
      assert Padding(0, pad) + entries == entries && Padding(0, false) + mask == mask;
    }
  }

  lemma LeftPadInvisible<K>(entries: seq<K>, mask: seq<bool>, to: nat, pad: K)
    requires |entries| == |mask|
    ensures Visible(LeftPad(entries, to, pad), LeftPad(mask, to, false)) == Visible(entries, mask)
  {
    hide Visible, Padding;
    if to > |entries| {
      PaddingInvisible(to - |entries|, pad, entries, mask);
    }
  }

  /** Appending one unmasked column. */
  lemma VisibleAppend<K>(entries: seq<K>, mask: seq<bool>, e: K)
    requires |entries| == |mask|
    ensures Visible(entries + [e], mask + [true]) == Visible(entries, mask) + [e]
    ensures LastPosition(mask + [true]) == |Visible(entries, mask)|
  {
    assert (entries + [e])[..|entries|] == entries && (mask + [true])[..|mask|] == mask;
    CountIsVisible(entries, mask);
  }

  /** What a row holds for a sequence: its prompt and all generated tokens but the
      last, at positions 0..n-1; the last one waits to be read. */
  ghost predicate RowHolds<K(!new)>(attend: Attend<K>, entries: seq<K>, mask: seq<bool>, last: nat,
                              prompt: seq<nat>, sampled: seq<nat>)
  {
    && |entries| == |mask| && sampled != [] && last == sampled[|sampled| - 1]
    && Visible(entries, mask) == Solo(attend, prompt + sampled[..|sampled| - 1])
  }

  /** One decode step moves a row exactly as the sequence alone would move. */
  lemma RowDecoded<K(!new)>(attend: Attend<K>, entries: seq<K>, mask: seq<bool>, last: nat, prompt: seq<nat>,
                            sampled: seq<nat>)
    requires RowHolds(attend, entries, mask, last, prompt, sampled)
    ensures var pass := Forward(attend, entries, mask + [true], [last]);
      && pass.1 == SoloNext(attend, prompt + sampled)
      && RowHolds(attend, pass.0, mask + [true], pass.1, prompt, sampled + [pass.1])
  {
    var k := |sampled| - 1;
    var read := prompt + sampled;
    assert read[..|read| - 1] == prompt + sampled[..k] && read[|read| - 1] == last;
    assert (mask + [true])[..|entries|] == mask;
    var out := attend(Visible(entries, mask), last, |Visible(entries, mask)|);
    VisibleAppend(entries, mask, out.entry);
    assert (sampled + [out.best])[..k + 1] == sampled;
  }

  /** The cache after a pass over `input` alone. */
  function Ingested<K>(attend: Attend<K>, mask: seq<bool>, input: seq<nat>): (r: seq<K>)
    requires |mask| == |input|
    ensures |r| == |input|
  {
    if input == [] then [] else Forward(attend, [], mask, input).0
  }

  /** One more unmasked token at the end of a pass. */
  lemma IngestMore<K>(attend: Attend<K>, mask: seq<bool>, input: seq<nat>, token: nat)
    requires |mask| == |input|
    ensures var seen := Visible(Ingested(attend, mask, input), mask);
      var out := attend(seen, token, |seen|);
      && Forward(attend, [], mask + [true], input + [token]).1 == out.best
      && Visible(Ingested(attend, mask + [true], input + [token]), mask + [true]) == seen + [out.entry]
  {
    assert (mask + [true])[..|input|] == mask && (input + [token])[..|input|] == input;
    var before := Ingested(attend, mask, input);
    var out := attend(Visible(before, mask), token, |Visible(before, mask)|);
    VisibleAppend(before, mask, out.entry);
  }

  /** Prefilling a padded prompt computes what the prompt alone would. */
  lemma {:induction false} PaddedPrompt<K>(attend: Attend<K>, d: nat, padToken: nat, prompt: seq<nat>)
    ensures var mask, input := Padding(d, false) + Padding(|prompt|, true), Padding(d, padToken) + prompt;
      && Visible(Ingested(attend, mask, input), mask) == Solo(attend, prompt)
      && (prompt != [] ==> Forward(attend, [], mask, input).1 == SoloNext(attend, prompt))
    decreases |prompt|
  {
    hide Forward, Visible, Ingested;
    if prompt == [] {
      assert Padding(d, false) + Padding(|prompt|, true) == Padding(d, false);
      AllPadding(Ingested(attend, Padding(d, false), Padding(d, padToken) + prompt));
    } else {
      var n := |prompt| - 1;
      var m0, i0 := Padding(d, false) + Padding(n, true), Padding(d, padToken) + prompt[..n];
      PaddedPrompt(attend, d, padToken, prompt[..n]);
      IngestMore(attend, m0, i0, prompt[n]);
      assert Padding(d, false) + Padding(|prompt|, true) == m0 + [true];
      assert Padding(d, padToken) + prompt == i0 + [prompt[n]];
    }
  }

  lemma {:induction false} AllPadding<K>(entries: seq<K>)
    ensures Visible(entries, Padding(|entries|, false)) == []
  {
    if entries == [] {
    } else {
      var n := |entries| - 1;
      AllPadding(entries[..n]);
      assert Padding(|entries|, false)[..n] == Padding(n, false);
    }
  }

  lemma IngestedByPass<K>(attend: Attend<K>, mask: seq<bool>, input: seq<nat>)
    requires |mask| == |input| && input != []
    ensures Forward(attend, [], mask, input).0 == Ingested(attend, mask, input)
  {
  }

  lemma RowStarts<K(!new)>(attend: Attend<K>, entries: seq<K>, mask: seq<bool>, prompt: seq<nat>, best: nat)
    requires |entries| == |mask| && Visible(entries, mask) == Solo(attend, prompt)
    ensures RowHolds(attend, entries, mask, best, prompt, [best])
  {
    assert [best][..0] == [] && prompt + [] == prompt;
  }

  lemma RowPrefilled<K(!new)>(attend: Attend<K>, d: nat, padToken: nat, prompt: seq<nat>)
    requires prompt != []
    ensures var mask := Padding(d, false) + Padding(|prompt|, true);
      var pass := Forward(attend, [], mask, Padding(d, padToken) + prompt);
      pass.1 == SoloNext(attend, prompt) && RowHolds(attend, pass.0, mask, pass.1, prompt, [pass.1])
  {
    hide Forward, Visible, Ingested, Solo, SoloNext, RowHolds;
    var mask, input := Padding(d, false) + Padding(|prompt|, true), Padding(d, padToken) + prompt;
    PaddedPrompt(attend, d, padToken, prompt);
    IngestedByPass(attend, mask, input);
    RowStarts(attend, Ingested(attend, mask, input), mask, prompt, SoloNext(attend, prompt));
  }
}
