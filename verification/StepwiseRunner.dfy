/** The step-wise runner: rows of a shared left-padded cache join and leave between
    decode steps, and each sequence generates what it would generate alone.
 */
module StepwiseRunner {
  import opened Common
  import opened PaddedCache
  import opened Sequences

  /** The sequence has generated exactly what it would generate alone. */
  ghost predicate Faithful<K(!new)>(st: SequenceState, attend: Attend<K>, eos: Option<nat>)
    reads st
  {
    && st.prompt != [] && |st.tokens| <= st.maxNewTokens
    && Transcript(attend, eos, st.prompt, st.sampled, st.tokens, st.stoppedEarly)
  }

  /** `sampled` is the solo run so far, and `tokens` and `stopped` report it. */
  ghost predicate Transcript<K(!new)>(attend: Attend<K>, eos: Option<nat>, prompt: seq<nat>, sampled: seq<nat>,
                                      tokens: seq<nat>, stopped: bool)
    requires prompt != []
  {
    && sampled == SoloRun(attend, prompt, |sampled|)
    && (stopped ==> sampled != [] && eos == Some(sampled[|sampled| - 1]))
    && tokens == (if stopped then sampled[..|sampled| - 1] else sampled)
    && (eos.Some? ==> eos.value !in tokens)
  }

  lemma TranscriptMore<K(!new)>(attend: Attend<K>, eos: Option<nat>, prompt: seq<nat>, sampled: seq<nat>,
                                tokens: seq<nat>)
    requires prompt != [] && Transcript(attend, eos, prompt, sampled, tokens, false)
    ensures var token := SoloNext(attend, prompt + sampled);
      var ended := eos == Some(token);
      Transcript(attend, eos, prompt, sampled + [token], if ended then tokens else tokens + [token], ended)
  {
    var token := SoloNext(attend, prompt + sampled);
    assert (sampled + [token])[..|sampled|] == sampled;
  }

  /** A finished sequence returns what it would have returned alone, whoever shared its batches. */
  lemma {:induction false} FinishedIsSolo<K(!new)>(attend: Attend<K>, eos: Option<nat>, prompt: seq<nat>, budget: nat,
                                sampled: seq<nat>, tokens: seq<nat>, stopped: bool, from: nat)
    requires prompt != [] && Transcript(attend, eos, prompt, sampled, tokens, stopped)
    requires from <= |tokens| <= budget && (stopped || |tokens| == budget)
    ensures tokens == SoloOutput(attend, eos.GetOr(0), eos.Some?, prompt, budget, from)
    decreases |tokens| - from
  {
    hide SoloNext, SoloRun;
    TranscriptPrefix(attend, eos, prompt, sampled, tokens, stopped, from);
    if from < |tokens| {
      FinishedIsSolo(attend, eos, prompt, budget, sampled, tokens, stopped, from + 1);
    }
  }

  /** Up to `from`, the tokens are the solo run; the next choice is the solo run's next. */
  lemma TranscriptPrefix<K(!new)>(attend: Attend<K>, eos: Option<nat>, prompt: seq<nat>, sampled: seq<nat>,
                                  tokens: seq<nat>, stopped: bool, from: nat)
    requires prompt != [] && Transcript(attend, eos, prompt, sampled, tokens, stopped) && from <= |tokens|
    ensures tokens[..from] == SoloRun(attend, prompt, from)
    ensures from < |tokens| ==>
      SoloNext(attend, prompt + tokens[..from]) == tokens[from] && eos != Some(tokens[from])
    ensures from == |tokens| && stopped ==> eos == Some(SoloNext(attend, prompt + tokens[..from]))
  {
    hide SoloNext;
    SoloRunPrefix(attend, prompt, from, |sampled|);
    assert tokens[..from] == sampled[..from];
    if from < |sampled| {
      SoloRunPrefix(attend, prompt, from + 1, |sampled|);
      assert sampled[..from + 1][from] == SoloNext(attend, prompt + sampled[..from]);
    }
    if from < |tokens| {
      assert tokens[from] in tokens;
    }
  }

  lemma {:induction false} SoloRunPrefix<K>(attend: Attend<K>, prompt: seq<nat>, a: nat, b: nat)
    requires prompt != [] && a <= b
    ensures SoloRun(attend, prompt, b)[..a] == SoloRun(attend, prompt, a)
  {
    if a == b {
    } else {
      SoloRunPrefix(attend, prompt, a, b - 1);
      var shorter := SoloRun(attend, prompt, b - 1);
      assert SoloRun(attend, prompt, b) == shorter + [SoloNext(attend, prompt + shorter)];
      hide SoloNext, SoloRun;
      assert SoloRun(attend, prompt, b)[..a] == shorter[..a];
    }
  }

  /** Every row of the tensor has the same length. */
  predicate Rectangular<T>(rows: seq<seq<T>>) {
    forall i, j :: 0 <= i < |rows| && 0 <= j < |rows| ==> |rows[i]| == |rows[j]|
  }

  function Width<T>(rows: seq<seq<T>>): nat {
    if rows == [] then 0 else |rows[0]|
  }

  function Ids(states: seq<SequenceState>): (r: seq<int>)
    ensures |r| == |states|
  {
    seq(|states|, i requires 0 <= i < |states| => states[i].sequenceId)
  }

  /** `tensor.index_select(0, keep)`. */
  function Select<T>(xs: seq<T>, keep: seq<nat>): (r: seq<T>)
    requires forall i :: 0 <= i < |keep| ==> keep[i] < |xs|
    ensures |r| == |keep|
  {
    seq(|keep|, i requires 0 <= i < |keep| => xs[keep[i]])
  }

  /** The positions, from `from` on, of the rows that are wanted. */
  function Positions(rows: seq<int>, wanted: set<int>, from: nat): (r: seq<nat>)
    requires from <= |rows|
    ensures forall i :: 0 <= i < |r| ==> from <= r[i] < |rows| && rows[r[i]] in wanted
    ensures forall i, j :: 0 <= i < j < |r| ==> r[i] < r[j]
    ensures forall p :: from <= p < |rows| && rows[p] in wanted ==> p in r
    decreases |rows| - from
  {
    if from == |rows| then []
    else if rows[from] in wanted then [from] + Positions(rows, wanted, from + 1)
    else Positions(rows, wanted, from + 1)
  }

  function ActiveOf(states: seq<SequenceState>): (r: seq<SequenceState>)
    reads states
    ensures forall i :: 0 <= i < |r| ==> r[i] in states && !r[i].Finished()
    ensures forall i :: 0 <= i < |states| && !states[i].Finished() ==> states[i] in r
  {
    if states == [] then []
    else
      var n := |states| - 1;
      assert states == states[..n] + [states[n]];
      ActiveOf(states[..n]) + (if states[n].Finished() then [] else [states[n]])
  }

  predicate HasId(states: seq<SequenceState>, id: int) {
    exists i :: 0 <= i < |states| && states[i].sequenceId == id
  }

  /** The state with an id, as looked up by `by_id`. */
  function ById(states: seq<SequenceState>, id: int): (st: SequenceState)
    requires HasId(states, id)
    ensures st in states && st.sequenceId == id
  {
    if states[0].sequenceId == id then states[0]
    else
      assert states == [states[0]] + states[1..];
      ById(states[1..], id)
  }

  function Longest(states: seq<SequenceState>): (n: nat)
    ensures forall i :: 0 <= i < |states| ==> |states[i].prompt| <= n
  {
    if states == [] then 0
    else
      var rest := Longest(states[..|states| - 1]);
      var own := |states[|states| - 1].prompt|;
      if own > rest then own else rest
  }

  /** Rows joined onto a cache, all padded to the longer of the two. */
  function Merged<T>(existing: seq<seq<T>>, incoming: seq<seq<T>>, common: nat, pad: T): (r: seq<seq<T>>)
    ensures |r| == |existing| + |incoming|
    ensures forall i :: 0 <= i < |existing| ==> r[i] == LeftPad(existing[i], common, pad)
    ensures forall i :: |existing| <= i < |r| ==> r[i] == LeftPad(incoming[i - |existing|], common, pad)
  {
    seq(|existing|, i requires 0 <= i < |existing| => LeftPad(existing[i], common, pad))
      + seq(|incoming|, i requires 0 <= i < |incoming| => LeftPad(incoming[i], common, pad))
  }

  lemma RowPadded<K(!new)>(attend: Attend<K>, entries: seq<K>, mask: seq<bool>, last: nat, prompt: seq<nat>,
                           sampled: seq<nat>,
                           to: nat, pad: K)
    requires RowHolds(attend, entries, mask, last, prompt, sampled)
    ensures RowHolds(attend, LeftPad(entries, to, pad), LeftPad(mask, to, false), last, prompt, sampled)
  {
    LeftPadInvisible(entries, mask, to, pad);
  }

  /** One row of a prefill: padded to the longest prompt, read from the start. */
  lemma RowEntered<K(!new)>(attend: Attend<K>, prompt: seq<nat>, longest: nat, padToken: nat)
    requires prompt != [] && |prompt| <= longest
    ensures var mask := LeftPad(Padding(|prompt|, true), longest, false);
      var pass := Forward(attend, [], mask, LeftPad(prompt, longest, padToken));
      && pass.1 == SoloNext(attend, prompt)
      && RowHolds(attend, pass.0, mask, pass.1, prompt, [pass.1])
      && Count(mask) == |prompt|
  {
    var d := longest - |prompt|;
    RowPrefilled(attend, d, padToken, prompt);
    assert LeftPad(prompt, longest, padToken) == Padding(d, padToken) + prompt;
    assert LeftPad(Padding(|prompt|, true), longest, false) == Padding(d, false) + Padding(|prompt|, true);
    CountPrompt(d, |prompt|);
  }

  lemma {:induction false} CountPrompt(d: nat, n: nat)
    ensures Count(Padding(d, false) + Padding(n, true)) == n
    decreases d + n
  {
    var mask := Padding(d, false) + Padding(n, true);
    if n > 0 {
      CountPrompt(d, n - 1);
      assert mask[..d + n - 1] == Padding(d, false) + Padding(n - 1, true);
    } else if d > 0 {
      CountPrompt(d - 1, 0);
      assert mask[..d - 1] == Padding(d - 1, false) + Padding(0, true);
    }
  }

  lemma SelectMembers<T>(xs: seq<T>, keep: seq<nat>)
    requires forall i :: 0 <= i < |keep| ==> keep[i] < |xs|
    ensures forall x :: x in Select(xs, keep) ==> x in xs
  {
  }

  lemma WantedActive(active: seq<SequenceState>, rows: seq<int>, wanted: set<int>)
    requires wanted == set st | st in active :: st.sequenceId
    requires forall x :: x in rows ==> x in wanted
    ensures forall i :: 0 <= i < |rows| ==> HasId(active, rows[i])
  {
    forall i | 0 <= i < |rows| ensures HasId(active, rows[i]) {
      var x := rows[i];
      assert x in rows && x in wanted;
      var st :| st in active && st.sequenceId == x;
    }
  }

  /** The active states, in row order. */
  function Ordered(active: seq<SequenceState>, rows: seq<int>): (r: seq<SequenceState>)
    requires forall i :: 0 <= i < |rows| ==> HasId(active, rows[i])
    ensures |r| == |rows|
    ensures forall i :: 0 <= i < |rows| ==> r[i] in active && r[i].sequenceId == rows[i]
  {
    seq(|rows|, i requires 0 <= i < |rows| => ById(active, rows[i]))
  }

  lemma OrderedIds(ordered: seq<SequenceState>, rows: seq<int>)
    requires |ordered| == |rows| && Distinct(rows)
    requires forall i :: 0 <= i < |rows| ==> ordered[i].sequenceId == rows[i]
    ensures Distinct(Ids(ordered))
  {
    assert Ids(ordered) == rows;
  }

  lemma DistinctStates(states: seq<SequenceState>, k: nat)
    requires Distinct(Ids(states)) && k < |states|
    ensures forall i :: 0 <= i < |states| && i != k ==> states[i] != states[k]
  {
    forall i | 0 <= i < |states| && i != k ensures states[i] != states[k] {
      assert Ids(states)[i] == states[i].sequenceId && Ids(states)[k] == states[k].sequenceId;
    }
  }

  datatype History = History(prompt: seq<nat>, sampled: seq<nat>)

  /** The batch dimensions agree, and every row holds what its sequence alone would have cached. */
  ghost predicate BatchHolds<K(!new)>(attend: Attend<K>, rows: seq<int>, cache: seq<seq<K>>, mask: seq<seq<bool>>,
                                      last: seq<nat>, hs: map<int, History>)
  {
    && |rows| == |cache| == |mask| == |last| && Distinct(rows)
    && Rectangular(cache) && Rectangular(mask) && Width(cache) == Width(mask)
    && forall i :: 0 <= i < |rows| ==>
         && rows[i] in hs && hs[rows[i]].sampled != []
         && RowHolds(attend, cache[i], mask[i], last[i], hs[rows[i]].prompt, hs[rows[i]].sampled)
  }

  /** `torch.cat([mask, ones])`: every row gets one more visible column. */
  function Grow(mask: seq<seq<bool>>): (r: seq<seq<bool>>)
    ensures |r| == |mask|
    ensures forall i :: 0 <= i < |mask| ==> r[i] == mask[i] + [true]
  {
    seq(|mask|, i requires 0 <= i < |mask| => mask[i] + [true])
  }

  /** All rows at once, and no row sees another. */
  function PassAll<K>(attend: Attend<K>, cache: seq<seq<K>>, mask: seq<seq<bool>>,
                      inputs: seq<seq<nat>>): (r: seq<(seq<K>, nat)>)
    requires |cache| == |mask| == |inputs|
    requires forall i :: 0 <= i < |cache| ==> inputs[i] != [] && |mask[i]| == |cache[i]| + |inputs[i]|
    ensures |r| == |cache|
    ensures forall i :: 0 <= i < |cache| ==> r[i] == Forward(attend, cache[i], mask[i], inputs[i])
  {
    seq(|cache|, i requires 0 <= i < |cache| => Forward(attend, cache[i], mask[i], inputs[i]))
  }

  function Caches<K>(passes: seq<(seq<K>, nat)>): (r: seq<seq<K>>)
    ensures |r| == |passes|
    ensures forall i :: 0 <= i < |passes| ==> r[i] == passes[i].0
  {
    seq(|passes|, i requires 0 <= i < |passes| => passes[i].0)
  }

  function Bests<K>(passes: seq<(seq<K>, nat)>): (r: seq<nat>)
    ensures |r| == |passes|
    ensures forall i :: 0 <= i < |passes| ==> r[i] == passes[i].1
  {
    seq(|passes|, i requires 0 <= i < |passes| => passes[i].1)
  }

  function Column(tokens: seq<nat>): (r: seq<seq<nat>>)
    ensures |r| == |tokens|
    ensures forall i :: 0 <= i < |tokens| ==> r[i] == [tokens[i]]
  {
    seq(|tokens|, i requires 0 <= i < |tokens| => [tokens[i]])
  }

  lemma BatchShape<K(!new)>(attend: Attend<K>, rows: seq<int>, cache: seq<seq<K>>, mask: seq<seq<bool>>,
                            last: seq<nat>, hs: map<int, History>)
    requires BatchHolds(attend, rows, cache, mask, last, hs)
    ensures |rows| == |cache| == |mask| == |last| && Distinct(rows)
    ensures forall i :: 0 <= i < |rows| ==> |cache[i]| == |mask[i]|
  {
  }

  /** What row `i` computes in one decode step. */
  lemma RowOfBatch<K(!new)>(attend: Attend<K>, rows: seq<int>, cache: seq<seq<K>>, mask: seq<seq<bool>>,
                            last: seq<nat>, hs: map<int, History>, passes: seq<(seq<K>, nat)>, i: nat)
    requires BatchHolds(attend, rows, cache, mask, last, hs) && i < |rows|
    requires |last| == |cache| == |mask| && forall i :: 0 <= i < |cache| ==> |cache[i]| == |mask[i]|
    requires passes == PassAll(attend, cache, Grow(mask), Column(last))
    ensures rows[i] in hs && hs[rows[i]].sampled != []
    ensures passes[i].1 == SoloNext(attend, hs[rows[i]].prompt + hs[rows[i]].sampled)
    ensures |passes[i].0| == |mask[i]| + 1
    ensures RowHolds(attend, passes[i].0, mask[i] + [true], passes[i].1, hs[rows[i]].prompt,
                     hs[rows[i]].sampled + [passes[i].1])
  {
    hide RowHolds, SoloNext, Forward;
    RowDecoded(attend, cache[i], mask[i], last[i], hs[rows[i]].prompt, hs[rows[i]].sampled);
  }

  /** One decode step moves every row as its sequence alone would move. */
  lemma BatchDecoded<K(!new)>(attend: Attend<K>, rows: seq<int>, cache: seq<seq<K>>, mask: seq<seq<bool>>,
                              last: seq<nat>,
                              hs: map<int, History>, passes: seq<(seq<K>, nat)>, after: map<int, History>)
    requires BatchHolds(attend, rows, cache, mask, last, hs)
    requires |last| == |cache| == |mask| && forall i :: 0 <= i < |cache| ==> |cache[i]| == |mask[i]|
    requires passes == PassAll(attend, cache, Grow(mask), Column(last))
    requires forall i :: 0 <= i < |rows| ==> rows[i] in hs && rows[i] in after
    requires forall i :: 0 <= i < |rows| ==>
      after[rows[i]] == History(hs[rows[i]].prompt, hs[rows[i]].sampled + [passes[i].1])
    ensures BatchHolds(attend, rows, Caches(passes), Grow(mask), Bests(passes), after)
  {
    hide RowHolds;
    forall i | 0 <= i < |rows|
      ensures |passes[i].0| == |mask[i]| + 1
      ensures RowHolds(attend, passes[i].0, mask[i] + [true], passes[i].1, after[rows[i]].prompt,
                       after[rows[i]].sampled)
    {
      RowOfBatch(attend, rows, cache, mask, last, hs, passes, i);
    }
  }

  /** New rows join; both sides are padded to the longer one. */
  lemma BatchMerged<K(!new)>(attend: Attend<K>, rows: seq<int>, cache: seq<seq<K>>, mask: seq<seq<bool>>,
                             last: seq<nat>,
                             ids: seq<int>, incoming: seq<seq<K>>, incomingMask: seq<seq<bool>>, first: seq<nat>,
                             hs: map<int, History>, common: nat, zero: K)
    requires BatchHolds(attend, rows, cache, mask, last, hs)
    requires BatchHolds(attend, ids, incoming, incomingMask, first, hs)
    requires Distinct(rows + ids) && common >= Width(cache) && common >= Width(incoming)
    ensures BatchHolds(attend, rows + ids, Merged(cache, incoming, common, zero),
                       Merged(mask, incomingMask, common, false), last + first, hs)
  {
    hide RowHolds, Merged, Distinct;
    forall i | 0 <= i < |rows| + |ids|
      ensures (rows + ids)[i] in hs && hs[(rows + ids)[i]].sampled != []
      ensures var h := hs[(rows + ids)[i]];
        RowHolds(attend, Merged(cache, incoming, common, zero)[i], Merged(mask, incomingMask, common, false)[i],
                 (last + first)[i], h.prompt, h.sampled)
    {
      if i < |rows| {
        RowPadded(attend, cache[i], mask[i], last[i], hs[rows[i]].prompt, hs[rows[i]].sampled, common, zero);
      } else {
        var j := i - |rows|;
        RowPadded(attend, incoming[j], incomingMask[j], first[j], hs[ids[j]].prompt, hs[ids[j]].sampled, common, zero);
      }
    }
    MergedRectangular(cache, incoming, common, zero);
    MergedRectangular(mask, incomingMask, common, false);
  }

  lemma MergedRectangular<T>(existing: seq<seq<T>>, incoming: seq<seq<T>>, common: nat, pad: T)
    requires Rectangular(existing) && Rectangular(incoming) && common >= Width(existing) && common >= Width(incoming)
    ensures Rectangular(Merged(existing, incoming, common, pad))
    ensures Width(Merged(existing, incoming, common, pad)) == if existing == [] && incoming == [] then 0 else common
  {
    hide Merged;
  }

  lemma BatchAgree<K(!new)>(attend: Attend<K>, rows: seq<int>, cache: seq<seq<K>>, mask: seq<seq<bool>>,
                            last: seq<nat>, hs: map<int, History>, other: map<int, History>)
    requires BatchHolds(attend, rows, cache, mask, last, hs)
    requires forall i :: 0 <= i < |rows| ==> rows[i] in other && (rows[i] in hs ==> other[rows[i]] == hs[rows[i]])
    ensures BatchHolds(attend, rows, cache, mask, last, other)
  {
    hide RowHolds;
  }

  /** The attention masks of a padded batch of prompts. */
  function PromptMasks(states: seq<SequenceState>, longest: nat): (r: seq<seq<bool>>)
    ensures |r| == |states|
    ensures forall i :: 0 <= i < |states| ==> r[i] == LeftPad(Padding(|states[i].prompt|, true), longest, false)
  {
    seq(|states|, i requires 0 <= i < |states| => LeftPad(Padding(|states[i].prompt|, true), longest, false))
  }

  function PromptInputs(states: seq<SequenceState>, longest: nat, padToken: nat): (r: seq<seq<nat>>)
    ensures |r| == |states|
    ensures forall i :: 0 <= i < |states| ==> r[i] == LeftPad(states[i].prompt, longest, padToken)
  {
    seq(|states|, i requires 0 <= i < |states| => LeftPad(states[i].prompt, longest, padToken))
  }

  function Blank<K>(n: nat): (r: seq<seq<K>>)
    ensures |r| == n && forall i :: 0 <= i < n ==> r[i] == []
  {
    seq(n, i => [])
  }

  /** What the first token leaves each new sequence with. */
  ghost function Starts(states: seq<SequenceState>, first: seq<nat>): (r: map<int, History>)
    requires |first| == |states|
  {
    map x | x in Ids(states) ::
      var i :| 0 <= i < |states| && states[i].sequenceId == x; History(states[i].prompt, [first[i]])
  }

  lemma StartsAt(states: seq<SequenceState>, first: seq<nat>)
    requires |first| == |states| && Distinct(Ids(states))
    ensures forall i :: 0 <= i < |states| ==>
      && states[i].sequenceId in Starts(states, first)
      && Starts(states, first)[states[i].sequenceId] == History(states[i].prompt, [first[i]])
  {
    forall i | 0 <= i < |states|
      ensures states[i].sequenceId in Starts(states, first)
      ensures Starts(states, first)[states[i].sequenceId] == History(states[i].prompt, [first[i]])
    {
      var x := states[i].sequenceId;
      assert Ids(states)[i] == x && x in Ids(states);
      forall j | 0 <= j < |states| && states[j].sequenceId == x ensures j == i {
        assert Ids(states)[j] == Ids(states)[i];
      }
    }
  }

  ghost function Owners(states: seq<SequenceState>): (r: map<int, SequenceState>)
    ensures forall x :: x in r <==> x in Ids(states)
  {
    map x | x in Ids(states) :: var i :| 0 <= i < |states| && states[i].sequenceId == x; states[i]
  }

  lemma OwnersAt(states: seq<SequenceState>, i: nat)
    requires Distinct(Ids(states)) && i < |states|
    ensures states[i].sequenceId in Ids(states)
    ensures Owners(states)[states[i].sequenceId] == states[i]
  {
    var x := states[i].sequenceId;
    assert Ids(states)[i] == x && x in Ids(states);
    forall j | 0 <= j < |states| && states[j].sequenceId == x ensures j == i {
      assert Ids(states)[j] == Ids(states)[i];
    }
  }

  /** A sequence that has generated nothing is trivially faithful. */
  lemma FreshTranscripts<K(!new)>(attend: Attend<K>, eos: Option<nat>, states: seq<SequenceState>)
    requires forall i :: 0 <= i < |states| ==>
      && states[i].prompt != [] && states[i].sampled == [] && states[i].tokens == [] && !states[i].stoppedEarly
      && states[i].maxNewTokens > 0
    ensures forall i :: 0 <= i < |states| ==>
      && Faithful(states[i], attend, eos) && !states[i].Finished()
      && states[i].prompt + states[i].sampled == states[i].prompt
  {
  }

  lemma DistinctParts(a: seq<int>, b: seq<int>)
    requires Distinct(a + b)
    ensures Distinct(a) && Distinct(b) && forall i, j :: 0 <= i < |a| && 0 <= j < |b| ==> a[i] != b[j]
  {
    forall i, j | 0 <= i < |a| && 0 <= j < |b| ensures a[i] != b[j] {
      assert (a + b)[i] == a[i] && (a + b)[|a| + j] == b[j];
    }
    forall i, j | 0 <= i < j < |b| ensures b[i] != b[j] {
      assert (a + b)[|a| + i] == b[i] && (a + b)[|a| + j] == b[j];
    }
    forall i, j | 0 <= i < j < |a| ensures a[i] != a[j] {
      assert (a + b)[i] == a[i] && (a + b)[j] == a[j];
    }
  }

  lemma BatchTensors<K(!new)>(attend: Attend<K>, rows: seq<int>, cache: seq<seq<K>>, mask: seq<seq<bool>>,
                              last: seq<nat>, hs: map<int, History>)
    requires BatchHolds(attend, rows, cache, mask, last, hs)
    ensures |rows| == |cache| == |mask| == |last|
    ensures Rectangular(cache) && Rectangular(mask) && Width(cache) == Width(mask)
  {
  }

  /** A padded batch of prompts is read exactly as each prompt alone would be. */
  lemma BatchPrefilled<K(!new)>(attend: Attend<K>, states: seq<SequenceState>, longest: nat, padToken: nat,
                                passes: seq<(seq<K>, nat)>, hs: map<int, History>)
    requires Distinct(Ids(states)) && |passes| == |states|
    requires forall i :: 0 <= i < |states| ==>
      && states[i].prompt != [] && |states[i].prompt| <= longest
      && passes[i] == Forward(attend, [], PromptMasks(states, longest)[i], PromptInputs(states, longest, padToken)[i])
      && states[i].sequenceId in hs && hs[states[i].sequenceId] == History(states[i].prompt, [passes[i].1])
    ensures BatchHolds(attend, Ids(states), Caches(passes), PromptMasks(states, longest), Bests(passes), hs)
    ensures forall i :: 0 <= i < |states| ==>
      && passes[i].1 == SoloNext(attend, states[i].prompt)
      && Count(PromptMasks(states, longest)[i]) == |states[i].prompt|
  {
    hide RowHolds, SoloNext, Forward, LeftPad, Count;
    forall i | 0 <= i < |states|
      ensures |passes[i].0| == longest == |PromptMasks(states, longest)[i]|
      ensures passes[i].1 == SoloNext(attend, states[i].prompt)
      ensures RowHolds(attend, passes[i].0, PromptMasks(states, longest)[i], passes[i].1, states[i].prompt,
                       [passes[i].1])
      ensures Count(PromptMasks(states, longest)[i]) == |states[i].prompt|
    {
      RowEntered(attend, states[i].prompt, longest, padToken);
    }
  }

  lemma BatchKept<K(!new)>(attend: Attend<K>, rows: seq<int>, cache: seq<seq<K>>, mask: seq<seq<bool>>,
                           last: seq<nat>, hs: map<int, History>, keep: seq<nat>, kept: map<int, History>)
    requires BatchHolds(attend, rows, cache, mask, last, hs)
    requires forall i :: 0 <= i < |keep| ==> keep[i] < |rows|
    requires forall i, j :: 0 <= i < j < |keep| ==> keep[i] < keep[j]
    requires forall x :: x in Select(rows, keep) ==> x in kept && (x in hs ==> kept[x] == hs[x])
    ensures BatchHolds(attend, Select(rows, keep), Select(cache, keep), Select(mask, keep), Select(last, keep), kept)
  {
    hide RowHolds;
    forall i | 0 <= i < |keep|
      ensures rows[keep[i]] in kept && rows[keep[i]] in hs && kept[rows[keep[i]]] == hs[rows[keep[i]]]
    {
      assert Select(rows, keep)[i] in Select(rows, keep);
    }
  }

  class TransformersStepwiseRunner<K(0,!new)> {
    const attend: Attend<K>
    const eos: Option<nat>
    const padToken: nat
    const zero: K
    var prefills: nat
    var steps: nat
    var rows: seq<int>
    var cache: seq<seq<K>>
    var mask: seq<seq<bool>>
    var last: seq<nat>
    ghost var owner: map<int, SequenceState>

    /** What the states say their rows should hold. */
    ghost function Histories(): map<int, History>
      reads this`owner, owner.Values
    {
      map x | x in owner :: History(owner[x].prompt, owner[x].sampled)
    }

    ghost predicate Valid()
      reads this, owner.Values
    {
      && (forall x :: x in owner <==> x in rows)
      && (forall x :: x in owner ==> owner[x].sequenceId == x && Faithful(owner[x], attend, eos))
      && BatchHolds(attend, rows, cache, mask, last, Histories())
    }

    constructor (attend: Attend<K>, eos: Option<nat>, padToken: nat, zero: K)
      ensures Valid() && rows == [] && owner == map[] && prefills == steps == 0
      ensures this.attend == attend && this.eos == eos
    {
      this.attend, this.eos, this.padToken, this.zero := attend, eos, padToken, zero;
      prefills, steps, rows, cache, mask, last, owner := 0, 0, [], [], [], [], map[];
    }

    /** Only the rows at positions `keep` stay, each still faithful to its own sequence. */
    method KeepRows(keep: seq<nat>)
      requires Valid()
      requires forall i :: 0 <= i < |keep| ==> keep[i] < |rows|
      requires forall i, j :: 0 <= i < j < |keep| ==> keep[i] < keep[j]
      modifies this`rows, this`cache, this`mask, this`last, this`owner
      ensures Valid() && rows == Select(old(rows), keep)
      ensures forall x :: x in owner <==> x in rows
      ensures forall x :: x in owner ==> x in old(owner) && owner[x] == old(owner)[x]
    {
      hide Transcript, BatchHolds, Select, Distinct, Faithful;
      BatchShape(attend, rows, cache, mask, last, Histories());
      ghost var kept := map x | x in owner && x in Select(rows, keep) :: Histories()[x];
      SelectMembers(rows, keep);
      BatchKept(attend, rows, cache, mask, last, Histories(), keep, kept);
      cache, mask, last := Select(cache, keep), Select(mask, keep), Select(last, keep);
      rows := Select(rows, keep);
      owner := map x | x in owner && x in rows :: owner[x];
      assert Histories() == kept;
    }

    /** Every state takes its chosen token, and stays what its solo run would have made of it. */
    method Record(states: seq<SequenceState>, chosen: seq<nat>)
      requires |states| == |chosen| && Distinct(Ids(states))
      requires forall i :: 0 <= i < |states| ==>
        && Faithful(states[i], attend, eos) && !states[i].Finished()
        && chosen[i] == SoloNext(attend, states[i].prompt + states[i].sampled)
      modifies set st | st in states
      ensures forall i :: 0 <= i < |states| ==>
        && Faithful(states[i], attend, eos) && states[i].sampled == old(states[i].sampled) + [chosen[i]]
        && states[i].promptTokens == old(states[i].promptTokens)
    {
      hide Transcript, SoloNext;
      for k := 0 to |states|
        invariant forall i :: 0 <= i < |states| ==> states[i].promptTokens == old(states[i].promptTokens)
        invariant forall i :: 0 <= i < k ==>
          Faithful(states[i], attend, eos) && states[i].sampled == old(states[i].sampled) + [chosen[i]]
        invariant forall i :: k <= i < |states| ==>
          && states[i].sampled == old(states[i].sampled) && states[i].tokens == old(states[i].tokens)
          && states[i].stoppedEarly == old(states[i].stoppedEarly)
      {
        var state, token := states[k], chosen[k];
        DistinctStates(states, k);
        assert old(Faithful(states[k], attend, eos));
        TranscriptMore(attend, eos, state.prompt, state.sampled, state.tokens);
        state.sampled := state.sampled + [token];
        if eos == Some(token) {
          state.stoppedEarly := true;
        } else {
          state.tokens := state.tokens + [token];
        }
      }
    }

    /** New rows are appended, both batches padded on the left to one width. */
    method MergeCache(incoming: seq<seq<K>>, incomingMask: seq<seq<bool>>) returns (ghost common: nat)
      requires |cache| == |mask| == |rows| && |incoming| == |incomingMask|
      requires Width(cache) == Width(mask) && Width(incoming) == Width(incomingMask)
      requires Rectangular(incoming) && Rectangular(incomingMask)
      modifies this`cache, this`mask
      ensures common >= Width(old(cache)) && common >= Width(incoming)
      ensures cache == Merged(old(cache), incoming, common, zero)
      ensures mask == Merged(old(mask), incomingMask, common, false)
    {
      var longer := if Width(cache) > Width(incoming) then Width(cache) else Width(incoming);
      common := longer;
      if rows == [] {
        assert incoming == Merged(cache, incoming, common, zero);
        assert incomingMask == Merged(mask, incomingMask, common, false);
        cache, mask := incoming, incomingMask;
        return;
      }
      cache := Merged(cache, incoming, longer, zero);
      mask := Merged(mask, incomingMask, longer, false);
    }

    /** Admits sequences: one padded pass over their prompts, and a first token each. */
    method Prefill(states: seq<SequenceState>)
      requires Valid() && Distinct(rows + Ids(states))
      requires forall i :: 0 <= i < |states| ==>
        && states[i].prompt != [] && states[i].sampled == [] && states[i].tokens == [] && !states[i].stoppedEarly
        && states[i].maxNewTokens > 0
      modifies this, set st | st in states
      ensures Valid() && rows == old(rows) + Ids(states)
      ensures forall x :: x in old(rows) ==> x in old(owner) && owner[x] == old(owner)[x]
      ensures forall i :: 0 <= i < |states| ==>
        && states[i].sequenceId in owner && owner[states[i].sequenceId] == states[i]
        && Faithful(states[i], attend, eos) && states[i].promptTokens == |states[i].prompt|
        && states[i].sampled == [SoloNext(attend, states[i].prompt)]
      ensures prefills == if states == [] then old(prefills) else old(prefills) + 1
      ensures steps == old(steps)
    {
      hide BatchHolds, SoloNext, Transcript, RowHolds, Count, LeftPad, Distinct, Rectangular, Width, Merged, Starts,
        Ids;
      if states == [] {
        assert rows == rows + Ids(states);
        return;
      }
      prefills := prefills + 1;
      DistinctParts(rows, Ids(states));
      var masks, incoming, first := ReadPrompts(states);
      Join(states, masks, incoming, first);
    }

    /** The new rows go behind the old ones. */
    method Join(states: seq<SequenceState>, masks: seq<seq<bool>>, incoming: seq<seq<K>>, first: seq<nat>)
      requires Valid() && Distinct(rows + Ids(states)) && |masks| == |incoming| == |first| == |states|
      requires Rectangular(incoming) && Rectangular(masks) && Width(incoming) == Width(masks)
      requires BatchHolds(attend, Ids(states), incoming, masks, first, Starts(states, first))
      requires forall i :: 0 <= i < |states| ==>
        && states[i].prompt != [] && states[i].sampled == [] && states[i].tokens == [] && !states[i].stoppedEarly
        && states[i].maxNewTokens > 0
        && first[i] == SoloNext(attend, states[i].prompt) && Count(masks[i]) == |states[i].prompt|
      modifies this`rows, this`last, this`cache, this`mask, this`owner, set st | st in states
      ensures Valid() && rows == old(rows) + Ids(states)
      ensures forall x :: x in old(rows) ==> x in old(owner) && owner[x] == old(owner)[x]
      ensures forall i :: 0 <= i < |states| ==>
        && states[i].sequenceId in owner && owner[states[i].sequenceId] == states[i]
        && Faithful(states[i], attend, eos) && states[i].promptTokens == |states[i].prompt|
        && states[i].sampled == [SoloNext(attend, states[i].prompt)]
    {
      hide BatchHolds, SoloNext, Transcript, Count, Distinct, Rectangular, Width, Merged, Starts, Ids;
      DistinctParts(rows, Ids(states));
      Strangers(states, rows);
      ghost var rows0, cache0, mask0, last0, hs0 := rows, cache, mask, last, Histories();
      BatchTensors(attend, rows, cache, mask, last, hs0);
      ghost var common := MergeCache(incoming, masks);
      rows := rows + Ids(states);
      NoteLengths(states, masks);
      last := last + first;
      Enter(states, first, rows0, cache0, mask0, last0, hs0, incoming, masks, common);
    }

    /** Tokenised prompts, padded on the left to the longest, through one forward pass. */
    method ReadPrompts(states: seq<SequenceState>) returns (masks: seq<seq<bool>>, incoming: seq<seq<K>>,
                                                            first: seq<nat>)
      requires Distinct(Ids(states)) && forall i :: 0 <= i < |states| ==> states[i].prompt != []
      ensures |masks| == |incoming| == |first| == |states|
      ensures Rectangular(incoming) && Rectangular(masks) && Width(incoming) == Width(masks)
      ensures BatchHolds(attend, Ids(states), incoming, masks, first, Starts(states, first))
      ensures forall i :: 0 <= i < |states| ==>
        first[i] == SoloNext(attend, states[i].prompt) && Count(masks[i]) == |states[i].prompt|
    {
      hide BatchHolds, SoloNext, RowHolds, Count, LeftPad, Distinct;
      var longest := Longest(states);
      masks := PromptMasks(states, longest);
      var inputs := PromptInputs(states, longest, padToken);
      var passes := PassAll(attend, Blank(|states|), masks, inputs);
      first := Bests(passes);
      incoming := Caches(passes);
      StartsAt(states, first);
      hide Starts;
      BatchPrefilled(attend, states, longest, padToken, passes, Starts(states, first));
      BatchTensors(attend, Ids(states), incoming, masks, first, Starts(states, first));
    }

    /** Each state notes how many columns of its mask are set. */
    method NoteLengths(states: seq<SequenceState>, masks: seq<seq<bool>>)
      requires |masks| == |states| && Distinct(Ids(states))
      modifies set st | st in states
      ensures forall i :: 0 <= i < |states| ==>
        && states[i].promptTokens == Count(masks[i]) && states[i].sampled == old(states[i].sampled)
        && states[i].tokens == old(states[i].tokens) && states[i].stoppedEarly == old(states[i].stoppedEarly)
    {
      hide Count, Distinct;
      for k := 0 to |states|
        invariant forall i :: 0 <= i < |states| ==>
          && states[i].sampled == old(states[i].sampled)
          && states[i].tokens == old(states[i].tokens) && states[i].stoppedEarly == old(states[i].stoppedEarly)
        invariant forall i :: 0 <= i < k ==> states[i].promptTokens == Count(masks[i])
      {
        DistinctStates(states, k);
        states[k].promptTokens := Count(masks[k]);
      }
    }

    /** The new rows' states record their first token, and the batch is whole again. */
    method Enter(states: seq<SequenceState>, first: seq<nat>, ghost rows0: seq<int>, ghost cache0: seq<seq<K>>,
                 ghost mask0: seq<seq<bool>>, ghost last0: seq<nat>, ghost hs0: map<int, History>,
                 ghost incoming: seq<seq<K>>, ghost incomingMask: seq<seq<bool>>, ghost common: nat)
      requires (forall x :: x in owner <==> x in rows0) && hs0 == Histories()
      requires forall x :: x in owner ==> owner[x].sequenceId == x && Faithful(owner[x], attend, eos)
      requires BatchHolds(attend, rows0, cache0, mask0, last0, hs0)
      requires |first| == |states| && BatchHolds(attend, Ids(states), incoming, incomingMask, first,
                                                 Starts(states, first))
      requires common >= Width(cache0) && common >= Width(incoming)
      requires rows == rows0 + Ids(states) && Distinct(rows) && last == last0 + first
      requires cache == Merged(cache0, incoming, common, zero) && mask == Merged(mask0, incomingMask, common, false)
      requires forall i :: 0 <= i < |states| ==>
        && states[i].prompt != [] && states[i].sampled == [] && states[i].tokens == [] && !states[i].stoppedEarly
        && states[i].maxNewTokens > 0
        && first[i] == SoloNext(attend, states[i].prompt)
      modifies this`owner, set st | st in states
      ensures Valid()
      ensures forall x :: x in old(owner) ==> x in owner && owner[x] == old(owner)[x]
      ensures forall i :: 0 <= i < |states| ==>
        && states[i].sequenceId in owner && owner[states[i].sequenceId] == states[i]
        && Faithful(states[i], attend, eos) && states[i].sampled == [first[i]]
        && states[i].promptTokens == old(states[i].promptTokens)
    {
      hide BatchHolds, SoloNext, Transcript, Distinct, Merged, Starts, Width, Ids, Owners, Faithful;
      DistinctParts(rows0, Ids(states));
      ghost var owner0 := owner;
      Strangers(states, rows0);
      owner := owner + Owners(states);
      OwnersFound(states);
      FreshTranscripts(attend, eos, states);
      Record(states, first);
      Rejoin(states, first, rows0, cache0, mask0, last0, hs0, incoming, incomingMask, common);
      Whole(states, rows0, owner0);
    }

    /** Nobody who comes in is there already. */
    lemma Strangers(states: seq<SequenceState>, rows0: seq<int>)
      requires Distinct(rows0 + Ids(states)) && forall x :: x in owner <==> x in rows0
      requires forall x :: x in owner ==> owner[x].sequenceId == x
      ensures forall x :: x in owner ==> x !in Ids(states) && owner[x] !in states
    {
      DistinctParts(rows0, Ids(states));
      hide Distinct;
      forall x | x in owner ensures x !in Ids(states) && owner[x] !in states {
        var j :| 0 <= j < |rows0| && rows0[j] == x;
        forall i | 0 <= i < |states| ensures states[i].sequenceId != x {
          assert Ids(states)[i] == states[i].sequenceId;
        }
      }
    }

    lemma OwnersFound(states: seq<SequenceState>)
      requires Distinct(Ids(states))
      ensures forall i :: 0 <= i < |states| ==>
        && states[i].sequenceId in Owners(states) && Owners(states)[states[i].sequenceId] == states[i]
      ensures forall x :: x in Owners(states) <==> x in Ids(states)
    {
      hide Distinct;
      forall i | 0 <= i < |states|
        ensures states[i].sequenceId in Owners(states) && Owners(states)[states[i].sequenceId] == states[i]
      {
        OwnersAt(states, i);
      }
      forall x | x in Ids(states) ensures x in Owners(states) {
        var i :| 0 <= i < |states| && Ids(states)[i] == x;
        OwnersAt(states, i);
      }
    }

    /** Every row, old or new, has its own faithful state. */
    lemma Whole(states: seq<SequenceState>, rows0: seq<int>, owner0: map<int, SequenceState>)
      requires rows == rows0 + Ids(states) && (forall x :: x in owner0 <==> x in rows0)
      requires (forall x :: x in owner <==> x in owner0 || x in Ids(states))
      requires forall x :: x in owner0 ==>
        owner[x] == owner0[x] && owner[x].sequenceId == x && Faithful(owner[x], attend, eos)
      requires forall i :: 0 <= i < |states| ==>
        && states[i].sequenceId in owner && owner[states[i].sequenceId] == states[i]
        && Faithful(states[i], attend, eos)
      ensures forall x :: x in owner <==> x in rows
      ensures forall x :: x in owner ==> owner[x].sequenceId == x && Faithful(owner[x], attend, eos)
    {
      hide Faithful;
      forall x | x in owner ensures x in rows && owner[x].sequenceId == x && Faithful(owner[x], attend, eos) {
        if x in Ids(states) {
          var i :| 0 <= i < |states| && Ids(states)[i] == x;
          assert owner[x] == states[i];
        }
      }
    }

    /** Old and new rows together hold what the states now say. */
    lemma Rejoin(states: seq<SequenceState>, first: seq<nat>, rows0: seq<int>, cache0: seq<seq<K>>,
                 mask0: seq<seq<bool>>, last0: seq<nat>, hs0: map<int, History>,
                 incoming: seq<seq<K>>, incomingMask: seq<seq<bool>>, common: nat)
      requires forall x :: x in rows0 ==> x in hs0 && x in Histories() && Histories()[x] == hs0[x]
      requires |first| == |states|
      requires forall i :: 0 <= i < |states| ==>
        && states[i].sequenceId in Histories()
        && Histories()[states[i].sequenceId] == History(states[i].prompt, [first[i]])
      requires BatchHolds(attend, rows0, cache0, mask0, last0, hs0)
      requires BatchHolds(attend, Ids(states), incoming, incomingMask, first, Starts(states, first))
      requires common >= Width(cache0) && common >= Width(incoming) && Distinct(rows0 + Ids(states))
      ensures BatchHolds(attend, rows0 + Ids(states), Merged(cache0, incoming, common, zero),
                         Merged(mask0, incomingMask, common, false), last0 + first, Histories())
    {
      hide BatchHolds, Distinct, Merged, Starts, Width;
      DistinctParts(rows0, Ids(states));
      StartsAt(states, first);
      forall i | 0 <= i < |rows0|
        ensures rows0[i] in Histories() && rows0[i] in hs0 && Histories()[rows0[i]] == hs0[rows0[i]]
      {
        var x := rows0[i];
        assert x in rows0;
      }
      BatchAgree(attend, rows0, cache0, mask0, last0, hs0, Histories());
      BatchAgree(attend, Ids(states), incoming, incomingMask, first, Starts(states, first), Histories());
      BatchMerged(attend, rows0, cache0, mask0, last0, Ids(states), incoming, incomingMask, first, Histories(), common,
                  zero);
    }

    /** One forward pass over every row, and one token for every sequence. */
    method Advance(ordered: seq<SequenceState>)
      requires Valid() && |ordered| == |rows|
      requires forall i :: 0 <= i < |rows| ==> ordered[i] == owner[rows[i]] && !ordered[i].Finished()
      modifies this`cache, this`mask, this`last, set st | st in ordered
      ensures Valid()
      ensures forall i :: 0 <= i < |ordered| ==>
        && ordered[i].prompt != [] && Faithful(ordered[i], attend, eos)
        && ordered[i].sampled ==
           old(ordered[i].sampled) + [SoloNext(attend, ordered[i].prompt + old(ordered[i].sampled))]
    {
      hide BatchHolds, SoloNext, Transcript, Distinct, Grow, Column, Caches, Bests, PassAll, Forward, Ids;
      BatchShape(attend, rows, cache, mask, last, Histories());
      ghost var hs, cache0, mask0, last0 := Histories(), cache, mask, last;
      var tokens;
      ghost var passes;
      tokens, passes := StepTensors(hs);
      forall i | 0 <= i < |rows|
        ensures ordered[i].prompt != [] && tokens[i] == SoloNext(attend, ordered[i].prompt + ordered[i].sampled)
      {
        assert hs[rows[i]] == History(ordered[i].prompt, ordered[i].sampled);
      }
      Settle(ordered, tokens, hs, cache0, mask0, last0, passes);
    }

    /** The batch tensors after a pass over every row. */
    ghost predicate Stepped(cache0: seq<seq<K>>, mask0: seq<seq<bool>>, last0: seq<nat>, passes: seq<(seq<K>, nat)>)
      reads this`cache, this`mask, this`last
    {
      && |cache0| == |mask0| == |last0| && (forall i :: 0 <= i < |cache0| ==> |cache0[i]| == |mask0[i]|)
      && passes == PassAll(attend, cache0, Grow(mask0), Column(last0))
      && cache == Caches(passes) && mask == Grow(mask0) && last == Bests(passes)
    }

    /** The bookkeeping half: every state records its token, and the rows match again. */
    method Settle(ordered: seq<SequenceState>, tokens: seq<nat>, ghost hs: map<int, History>, ghost cache0: seq<seq<K>>,
                  ghost mask0: seq<seq<bool>>, ghost last0: seq<nat>, ghost passes: seq<(seq<K>, nat)>)
      requires (forall x :: x in owner <==> x in rows) && hs == Histories()
      requires BatchHolds(attend, rows, cache0, mask0, last0, hs)
      requires Stepped(cache0, mask0, last0, passes) && last == tokens
      requires |ordered| == |rows| == |tokens|
      requires forall i :: 0 <= i < |ordered| ==>
        && rows[i] in owner && ordered[i] == owner[rows[i]] && ordered[i].sequenceId == rows[i]
        && Faithful(ordered[i], attend, eos) && !ordered[i].Finished()
        && tokens[i] == SoloNext(attend, ordered[i].prompt + ordered[i].sampled)
      modifies set st | st in ordered
      ensures Valid()
      ensures forall i :: 0 <= i < |ordered| ==>
        Faithful(ordered[i], attend, eos) && ordered[i].sampled == old(ordered[i].sampled) + [tokens[i]]
    {
      hide BatchHolds, SoloNext, Transcript, Distinct, Grow, Column, Caches, PassAll, Forward, Bests, Ids;
      BatchShape(attend, rows, cache0, mask0, last0, hs);
      OrderedIds(ordered, rows);
      Record(ordered, tokens);
      forall i | 0 <= i < |rows|
        ensures rows[i] in hs
        ensures Histories()[rows[i]] == History(hs[rows[i]].prompt, hs[rows[i]].sampled + [passes[i].1])
      {
        assert hs[rows[i]] == History(ordered[i].prompt, old(ordered[i].sampled));
      }
      BatchDecoded(attend, rows, cache0, mask0, last0, hs, passes, Histories());
      forall x | x in owner ensures owner[x].sequenceId == x && Faithful(owner[x], attend, eos) {
        var i :| 0 <= i < |rows| && rows[i] == x;
        assert owner[x] == ordered[i];
      }
    }

    /** The tensor half of a decode step: grow the mask, run the model, keep the new cache. */
    method StepTensors(ghost hs: map<int, History>) returns (tokens: seq<nat>, ghost passes: seq<(seq<K>, nat)>)
      requires |rows| == |cache| == |mask| == |last| && forall i :: 0 <= i < |cache| ==> |cache[i]| == |mask[i]|
      requires BatchHolds(attend, rows, cache, mask, last, hs)
      modifies this`cache, this`mask, this`last
      ensures passes == PassAll(attend, old(cache), Grow(old(mask)), Column(old(last)))
      ensures cache == Caches(passes) && mask == Grow(old(mask)) && last == tokens == Bests(passes)
      ensures forall i :: 0 <= i < |rows| ==>
        && rows[i] in hs && hs[rows[i]].sampled != [] && tokens[i] == passes[i].1
        && tokens[i] == SoloNext(attend, hs[rows[i]].prompt + hs[rows[i]].sampled)
    {
      hide BatchHolds, SoloNext, Forward;
      mask := Grow(mask);
      var results := PassAll(attend, cache, mask, Column(last));
      passes := results;
      ghost var cache0, mask0, last0 := old(cache), old(mask), last;
      forall i | 0 <= i < |rows|
        ensures rows[i] in hs && hs[rows[i]].sampled != []
        ensures passes[i].1 == SoloNext(attend, hs[rows[i]].prompt + hs[rows[i]].sampled)
      {
        RowOfBatch(attend, rows, cache0, mask0, last0, hs, passes, i);
      }
      cache := Caches(results);
      tokens := Bests(results);
      last := tokens;
    }

    /** Afterwards there is a row for nobody who is not wanted. */
    method Narrow(wanted: set<int>)
      requires Valid()
      modifies this`rows, this`cache, this`mask, this`last, this`owner
      ensures Valid()
      ensures forall x :: x in rows <==> x in old(rows) && x in wanted
      ensures forall x :: x in owner ==> x in old(owner) && owner[x] == old(owner)[x]
    {
      hide BatchHolds, SoloNext, Transcript, Distinct, Select;
      var keep := Positions(rows, wanted, 0);
      KeptRows(rows, wanted, keep);
      if |keep| != |rows| {
        KeepRows(keep);
      }
    }

    /** Advances every unfinished sequence with a row by one token, and drops every
        other row. Which other sequences are in the batch decides nothing else. */
    method DecodeStep(states: seq<SequenceState>)
      requires Valid() && Distinct(Ids(states))
      requires forall i :: 0 <= i < |states| ==> Faithful(states[i], attend, eos)
      requires forall i :: 0 <= i < |states| && states[i].sequenceId in rows ==>
        owner[states[i].sequenceId] == states[i]
      modifies this`rows, this`cache, this`mask, this`last, this`owner, this`steps, set st | st in states
      ensures Valid()
      ensures forall x :: x in owner ==> x in old(owner) && owner[x] == old(owner)[x]
      ensures steps == if old(ActiveOf(states)) == [] || old(rows) == [] then old(steps) else old(steps) + 1
      ensures old(ActiveOf(states)) == [] ==> rows == old(rows)
      ensures old(ActiveOf(states)) != [] ==>
        forall x :: x in rows <==> x in old(rows) && exists st :: st in old(ActiveOf(states)) && st.sequenceId == x
      ensures forall i :: 0 <= i < |states| ==>
        && states[i].prompt != [] && Faithful(states[i], attend, eos)
        && if old(states[i].Finished()) || states[i].sequenceId !in old(rows) then unchanged(states[i])
           else states[i].sampled ==
                old(states[i].sampled) + [SoloNext(attend, states[i].prompt + old(states[i].sampled))]
    {
      hide BatchHolds, SoloNext, Transcript, Distinct;
      BatchShape(attend, rows, cache, mask, last, Histories());
      var active := ActiveOf(states);
      if active == [] || cache == [] {
        return;
      }
      steps := steps + 1;
      var wanted := set st | st in active :: st.sequenceId;
      Narrow(wanted);
      if rows == [] {
        return;
      }
      WantedActive(active, rows, wanted);
      var ordered := Ordered(active, rows);
      Advance(ordered);
    }

    /** One row goes, if it is there, and the others stay as they were. */
    method Evict(sequenceId: int)
      requires Valid()
      modifies this`rows, this`cache, this`mask, this`last, this`owner
      ensures Valid()
      ensures forall x :: x in rows <==> x in old(rows) && x != sequenceId
      ensures forall x :: x in owner ==> x in old(owner) && owner[x] == old(owner)[x]
    {
      if sequenceId !in rows {
        return;
      }
      var others := set x | x in rows && x != sequenceId;
      hide BatchHolds, Transcript;
      var keep := Positions(rows, others, 0);
      KeptRows(rows, others, keep);
      KeepRows(keep);
    }
  }

  /** The rows kept are the wanted ones. */
  lemma KeptRows(rows: seq<int>, wanted: set<int>, keep: seq<nat>)
    requires keep == Positions(rows, wanted, 0)
    ensures forall x :: x in Select(rows, keep) <==> x in rows && x in wanted
    ensures |keep| == |rows| ==> forall x :: x in rows ==> x in wanted
  {
    forall x | x in rows && x in wanted ensures x in Select(rows, keep) {
      var p :| 0 <= p < |rows| && rows[p] == x;
      var i :| 0 <= i < |keep| && keep[i] == p;
      assert Select(rows, keep)[i] == x;
    }
    if |keep| == |rows| {
      PositionsFull(rows, wanted, 0);
    }
  }

  lemma {:induction false} PositionsFull(rows: seq<int>, wanted: set<int>, from: nat)
    requires from <= |rows|
    ensures |Positions(rows, wanted, from)| <= |rows| - from
    ensures |Positions(rows, wanted, from)| == |rows| - from ==> forall p :: from <= p < |rows| ==> rows[p] in wanted
    decreases |rows| - from
  {
    if from < |rows| {
      PositionsFull(rows, wanted, from + 1);
    }
  }

  /** Batch mates are immaterial: a finished sequence has exactly its solo output, so two
      sequences with one prompt and budget agree, whichever rows came and went beside them. */
  lemma BatchMatesAreImmaterial<K(!new)>(attend: Attend<K>, eos: Option<nat>, a: SequenceState, b: SequenceState)
    requires Faithful(a, attend, eos) && a.Finished() && Faithful(b, attend, eos) && b.Finished()
    requires a.prompt == b.prompt && a.maxNewTokens == b.maxNewTokens
    ensures a.tokens == SoloOutput(attend, eos.GetOr(0), eos.Some?, a.prompt, a.maxNewTokens, 0)
    ensures a.tokens == b.tokens
  {
    FinishedIsSolo(attend, eos, a.prompt, a.maxNewTokens, a.sampled, a.tokens, a.stoppedEarly, 0);
    FinishedIsSolo(attend, eos, b.prompt, b.maxNewTokens, b.sampled, b.tokens, b.stoppedEarly, 0);
  }
}
