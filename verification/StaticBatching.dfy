/** Static batching of the same workload, which the continuous scheduler is compared with:
    no row is refilled before its whole batch is over. */
module StaticBatching {
  import opened BlockTables
  import opened Common
  import opened Continuous
  import opened EchoRunner
  import opened SchedulerBooks
  import opened Sequences

  datatype Work = Work(prompt: seq<nat>, budget: nat)

  /** Decode steps a sequence is live for: its budget, or its tokens and one end marker. */
  function Turns(stopAfter: map<seq<nat>, nat>, w: Work): nat {
    if StopsEarly(stopAfter, w) then stopAfter[w.prompt] + 1 else w.budget
  }

  predicate StopsEarly(stopAfter: map<seq<nat>, nat>, w: Work) {
    w.prompt in stopAfter && stopAfter[w.prompt] < w.budget
  }

  /** The longest member of a batch. */
  function Longest(stopAfter: map<seq<nat>, nat>, batch: seq<Work>): nat {
    if batch == [] then 0 else Max(Longest(stopAfter, batch[..|batch| - 1]), Turns(stopAfter, batch[|batch| - 1]))
  }

  function TotalTurns(stopAfter: map<seq<nat>, nat>, batch: seq<Work>): nat {
    if batch == [] then 0 else TotalTurns(stopAfter, batch[..|batch| - 1]) + Turns(stopAfter, batch[|batch| - 1])
  }

  /** Steps of a whole workload, chunk by chunk. */
  function StaticSteps(stopAfter: map<seq<nat>, nat>, work: seq<Work>, maxBatch: nat): nat
    requires maxBatch > 0
  {
    if |work| <= maxBatch then Longest(stopAfter, work)
    else Longest(stopAfter, work[..maxBatch]) + StaticSteps(stopAfter, work[maxBatch..], maxBatch)
  }

  lemma StaticUnfolds(stopAfter: map<seq<nat>, nat>, work: seq<Work>, maxBatch: nat)
    requires maxBatch > 0 && work != []
    ensures var size := if |work| < maxBatch then |work| else maxBatch;
      StaticSteps(stopAfter, work, maxBatch) ==
      Longest(stopAfter, work[..size]) + StaticSteps(stopAfter, work[size..], maxBatch)
  {
    if |work| <= maxBatch {
      assert work[..|work|] == work && work[|work|..] == [];
    }
  }

  /** Rows filled in the first `k` steps of a batch, and in step `k` itself. */
  function Filled(stopAfter: map<seq<nat>, nat>, batch: seq<Work>, k: nat): nat {
    if batch == [] then 0 else Filled(stopAfter, batch[..|batch| - 1], k) + Min(k, Turns(stopAfter, batch[|batch| - 1]))
  }

  function Width(stopAfter: map<seq<nat>, nat>, batch: seq<Work>, k: nat): (n: nat)
    ensures n <= |batch|
  {
    if batch == [] then 0
    else Width(stopAfter, batch[..|batch| - 1], k) + if Turns(stopAfter, batch[|batch| - 1]) > k then 1 else 0
  }

  lemma {:induction false} FilledSteps(stopAfter: map<seq<nat>, nat>, batch: seq<Work>, k: nat)
    ensures Filled(stopAfter, batch, k + 1) == Filled(stopAfter, batch, k) + Width(stopAfter, batch, k)
    ensures Filled(stopAfter, batch, 0) == 0
    ensures k >= Longest(stopAfter, batch) ==> Filled(stopAfter, batch, k) == TotalTurns(stopAfter, batch)
    ensures k >= Longest(stopAfter, batch) <==> Width(stopAfter, batch, k) == 0
  {
    if batch == [] {
    } else {
      FilledSteps(stopAfter, batch[..|batch| - 1], k);
    }
  }

  lemma {:induction false} LongestIs(stopAfter: map<seq<nat>, nat>, batch: seq<Work>)
    ensures forall i :: 0 <= i < |batch| ==> Turns(stopAfter, batch[i]) <= Longest(stopAfter, batch)
    ensures batch != [] ==> exists i :: 0 <= i < |batch| && Turns(stopAfter, batch[i]) == Longest(stopAfter, batch)
    ensures TotalTurns(stopAfter, batch) <= Rows(Longest(stopAfter, batch), |batch|)
  {
    if batch == [] {
    } else {
      var n, rest := |batch| - 1, batch[..|batch| - 1];
      LongestIs(stopAfter, rest);
      RowsGrow(Longest(stopAfter, rest), Longest(stopAfter, batch), n, n);
      RowsMore(Longest(stopAfter, batch), n);
      hide Turns, Rows;
      if Turns(stopAfter, batch[n]) < Longest(stopAfter, batch) && rest != [] {
        var i :| 0 <= i < |rest| && Turns(stopAfter, rest[i]) == Longest(stopAfter, rest);
        assert batch[i] == rest[i];
      }
    }
  }

  lemma RowsGrow(a: nat, b: nat, width: nat, wider: nat)
    requires a <= b && width <= wider
    ensures Rows(a, width) <= Rows(b, wider)
  {
    assert a * width <= b * width <= b * wider;
  }

  lemma RowsMore(steps: nat, width: nat)
    ensures Rows(steps, width + 1) == Rows(steps, width) + steps
  {
  }

  lemma {:induction false} TotalSplits(stopAfter: map<seq<nat>, nat>, a: seq<Work>, b: seq<Work>)
    ensures TotalTurns(stopAfter, a + b) == TotalTurns(stopAfter, a) + TotalTurns(stopAfter, b)
    ensures Longest(stopAfter, a + b) == Max(Longest(stopAfter, a), Longest(stopAfter, b))
  {
    if b == [] {
      assert a + b == a;
    } else {
      TotalSplits(stopAfter, a, b[..|b| - 1]);
      assert (a + b)[..|a + b| - 1] == a + b[..|b| - 1];
    }
  }

  /** No static schedule beats the work spread over full batches, or the longest member. */
  lemma {:induction false} StaticLowerBound(stopAfter: map<seq<nat>, nat>, work: seq<Work>, maxBatch: nat)
    requires maxBatch > 0
    ensures StaticSteps(stopAfter, work, maxBatch) >= Longest(stopAfter, work)
    ensures StaticSteps(stopAfter, work, maxBatch) >= CeilDiv(TotalTurns(stopAfter, work), maxBatch)
  {
    StaticRoom(stopAfter, work, maxBatch);
    StepsCover(StaticSteps(stopAfter, work, maxBatch), maxBatch, TotalTurns(stopAfter, work));
  }

  lemma {:induction false} StaticRoom(stopAfter: map<seq<nat>, nat>, work: seq<Work>, maxBatch: nat)
    requires maxBatch > 0
    ensures StaticSteps(stopAfter, work, maxBatch) >= Longest(stopAfter, work)
    ensures TotalTurns(stopAfter, work) <= Rows(StaticSteps(stopAfter, work, maxBatch), maxBatch)
    decreases |work|
  {
    hide Longest, TotalTurns, Rows;
    if |work| <= maxBatch {
      LongestIs(stopAfter, work);
      RowsGrow(Longest(stopAfter, work), Longest(stopAfter, work), |work|, maxBatch);
    } else {
      var head, tail := work[..maxBatch], work[maxBatch..];
      LongestIs(stopAfter, head);
      StaticRoom(stopAfter, tail, maxBatch);
      TotalSplits(stopAfter, head, tail);
      assert work == head + tail;
      RowsAdd(Longest(stopAfter, head), StaticSteps(stopAfter, tail, maxBatch), maxBatch);
    }
  }

  /** What a sequence has in the end: a token for every step up to its end marker or its budget. */
  datatype Output = Output(tokens: seq<nat>, stopped: bool)

  function Echoed(stopAfter: map<seq<nat>, nat>, w: Work): Output {
    if StopsEarly(stopAfter, w) then Output(Upto(stopAfter[w.prompt]), true) else Output(Upto(w.budget), false)
  }

  /** The first `n` tokens of any sequence. */
  function Upto(n: nat): (r: seq<nat>)
    ensures |r| == n && forall i :: 0 <= i < n ==> r[i] == i
  {
    seq(n, i requires 0 <= i < n => i)
  }

  /** Each sequence got its own tokens, in the order the prompts were given. */
  ghost predicate Delivered(stopAfter: map<seq<nat>, nat>, work: seq<Work>, outputs: seq<Output>) {
    |outputs| == |work| && forall i :: 0 <= i < |work| ==> outputs[i] == Echoed(stopAfter, work[i])
  }

  /** Nobody is given more than its budget, and only an end marker gives anybody less. */
  lemma BudgetsHonoured(stopAfter: map<seq<nat>, nat>, work: seq<Work>, outputs: seq<Output>, i: nat)
    requires Delivered(stopAfter, work, outputs) && i < |work|
    ensures |outputs[i].tokens| <= work[i].budget
    ensures |outputs[i].tokens| == work[i].budget <==> !outputs[i].stopped
    ensures outputs[i].stopped ==> work[i].prompt in stopAfter && |outputs[i].tokens| == stopAfter[work[i].prompt]
    ensures Turns(stopAfter, work[i]) == |outputs[i].tokens| + if outputs[i].stopped then 1 else 0
  {
  }

  /** Where a sequence is after `k` steps of its batch. */
  predicate At(stopAfter: map<seq<nat>, nat>, w: Work, k: nat, tokens: seq<nat>, stopped: bool) {
    if StopsEarly(stopAfter, w) then tokens == Upto(Min(k, stopAfter[w.prompt])) && stopped == (k > stopAfter[w.prompt])
    else tokens == Upto(Min(k, w.budget)) && !stopped
  }

  ghost predicate Abreast(stopAfter: map<seq<nat>, nat>, batch: seq<Work>, states: seq<SequenceState>, k: nat)
    reads states
  {
    && |states| == |batch|
    && (forall i :: 0 <= i < |states| ==>
          && states[i].prompt == batch[i].prompt && states[i].maxNewTokens == batch[i].budget
          && states[i].sequenceId == i
          && At(stopAfter, batch[i], k, states[i].tokens, states[i].stoppedEarly))
    && forall i, j :: 0 <= i < j < |states| ==> states[i] != states[j]
  }

  lemma FinishedWhen(stopAfter: map<seq<nat>, nat>, batch: seq<Work>, states: seq<SequenceState>, k: nat)
    requires Abreast(stopAfter, batch, states, k)
    ensures forall i :: 0 <= i < |states| ==> (states[i].Finished() <==> k >= Turns(stopAfter, batch[i]))
  {
  }

  method NewStates(batch: seq<Work>, ghost stopAfter: map<seq<nat>, nat>) returns (states: seq<SequenceState>)
    requires forall i :: 0 <= i < |batch| ==> batch[i].budget > 0
    ensures Abreast(stopAfter, batch, states, 0) && fresh(set st | st in states)
  {
    states := [];
    for i := 0 to |batch|
      invariant Abreast(stopAfter, batch[..i], states, 0) && fresh(set st | st in states)
    {
      var state := new SequenceState(i, batch[i].prompt, batch[i].budget);
      states := states + [state];
    }
    assert batch[..|batch|] == batch;
  }

  method LiveRows(states: seq<SequenceState>, ghost stopAfter: map<seq<nat>, nat>, ghost batch: seq<Work>, ghost k: nat)
    returns (width: nat)
    requires Abreast(stopAfter, batch, states, k)
    ensures width == Width(stopAfter, batch, k)
  {
    FinishedWhen(stopAfter, batch, states, k);
    hide Abreast, Turns;
    width := 0;
    for i := 0 to |states|
      invariant width == Width(stopAfter, batch[..i], k)
    {
      assert batch[..i + 1][..i] == batch[..i];
      if !states[i].Finished() {
        width := width + 1;
      }
    }
    assert batch[..|batch|] == batch;
  }

  /** One batch takes as many steps as its longest member, and every member gets its own tokens. */
  method RunBatch(runner: EchoStepwiseRunner, batch: seq<Work>, maxBatch: nat, before: ContinuousStats)
    returns (stats: ContinuousStats, ghost outputs: seq<Output>)
    requires |batch| <= maxBatch && forall i :: 0 <= i < |batch| ==> batch[i].budget > 0
    requires before.maxObservedBatch <= maxBatch
    modifies runner
    ensures Delivered(runner.stopAfter, batch, outputs)
    ensures Counted(runner.stopAfter, batch, maxBatch, before.(completions := before.completions + |batch|), stats,
                    Longest(runner.stopAfter, batch))
    ensures runner.steps == old(runner.steps) + Longest(runner.stopAfter, batch)
    ensures runner.active <= old(runner.active)
  {
    hide Longest, TotalTurns, Turns, Width, Filled, Abreast, Rows, RowIds, Counted, Delivered;
    ghost var stopAfter := runner.stopAfter;
    var states := NewStates(batch, stopAfter);
    runner.Prefill(states);
    stats := before.(admissions := before.admissions + |states|);
    StatesCount(stopAfter, batch, states, 0);
    CountedNone(stopAfter, batch, maxBatch, before, stats);
    ghost var k := 0;
    label prefilled:
    var width := LiveRows(states, stopAfter, batch, 0);
    while width > 0
      invariant Abreast(stopAfter, batch, states, k) && width == Width(stopAfter, batch, k)
      invariant Counted(stopAfter, batch, maxBatch, before, stats, k)
      invariant runner.steps == old(runner.steps) + k && runner.active == old@prefilled(runner.active)
      invariant k <= Longest(stopAfter, batch)
      decreases Longest(stopAfter, batch) - k
    {
      FilledSteps(stopAfter, batch, k);
      Advance(runner, states, batch, k);
      ghost var stats0 := stats;
      stats := stats.(decodeSteps := stats.decodeSteps + 1, occupiedRows := stats.occupiedRows + width,
                      availableRows := stats.availableRows + maxBatch,
                      maxObservedBatch := if stats.maxObservedBatch > width then stats.maxObservedBatch else width);
      CountedNext(stopAfter, batch, maxBatch, before, stats0, stats, k);
      k := k + 1;
      width := LiveRows(states, stopAfter, batch, k);
    }
    FilledSteps(stopAfter, batch, k);
    EvictAll(runner, states);
    outputs := Outputs(stopAfter, batch, states, k);
    CountedDone(stopAfter, batch, maxBatch, before, stats, k);
    stats := stats.(completions := stats.completions + |states|);
  }

  lemma StatesCount(stopAfter: map<seq<nat>, nat>, batch: seq<Work>, states: seq<SequenceState>, k: nat)
    requires Abreast(stopAfter, batch, states, k)
    ensures |states| == |batch|
  {
  }

  /** What the states of a finished batch have to show. */
  lemma Outputs(stopAfter: map<seq<nat>, nat>, batch: seq<Work>, states: seq<SequenceState>, k: nat)
    returns (outputs: seq<Output>)
    requires Abreast(stopAfter, batch, states, k) && k >= Longest(stopAfter, batch)
    ensures Delivered(stopAfter, batch, outputs) && |states| == |batch|
  {
    LongestIs(stopAfter, batch);
    hide Longest, TotalTurns;
    outputs := Finals(states);
  }

  ghost function Finals(states: seq<SequenceState>): (r: seq<Output>)
    reads states
    ensures |r| == |states|
    ensures forall i :: 0 <= i < |states| ==> r[i] == Output(states[i].tokens, states[i].stoppedEarly)
  {
    if states == [] then []
    else
      var last := states[|states| - 1];
      Finals(states[..|states| - 1]) + [Output(last.tokens, last.stoppedEarly)]
  }

  /** The counters after `k` steps of a batch. */
  ghost predicate Counted(stopAfter: map<seq<nat>, nat>, batch: seq<Work>, maxBatch: nat, before: ContinuousStats,
                          stats: ContinuousStats, k: nat)
  {
    && stats.decodeSteps == before.decodeSteps + k
    && stats.occupiedRows == before.occupiedRows + Filled(stopAfter, batch, k)
    && stats.availableRows == before.availableRows + Rows(k, maxBatch)
    && stats.completions == before.completions && stats.admissions == before.admissions + |batch|
    && stats.maxObservedBatch <= maxBatch
  }

  lemma CountedNone(stopAfter: map<seq<nat>, nat>, batch: seq<Work>, maxBatch: nat, before: ContinuousStats,
                    stats: ContinuousStats)
    requires before.maxObservedBatch <= maxBatch && stats == before.(admissions := before.admissions + |batch|)
    ensures Counted(stopAfter, batch, maxBatch, before, stats, 0)
  {
    RowsAdd(0, 0, maxBatch);
    FilledSteps(stopAfter, batch, 0);
  }

  /** A step offers a batch of rows and fills one for every live member. */
  lemma CountedNext(stopAfter: map<seq<nat>, nat>, batch: seq<Work>, maxBatch: nat, before: ContinuousStats,
                    stats: ContinuousStats, after: ContinuousStats, k: nat)
    requires |batch| <= maxBatch && Counted(stopAfter, batch, maxBatch, before, stats, k)
    requires var width := Width(stopAfter, batch, k);
      after == stats.(decodeSteps := stats.decodeSteps + 1, occupiedRows := stats.occupiedRows + width,
                      availableRows := stats.availableRows + maxBatch,
                      maxObservedBatch := if stats.maxObservedBatch > width then stats.maxObservedBatch else width)
    ensures Counted(stopAfter, batch, maxBatch, before, after, k + 1)
  {
    RowsAdd(k, 1, maxBatch);
    FilledSteps(stopAfter, batch, k);
    hide Rows, Filled, Width;
  }

  /** The completions, counted once the batch is done. */
  lemma CountedDone(stopAfter: map<seq<nat>, nat>, batch: seq<Work>, maxBatch: nat, before: ContinuousStats,
                    stats: ContinuousStats, k: nat)
    requires Counted(stopAfter, batch, maxBatch, before, stats, k)
    ensures Counted(stopAfter, batch, maxBatch, before.(completions := before.completions + |batch|),
                    stats.(completions := stats.completions + |batch|), k)
  {
  }

  method EvictAll(runner: EchoStepwiseRunner, states: seq<SequenceState>)
    modifies runner
    ensures runner.active == old(runner.active) - RowIds(states)
    ensures runner.steps == old(runner.steps)
  {
    for i := 0 to |states|
      invariant runner.steps == old(runner.steps)
      invariant runner.active == old(runner.active) - RowIds(states[..i])
    {
      assert states[..i + 1] == states[..i] + [states[i]];
      runner.Evict(states[i].sequenceId);
    }
    assert states[..|states|] == states;
  }

  /** One decode step moves every sequence of the batch on together. */
  method Advance(runner: EchoStepwiseRunner, states: seq<SequenceState>, ghost batch: seq<Work>, ghost k: nat)
    requires Abreast(runner.stopAfter, batch, states, k) && Width(runner.stopAfter, batch, k) > 0
    modifies runner, set st | st in states
    ensures Abreast(runner.stopAfter, batch, states, k + 1)
    ensures runner.steps == old(runner.steps) + 1 && runner.active == old(runner.active)
  {
    FinishedWhen(runner.stopAfter, batch, states, k);
    SomeoneWide(runner.stopAfter, batch, k);
    hide At, Turns, EchoStepwiseRunner.Stepped;
    label before:
    runner.DecodeStep(states);
    forall i | 0 <= i < |states|
      ensures At(runner.stopAfter, batch[i], k + 1, states[i].tokens, states[i].stoppedEarly)
    {
      AtNext(runner, batch[i], k, old@before(states[i].tokens), old@before(states[i].stoppedEarly),
             old@before(states[i].Finished()), states[i].tokens, states[i].stoppedEarly);
    }
  }

  lemma AtNext(runner: EchoStepwiseRunner, w: Work, k: nat, tokens: seq<nat>, stopped: bool, finished: bool,
               tokens': seq<nat>, stopped': bool)
    requires At(runner.stopAfter, w, k, tokens, stopped) && finished == (k >= Turns(runner.stopAfter, w))
    requires runner.Stepped(w.prompt, finished, tokens, stopped, tokens', stopped')
    ensures At(runner.stopAfter, w, k + 1, tokens', stopped')
  {
  }

  lemma {:induction false} SomeoneWide(stopAfter: map<seq<nat>, nat>, batch: seq<Work>, k: nat)
    requires Width(stopAfter, batch, k) > 0
    ensures exists i :: 0 <= i < |batch| && Turns(stopAfter, batch[i]) > k
  {
    if Turns(stopAfter, batch[|batch| - 1]) <= k {
      SomeoneWide(stopAfter, batch[..|batch| - 1], k);
      var i :| 0 <= i < |batch| - 1 && Turns(stopAfter, batch[..|batch| - 1][i]) > k;
      assert batch[i] == batch[..|batch| - 1][i];
    }
  }

  /** The counters with `pending` still to be run. */
  ghost predicate Underway(stopAfter: map<seq<nat>, nat>, prompts: seq<Work>, pending: seq<Work>, maxBatch: nat,
                           stats: ContinuousStats)
    requires maxBatch > 0
  {
    && |pending| <= |prompts|
    && stats.decodeSteps + StaticSteps(stopAfter, pending, maxBatch) == StaticSteps(stopAfter, prompts, maxBatch)
    && stats.occupiedRows + TotalTurns(stopAfter, pending) == TotalTurns(stopAfter, prompts)
    && stats.availableRows == Rows(stats.decodeSteps, maxBatch) && stats.maxObservedBatch <= maxBatch
    && stats.completions == stats.admissions == |prompts| - |pending|
  }

  lemma UnderwayNext(stopAfter: map<seq<nat>, nat>, prompts: seq<Work>, pending: seq<Work>, size: nat, maxBatch: nat,
                     before: ContinuousStats, stats: ContinuousStats)
    requires maxBatch > 0 && pending != [] && size == Min(|pending|, maxBatch)
    requires Underway(stopAfter, prompts, pending, maxBatch, before)
    requires Counted(stopAfter, pending[..size], maxBatch, before.(completions := before.completions + size), stats,
                     Longest(stopAfter, pending[..size]))
    ensures Underway(stopAfter, prompts, pending[size..], maxBatch, stats)
  {
    var batch, rest := pending[..size], pending[size..];
    StaticUnfolds(stopAfter, pending, maxBatch);
    TotalSplits(stopAfter, batch, rest);
    assert pending == batch + rest;
    FilledSteps(stopAfter, batch, Longest(stopAfter, batch));
    RowsAdd(before.decodeSteps, Longest(stopAfter, batch), maxBatch);
    hide Longest, TotalTurns, Turns, Rows, StaticSteps, Filled, Width;
  }

  lemma UnderwayStarts(stopAfter: map<seq<nat>, nat>, prompts: seq<Work>, maxBatch: nat, stats: ContinuousStats)
    requires maxBatch > 0 && stats.decodeSteps == stats.occupiedRows == stats.availableRows == 0
    requires stats.completions == stats.admissions == stats.maxObservedBatch == 0
    ensures Underway(stopAfter, prompts, prompts, maxBatch, stats)
  {
    RowsAdd(0, 0, maxBatch);
  }

  /** Everybody ahead of `pending` has its tokens. */
  ghost predicate Sent(stopAfter: map<seq<nat>, nat>, prompts: seq<Work>, pending: seq<Work>, outputs: seq<Output>) {
    && |pending| <= |prompts| && pending == prompts[|prompts| - |pending|..]
    && Delivered(stopAfter, prompts[..|prompts| - |pending|], outputs)
  }

  lemma DeliveredNone(stopAfter: map<seq<nat>, nat>, prompts: seq<Work>)
    ensures Sent(stopAfter, prompts, prompts, [])
  {
  }

  lemma DeliveredMore(stopAfter: map<seq<nat>, nat>, prompts: seq<Work>, pending: seq<Work>, size: nat,
                      outputs: seq<Output>, more: seq<Output>)
    requires Sent(stopAfter, prompts, pending, outputs) && size <= |pending|
    requires Delivered(stopAfter, pending[..size], more)
    ensures Sent(stopAfter, prompts, pending[size..], outputs + more)
  {
    var n := |prompts| - |pending|;
    assert prompts[..n + size] == prompts[..n] + pending[..size];
    hide Echoed;
  }

  lemma UnderwayFacts(stopAfter: map<seq<nat>, nat>, prompts: seq<Work>, pending: seq<Work>, maxBatch: nat,
                      stats: ContinuousStats, outputs: seq<Output>)
    requires maxBatch > 0
    requires Underway(stopAfter, prompts, pending, maxBatch, stats) && Sent(stopAfter, prompts, pending, outputs)
    ensures stats.maxObservedBatch <= maxBatch
    ensures pending == [] ==>
      && stats.decodeSteps == StaticSteps(stopAfter, prompts, maxBatch)
      && stats.occupiedRows == TotalTurns(stopAfter, prompts)
      && stats.availableRows == Rows(stats.decodeSteps, maxBatch) && stats.completions == stats.admissions == |prompts|
      && Delivered(stopAfter, prompts, outputs)
  {
    assert prompts[..|prompts|] == prompts;
  }

  /** A workload in full batches, one after the other: every sequence gets its own tokens, and the
      steps are those of the longest member of each batch. */
  method RunStatic(runner: EchoStepwiseRunner, prompts: seq<Work>, maxBatch: nat)
    returns (stats: ContinuousStats, ghost outputs: seq<Output>)
    requires maxBatch > 0 && forall i :: 0 <= i < |prompts| ==> prompts[i].budget > 0
    modifies runner
    ensures Delivered(runner.stopAfter, prompts, outputs)
    ensures stats.decodeSteps == StaticSteps(runner.stopAfter, prompts, maxBatch)
    ensures stats.occupiedRows == TotalTurns(runner.stopAfter, prompts)
    ensures stats.availableRows == Rows(stats.decodeSteps, maxBatch) && stats.maxObservedBatch <= maxBatch
    ensures stats.completions == stats.admissions == |prompts|
    ensures runner.steps == old(runner.steps) + stats.decodeSteps && runner.active <= old(runner.active)
  {
    hide Longest, TotalTurns, Turns, Rows, StaticSteps, Counted, Delivered, Underway, Sent;
    ghost var stopAfter := runner.stopAfter;
    stats, outputs := ContinuousStats(0, 0, 0, 0, 0, 0, 0, 0, 0, 0), [];
    UnderwayStarts(stopAfter, prompts, maxBatch, stats);
    DeliveredNone(stopAfter, prompts);
    var pending := prompts;
    while pending != []
      invariant Underway(stopAfter, prompts, pending, maxBatch, stats)
      invariant forall i :: 0 <= i < |pending| ==> pending[i].budget > 0
      invariant Sent(stopAfter, prompts, pending, outputs)
      invariant runner.steps == old(runner.steps) + stats.decodeSteps && runner.active <= old(runner.active)
      decreases |pending|
    {
      var size := if |pending| < maxBatch then |pending| else maxBatch;
      var batch := pending[..size];
      UnderwayFacts(stopAfter, prompts, pending, maxBatch, stats, outputs);
      ghost var before := stats;
      ghost var more;
      stats, more := RunBatch(runner, batch, maxBatch, stats);
      UnderwayNext(stopAfter, prompts, pending, size, maxBatch, before, stats);
      CountedSteps(stopAfter, batch, maxBatch, before, stats);
      DeliveredMore(stopAfter, prompts, pending, size, outputs, more);
      outputs := outputs + more;
      pending := pending[size..];
    }
    UnderwayFacts(stopAfter, prompts, pending, maxBatch, stats, outputs);
  }

  lemma CountedSteps(stopAfter: map<seq<nat>, nat>, batch: seq<Work>, maxBatch: nat, before: ContinuousStats,
                     stats: ContinuousStats)
    requires Counted(stopAfter, batch, maxBatch, before.(completions := before.completions + |batch|), stats,
                     Longest(stopAfter, batch))
    ensures stats.decodeSteps == before.decodeSteps + Longest(stopAfter, batch)
  {
  }
}
