/** A runner whose tokens are known in advance, for comparing schedules. */
module EchoRunner {
  import opened Sequences

  function RowIds(states: seq<SequenceState>): set<int> {
    if states == [] then {} else RowIds(states[..|states| - 1]) + {states[|states| - 1].sequenceId}
  }

  lemma RowIdsMore(states: seq<SequenceState>, st: SequenceState)
    ensures RowIds(states + [st]) == RowIds(states) + {st.sequenceId}
  {
    assert (states + [st])[..|states|] == states;
  }

  /** How many of the sequences still want tokens. */
  function Unfinished(states: seq<SequenceState>): nat
    reads states
  {
    if states == [] then 0
    else Unfinished(states[..|states| - 1]) + if states[|states| - 1].Finished() then 0 else 1
  }

  lemma {:induction false} SomeUnfinished(states: seq<SequenceState>)
    ensures Unfinished(states) > 0 <==> exists i :: 0 <= i < |states| && !states[i].Finished()
  {
    if states == [] {
    } else {
      var rest := states[..|states| - 1];
      SomeUnfinished(rest);
      if i :| 0 <= i < |rest| && !rest[i].Finished() {
        assert !states[i].Finished();
      }
      if i :| 0 <= i < |states| && !states[i].Finished() {
        assert i < |rest| ==> !rest[i].Finished();
      }
    }
  }

  /** A token per step until the budget, or the end marker at `stopAfter`. */
  class EchoStepwiseRunner {
    const stopAfter: map<seq<nat>, nat>
    var active: set<int>
    var steps: nat
    var prefills: nat
    var stepWidths: seq<nat>

    constructor (stopAfter: map<seq<nat>, nat>)
      ensures this.stopAfter == stopAfter && active == {} && steps == prefills == 0 && stepWidths == []
    {
      this.stopAfter := stopAfter;
      active, steps, prefills, stepWidths := {}, 0, 0, [];
    }

    /** Whether a sequence emits its end marker instead of its next token. */
    predicate Stops(prompt: seq<nat>, generated: nat) {
      prompt in stopAfter && generated >= stopAfter[prompt]
    }

    method Prefill(states: seq<SequenceState>)
      modifies this
      ensures prefills == (if states == [] then old(prefills) else old(prefills) + 1)
      ensures active == old(active) + RowIds(states)
      ensures steps == old(steps) && stepWidths == old(stepWidths)
    {
      if states == [] {
        return;
      }
      prefills := prefills + 1;
      for i := 0 to |states|
        invariant active == old(active) + RowIds(states[..i])
        invariant prefills == old(prefills) + 1 && steps == old(steps) && stepWidths == old(stepWidths)
      {
        RowIdsMore(states[..i], states[i]);
        assert states[..i + 1] == states[..i] + [states[i]];
        active := active + {states[i].sequenceId};
      }
      assert states[..|states|] == states;
    }

    method Width(states: seq<SequenceState>) returns (width: nat)
      ensures width == Unfinished(states)
    {
      width := 0;
      for i := 0 to |states|
        invariant width == Unfinished(states[..i])
      {
        assert states[..i + 1][..i] == states[..i];
        if !states[i].Finished() {
          width := width + 1;
        }
      }
      assert states[..|states|] == states;
    }

    /** One token, or the end marker, for every unfinished sequence. A step is taken, and its
        width noted, only when there is one. */
    method DecodeStep(states: seq<SequenceState>)
      requires forall i, j :: 0 <= i < j < |states| ==> states[i] != states[j]
      modifies this, set st | st in states
      ensures forall i :: 0 <= i < |states| ==>
        Stepped(states[i].prompt, old(states[i].Finished()), old(states[i].tokens), old(states[i].stoppedEarly),
                states[i].tokens, states[i].stoppedEarly)
      ensures steps == old(steps) + (if exists i :: 0 <= i < |states| && old(!states[i].Finished()) then 1 else 0)
      ensures stepWidths ==
        old(stepWidths) + (if old(Unfinished(states)) == 0 then [] else [old(Unfinished(states))])
      ensures active == old(active) && prefills == old(prefills)
    {
      SomeUnfinished(states);
      var width := Width(states);
      if width == 0 {
        return;
      }
      steps := steps + 1;
      stepWidths := stepWidths + [width];
      for i := 0 to |states|
        invariant steps == old(steps) + 1 && active == old(active) && prefills == old(prefills)
        invariant stepWidths == old(stepWidths) + [width]
        invariant forall k :: 0 <= k < i ==>
          Stepped(states[k].prompt, old(states[k].Finished()), old(states[k].tokens), old(states[k].stoppedEarly),
                  states[k].tokens, states[k].stoppedEarly)
        invariant forall k :: i <= k < |states| ==>
          states[k].tokens == old(states[k].tokens) && states[k].stoppedEarly == old(states[k].stoppedEarly)
      {
        var state := states[i];
        if !state.Finished() {
          if Stops(state.prompt, |state.tokens|) {
            state.stoppedEarly := true;
          } else {
            state.tokens := state.tokens + [|state.tokens|];
          }
        }
      }
    }

    /** What one decode step does to one sequence. */
    predicate Stepped(prompt: seq<nat>, finished: bool, tokens: seq<nat>, stopped: bool, tokens': seq<nat>,
                      stopped': bool)
    {
      if finished then tokens' == tokens && stopped' == stopped
      else if Stops(prompt, |tokens|) then tokens' == tokens && stopped'
      else tokens' == tokens + [|tokens|] && stopped' == stopped
    }

    method Evict(sequenceId: int)
      modifies this
      ensures active == old(active) - {sequenceId}
      ensures steps == old(steps) && prefills == old(prefills) && stepWidths == old(stepWidths)
    {
      active := active - {sequenceId};
    }
  }
}
