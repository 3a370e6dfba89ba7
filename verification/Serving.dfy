/** The step-wise runner under any scheduler at all: however prefills, steps and evictions
    follow each other, a finished sequence has its solo output. */
module Serving {
  import opened Common
  import opened PaddedCache
  import opened Sequences
  import opened StepwiseRunner

  /** A prompt and how many tokens it may get. */
  datatype Asked = Asked(prompt: seq<nat>, budget: nat)

  /** What a scheduler may tell its runner: to take new sequences in, to advance those of its
      sequences that it lists, to drop one. */
  datatype Order = Enter(asked: seq<Asked>) | Advance(ids: set<int>) | Leave(id: int)

  predicate Sensible(script: seq<Order>) {
    forall k, i :: 0 <= k < |script| && script[k].Enter? && 0 <= i < |script[k].asked| ==>
      script[k].asked[i].prompt != [] && script[k].asked[i].budget > 0
  }

  function AskedBy(order: Order): seq<Asked> {
    if order.Enter? then order.asked else []
  }

  /** Everything a script asks for, in order. */
  function AllAsked(script: seq<Order>): seq<Asked> {
    if script == [] then [] else AllAsked(script[..|script| - 1]) + AskedBy(script[|script| - 1])
  }

  lemma AskedMore(script: seq<Order>, k: nat)
    requires k < |script|
    ensures AllAsked(script[..k + 1]) == AllAsked(script[..k]) + AskedBy(script[k])
  {
    assert script[..k + 1][..k] == script[..k];
  }

  lemma OneSensible(script: seq<Order>, k: nat)
    requires Sensible(script) && k < |script|
    ensures Sensible([script[k]])
  {
  }

  /** One sequence for each request. */
  predicate Cover(states: seq<SequenceState>, asked: seq<Asked>) {
    && |states| == |asked|
    && forall i :: 0 <= i < |asked| ==> states[i].prompt == asked[i].prompt && states[i].maxNewTokens == asked[i].budget
  }

  lemma NothingAsked(states: seq<SequenceState>, script: seq<Order>)
    ensures Cover(states[|states|..], AllAsked(script[..0]))
  {
  }

  lemma CoverJoin(first: seq<SequenceState>, before: seq<SequenceState>, after: seq<SequenceState>, asked: seq<Asked>,
                  more: seq<Asked>)
    requires first <= before <= after && Cover(before[|first|..], asked) && Cover(after[|before|..], more)
    ensures Cover(after[|first|..], asked + more)
  {
    assert after[|first|..] == before[|first|..] + after[|before|..];
  }

  // ---------------------------------------------------------------------------
  // How far a script takes each sequence, from the script alone.
  // ---------------------------------------------------------------------------

  /** What one sequence was asked for, how many tokens were chosen for it, and whether it has a row. */
  datatype Pace = Pace(asked: Asked, sampled: nat, row: bool)

  /** It has its budget, or the last token its solo run chose is the end marker. */
  ghost predicate Done<K(!new)>(attend: Attend<K>, eos: Option<nat>, p: Pace) {
    p.asked.prompt != [] ==>
      || p.sampled >= p.asked.budget
      || (p.sampled > 0 && eos == Some(SoloRun(attend, p.asked.prompt, p.sampled)[p.sampled - 1]))
  }

  /** Some sequence that is listed wants a token. */
  ghost predicate Wanted<K(!new)>(attend: Attend<K>, eos: Option<nat>, world: seq<Pace>, ids: set<int>) {
    exists i :: 0 <= i < |world| && i in ids && !Done(attend, eos, world[i])
  }

  /** A step in which somebody wants a token: a token for whoever is listed, has a row and wants one;
      all others lose their rows. */
  ghost function OneStep<K(!new)>(attend: Attend<K>, eos: Option<nat>, p: Pace, listed: bool): Pace {
    if p.row && listed && !Done(attend, eos, p) then p.(sampled := p.sampled + 1) else p.(row := false)
  }

  ghost function Paced<K(!new)>(attend: Attend<K>, eos: Option<nat>, order: Order, world: seq<Pace>): seq<Pace> {
    match order
    case Enter(asked) => world + seq(|asked|, i requires 0 <= i < |asked| => Pace(asked[i], 1, true))
    case Advance(ids) =>
      if !Wanted(attend, eos, world, ids) then world
      else seq(|world|, i requires 0 <= i < |world| => OneStep(attend, eos, world[i], i in ids))
    case Leave(id) => seq(|world|, i requires 0 <= i < |world| => if i == id then world[i].(row := false) else world[i])
  }

  ghost function PacedBy<K(!new)>(attend: Attend<K>, eos: Option<nat>, script: seq<Order>, world: seq<Pace>): seq<Pace>
  {
    if script == [] then world
    else Paced(attend, eos, script[|script| - 1], PacedBy(attend, eos, script[..|script| - 1], world))
  }

  lemma PacedMore<K(!new)>(attend: Attend<K>, eos: Option<nat>, script: seq<Order>, world: seq<Pace>, k: nat)
    requires k < |script|
    ensures PacedBy(attend, eos, script[..k + 1], world) ==
      Paced(attend, eos, script[k], PacedBy(attend, eos, script[..k], world))
  {
    assert script[..k + 1][..k] == script[..k];
  }

  /** The steps among the orders. */
  function Steps(script: seq<Order>): nat {
    if script == [] then 0
    else Steps(script[..|script| - 1]) + if script[|script| - 1].Advance? then 1 else 0
  }

  /** The `i`-th sequence is listed in every step and never told to leave. */
  predicate Favours(script: seq<Order>, i: nat) {
    forall k :: 0 <= k < |script| ==>
      && (script[k].Advance? ==> i in script[k].ids) && (script[k].Leave? ==> script[k].id != i)
  }

  /** A sequence with a row that is listed in every step gets a token in each until it is finished. */
  lemma {:induction false} Favoured<K(!new)>(attend: Attend<K>, eos: Option<nat>, script: seq<Order>,
                                             world: seq<Pace>, i: nat)
    requires i < |world| && world[i].row && Favours(script, i)
    ensures var after := PacedBy(attend, eos, script, world);
      && i < |after| && after[i].asked == world[i].asked
      && (Done(attend, eos, after[i]) || (after[i].row && after[i].sampled == world[i].sampled + Steps(script)))
  {
    if script == [] {
    } else {
      var n := |script| - 1;
      Favoured(attend, eos, script[..n], world, i);
      var before := PacedBy(attend, eos, script[..n], world);
      assert script[n].Advance? ==> i in script[n].ids;
      if script[n].Advance? && !Done(attend, eos, before[i]) {
        assert Wanted(attend, eos, before, script[n].ids);
      }
      hide Done;
    }
  }

  /** So after as many steps as its budget leaves it is finished, whoever came and went beside it. */
  lemma FavouredFinishes<K(!new)>(attend: Attend<K>, eos: Option<nat>, script: seq<Order>, world: seq<Pace>, i: nat)
    requires i < |world| && world[i].row && Favours(script, i)
    requires world[i].sampled + Steps(script) >= world[i].asked.budget
    ensures var after := PacedBy(attend, eos, script, world);
      i < |after| && Done(attend, eos, after[i])
  {
    Favoured(attend, eos, script, world, i);
  }

  /** A budget of three and no end marker: one token on entry, and two steps. */
  lemma ThreeTokens<K(!new)>(attend: Attend<K>)
    ensures var script := [Enter([Asked([7], 3)]), Advance({0}), Advance({0})];
      var after := PacedBy(attend, None, script, []);
      && |after| == 1 && after[0].sampled == 3 && Done(attend, None, after[0])
      && !Done(attend, None, PacedBy(attend, None, script[..2], [])[0])
  {
    var script := [Enter([Asked([7], 3)]), Advance({0}), Advance({0})];
    var one, two, three := Pace(Asked([7], 3), 1, true), Pace(Asked([7], 3), 2, true), Pace(Asked([7], 3), 3, true);
    assert script[..3] == script && script[..0] == [];
    PacedMore(attend, None, script, [], 0);
    PacedMore(attend, None, script, [], 1);
    PacedMore(attend, None, script, [], 2);
    assert Paced(attend, None, script[0], []) == [one];
    assert !Done(attend, None, [one][0]) && !Done(attend, None, [two][0]);
    assert Wanted(attend, None, [one], {0}) && Wanted(attend, None, [two], {0});
    assert Paced(attend, None, script[1], [one]) == [two];
    assert Paced(attend, None, script[2], [two]) == [three];
  }

  /** The sequences as their states show them. */
  ghost function WorldOf(states: seq<SequenceState>, rows: seq<int>): (r: seq<Pace>)
    reads states
    ensures |r| == |states|
    ensures forall i :: 0 <= i < |states| ==>
      r[i] == Pace(Asked(states[i].prompt, states[i].maxNewTokens), |states[i].sampled|, i in rows)
  {
    if states == [] then []
    else
      var n := |states| - 1;
      WorldOf(states[..n], rows)
      + [Pace(Asked(states[n].prompt, states[n].maxNewTokens), |states[n].sampled|, n in rows)]
  }

  lemma WorldEntered<K(!new)>(attend: Attend<K>, eos: Option<nat>, states: seq<SequenceState>,
                              newcomers: seq<SequenceState>, rows: seq<int>, asked: seq<Asked>)
    requires Cover(newcomers, asked) && forall x :: x in rows ==> x < |states|
    requires forall i :: 0 <= i < |newcomers| ==>
      newcomers[i].sequenceId == |states| + i && |newcomers[i].sampled| == 1
    ensures WorldOf(states + newcomers, rows + Ids(newcomers)) ==
      Paced(attend, eos, Enter(asked), WorldOf(states, rows))
  {
    var ids, all := Ids(newcomers), states + newcomers;
    var paced := Paced(attend, eos, Enter(asked), WorldOf(states, rows));
    forall j | 0 <= j < |all| ensures WorldOf(all, rows + ids)[j] == paced[j] {
      if j < |states| {
        EarlierId(newcomers, |states|, j);
      } else {
        assert ids[j - |states|] == j;
      }
    }
  }

  lemma EarlierId(newcomers: seq<SequenceState>, next: nat, j: nat)
    requires j < next && forall i :: 0 <= i < |newcomers| ==> newcomers[i].sequenceId == next + i
    ensures j !in Ids(newcomers)
  {
  }

  lemma StepWorld<K(!new)>(attend: Attend<K>, eos: Option<nat>, ids: set<int>, before: seq<Pace>, after: seq<Pace>)
    requires |after| == |before| && forall i :: 0 <= i < |before| ==> after[i].asked == before[i].asked
    requires forall i :: 0 <= i < |before| ==>
      after[i].sampled ==
        before[i].sampled + if i in ids && before[i].row && !Done(attend, eos, before[i]) then 1 else 0
    requires forall i :: 0 <= i < |before| ==>
      (after[i].row <==> before[i].row && (!Wanted(attend, eos, before, ids)
                                           || (i in ids && !Done(attend, eos, before[i]))))
    ensures after == Paced(attend, eos, Advance(ids), before)
  {
    hide Done;
    var wanted, expected := Wanted(attend, eos, before, ids), Paced(attend, eos, Advance(ids), before);
    forall i | 0 <= i < |before| ensures after[i] == expected[i] {
      assert i in ids && !Done(attend, eos, before[i]) ==> wanted;
      hide Paced, Wanted;
      StepPace(attend, eos, before[i], after[i], i in ids, wanted);
      assert expected[i] == if wanted then OneStep(attend, eos, before[i], i in ids) else before[i] by {
        PacedAt(attend, eos, ids, before, i);
      }
    }
  }

  lemma PacedAt<K(!new)>(attend: Attend<K>, eos: Option<nat>, ids: set<int>, world: seq<Pace>, i: nat)
    requires i < |world|
    ensures |Paced(attend, eos, Advance(ids), world)| == |world|
    ensures Paced(attend, eos, Advance(ids), world)[i] ==
      if Wanted(attend, eos, world, ids) then OneStep(attend, eos, world[i], i in ids) else world[i]
  {
    hide Wanted, OneStep;
  }

  lemma StepPace<K(!new)>(attend: Attend<K>, eos: Option<nat>, before: Pace, after: Pace, listed: bool, wanted: bool)
    requires after.asked == before.asked && (listed && !Done(attend, eos, before) ==> wanted)
    requires after.sampled == before.sampled + if listed && before.row && !Done(attend, eos, before) then 1 else 0
    requires after.row <==> before.row && (!wanted || (listed && !Done(attend, eos, before)))
    ensures after == if wanted then OneStep(attend, eos, before, listed) else before
  {
    hide Done;
  }

  /** A faithful sequence is finished exactly when its pace says so. */
  lemma FinishedWhenDone<K(!new)>(attend: Attend<K>, eos: Option<nat>, st: SequenceState, row: bool)
    requires Faithful(st, attend, eos)
    ensures st.Finished() <==> Done(attend, eos, Pace(Asked(st.prompt, st.maxNewTokens), |st.sampled|, row))
  {
    if !st.stoppedEarly && st.sampled != [] {
      assert st.sampled[|st.sampled| - 1] in st.tokens;
    }
  }

  class Session<K(0,!new)> {
    const runner: TransformersStepwiseRunner<K>
    /** Everybody who ever came in, under ids in order; those who left included. */
    var states: seq<SequenceState>

    constructor (runner: TransformersStepwiseRunner<K>)
      requires runner.Valid() && runner.owner == map[]
      ensures Valid() && this.runner == runner && states == []
    {
      this.runner := runner;
      states := [];
    }

    ghost predicate Valid()
      reads this, runner, runner.owner.Values, states
    {
      && runner.Valid()
      && (forall i :: 0 <= i < |states| ==>
            states[i].sequenceId == i && Faithful(states[i], runner.attend, runner.eos))
      && forall x :: x in runner.owner ==> 0 <= x < |states| && runner.owner[x] == states[x]
    }

    ghost function World(): seq<Pace>
      reads this, runner`rows, states
    {
      WorldOf(states, runner.rows)
    }

    /** New sequences come in. */
    method Enter(asked: seq<Asked>)
      requires Valid() && forall i :: 0 <= i < |asked| ==> asked[i].prompt != [] && asked[i].budget > 0
      modifies this, runner
      ensures Valid() && |states| == |old(states)| + |asked| && old(states) <= states
      ensures forall i :: |old(states)| <= i < |states| ==> fresh(states[i])
      ensures Cover(states[|old(states)|..], asked)
      ensures World() == Paced(runner.attend, runner.eos, Order.Enter(asked), old(World()))
    {
      hide TransformersStepwiseRunner.Valid, Faithful, Distinct, Paced, WorldOf, Ids, Cover;
      var newcomers := Newcomers(asked);
      RowsHaveOwners();
      NewRows(runner.rows, newcomers, |states|);
      ghost var states0, rows0 := states, runner.rows;
      runner.Prefill(newcomers);
      states := states + newcomers;
      assert states[|states0|..] == newcomers;
      RowsOf(runner);
      forall x | x in runner.owner ensures 0 <= x < |states| && runner.owner[x] == states[x] {
        if x !in rows0 {
          IdAmong(newcomers, x);
        }
      }
      WorldEntered(runner.attend, runner.eos, states0, newcomers, rows0, asked);
    }

    /** A fresh sequence for each request, under the next ids. */
    method Newcomers(asked: seq<Asked>) returns (newcomers: seq<SequenceState>)
      requires forall i :: 0 <= i < |asked| ==> asked[i].prompt != [] && asked[i].budget > 0
      ensures |newcomers| == |asked| && Cover(newcomers, asked)
      ensures forall i :: 0 <= i < |asked| ==>
        && fresh(newcomers[i]) && newcomers[i].sequenceId == |states| + i
        && newcomers[i].sampled == [] && newcomers[i].tokens == [] && !newcomers[i].stoppedEarly
    {
      newcomers := [];
      for k := 0 to |asked|
        invariant |newcomers| == k
        invariant forall i :: 0 <= i < k ==>
          && fresh(newcomers[i]) && newcomers[i].sequenceId == |states| + i
          && newcomers[i].prompt == asked[i].prompt && newcomers[i].maxNewTokens == asked[i].budget
          && newcomers[i].sampled == [] && newcomers[i].tokens == [] && !newcomers[i].stoppedEarly
      {
        var st := new SequenceState(|states| + k, asked[k].prompt, asked[k].budget);
        newcomers := newcomers + [st];
      }
    }

    lemma RowsHaveOwners()
      requires Valid()
      ensures Distinct(runner.rows) && forall x :: x in runner.rows ==> 0 <= x < |states|
    {
      RowsOf(runner);
    }

    lemma HavePrompts()
      requires Valid()
      ensures forall i :: 0 <= i < |states| ==> states[i].prompt != []
    {
      hide TransformersStepwiseRunner.Valid, Transcript;
    }

    /** The sequences with these ids, in order. */
    method Listed(ids: set<int>) returns (chosen: seq<SequenceState>)
      requires Valid()
      ensures forall k :: 0 <= k < |chosen| ==>
        && 0 <= chosen[k].sequenceId < |states| && chosen[k].sequenceId in ids
        && chosen[k] == states[chosen[k].sequenceId]
      ensures forall k, l :: 0 <= k < l < |chosen| ==> chosen[k].sequenceId < chosen[l].sequenceId
      ensures forall i :: 0 <= i < |states| && i in ids ==> states[i] in chosen
    {
      hide TransformersStepwiseRunner.Valid, Faithful;
      chosen := [];
      for i := 0 to |states|
        invariant forall k :: 0 <= k < |chosen| ==>
          0 <= chosen[k].sequenceId < i && chosen[k].sequenceId in ids && chosen[k] == states[chosen[k].sequenceId]
        invariant forall k, l :: 0 <= k < l < |chosen| ==> chosen[k].sequenceId < chosen[l].sequenceId
        invariant forall j :: 0 <= j < i && j in ids ==> states[j] in chosen
      {
        if i in ids {
          chosen := chosen + [states[i]];
        }
      }
    }

    /** Some of the sequences that ever came in are advanced: those that are unfinished and have
        their row, whoever else is named. */
    method Advance(ids: set<int>)
      requires Valid()
      modifies runner, states
      ensures Valid()
      ensures forall i :: 0 <= i < |states| ==>
        && states[i].prompt != []
        && if i !in ids || old(states[i].Finished()) || i !in old(runner.rows) then unchanged(states[i])
           else states[i].sampled ==
                old(states[i].sampled) + [SoloNext(runner.attend, states[i].prompt + old(states[i].sampled))]
      ensures World() == Paced(runner.attend, runner.eos, Order.Advance(ids), old(World()))
    {
      hide TransformersStepwiseRunner.Valid, Faithful, Distinct, SoloNext, Paced, Done, Wanted, WorldOf, ActiveOf, Ids;
      var chosen := Listed(ids);
      RowsHaveOwners();
      RowsOf(runner);
      InOrder(chosen);
      HavePrompts();
      ghost var world0 := World();
      ghost var active := ActiveOf(chosen);
      WhoWants(chosen, ids);
      label before:
      runner.DecodeStep(chosen);
      forall i | 0 <= i < |states|
        ensures Faithful(states[i], runner.attend, runner.eos)
        ensures if i !in ids || old(states[i].Finished()) || i !in old(runner.rows) then unchanged(states[i])
                else states[i].sampled ==
                     old(states[i].sampled) + [SoloNext(runner.attend, states[i].prompt + old(states[i].sampled))]
      {
        if i in ids {
          var k :| 0 <= k < |chosen| && chosen[k] == states[i];
        } else {
          assert states[i] !in chosen;
          assert old@before(Faithful(states[i], runner.attend, runner.eos));
        }
      }
      forall i | 0 <= i < |states|
        ensures i in runner.rows <==>
          i in old(runner.rows) && (active == [] || (i in ids && !Done(runner.attend, runner.eos, world0[i])))
      {
      }
      StepWorld(runner.attend, runner.eos, ids, world0, World());
    }

    /** A sequence is finished when its pace says so. */
    lemma WhoIsDone()
      requires Valid()
      ensures |World()| == |states|
      ensures forall i :: 0 <= i < |states| ==> (states[i].Finished() <==> Done(runner.attend, runner.eos, World()[i]))
    {
      hide TransformersStepwiseRunner.Valid, Faithful, Done;
      forall i | 0 <= i < |states| ensures states[i].Finished() <==> Done(runner.attend, runner.eos, World()[i]) {
        FinishedWhenDone(runner.attend, runner.eos, states[i], i in runner.rows);
      }
    }

    lemma IdsMatch()
      requires Valid()
      ensures forall i :: 0 <= i < |states| ==> states[i].sequenceId == i
    {
    }

    /** Who of those chosen is active, in terms of their paces. */
    lemma WhoWants(chosen: seq<SequenceState>, ids: set<int>)
      requires Valid()
      requires forall k :: 0 <= k < |chosen| ==>
        && 0 <= chosen[k].sequenceId < |states| && chosen[k].sequenceId in ids
        && chosen[k] == states[chosen[k].sequenceId]
      requires forall i :: 0 <= i < |states| && i in ids ==> states[i] in chosen
      ensures |World()| == |states|
      ensures forall i :: 0 <= i < |states| ==> (states[i].Finished() <==> Done(runner.attend, runner.eos, World()[i]))
      ensures forall i :: 0 <= i < |states| ==>
        ((i in ids && !Done(runner.attend, runner.eos, World()[i]))
         <==> exists st :: st in ActiveOf(chosen) && st.sequenceId == i)
      ensures ActiveOf(chosen) != [] <==> Wanted(runner.attend, runner.eos, World(), ids)
    {
      hide TransformersStepwiseRunner.Valid, Faithful, Done, Session.World, Session.Valid;
      WhoIsDone();
      IdsMatch();
      var active := ActiveOf(chosen);
      forall i | 0 <= i < |states| && i in ids && !states[i].Finished() ensures states[i] in active {
        var k :| 0 <= k < |chosen| && chosen[k] == states[i];
      }
      if active != [] {
        assert active[0] in active;
      }
    }

    /** A sequence gives up its row. */
    method Leave(id: int)
      requires Valid()
      modifies runner
      ensures Valid() && forall x :: x in runner.rows <==> x in old(runner.rows) && x != id
      ensures World() == Paced(runner.attend, runner.eos, Order.Leave(id), old(World()))
    {
      hide TransformersStepwiseRunner.Valid, Faithful;
      runner.Evict(id);
    }

    /** One order. */
    method Obey(order: Order)
      requires Valid() && Sensible([order])
      modifies this, runner, states
      ensures Valid() && old(states) <= states && Cover(states[|old(states)|..], AskedBy(order))
      ensures forall i :: |old(states)| <= i < |states| ==> fresh(states[i])
      ensures World() == Paced(runner.attend, runner.eos, order, old(World()))
    {
      hide Valid, World, Paced;
      match order {
        case Enter(asked) =>
          assert [order][0].asked == asked;
          Enter(asked);
        case Advance(ids) => Advance(ids);
        case Leave(id) => Leave(id);
      }
    }

    /** Whatever a scheduler orders, there is a sequence for everything it asked for; how far each has
        got, and who has a row, follow from the script; what was chosen for each is its solo run so
        far; and whoever has finished has exactly its solo output. */
    method Serve(script: seq<Order>)
      requires Valid() && Sensible(script)
      modifies this, runner, states
      ensures Valid() && old(states) <= states && Cover(states[|old(states)|..], AllAsked(script))
      ensures World() == PacedBy(runner.attend, runner.eos, script, old(World()))
      ensures forall i :: 0 <= i < |states| ==>
        && states[i].prompt != [] && (states[i].Finished() <==> Done(runner.attend, runner.eos, World()[i]))
        && states[i].sampled == SoloRun(runner.attend, states[i].prompt, World()[i].sampled)
      ensures forall i :: 0 <= i < |states| && states[i].Finished() ==>
        states[i].tokens == SoloOutput(runner.attend, runner.eos.GetOr(0), runner.eos.Some?, states[i].prompt,
                                       states[i].maxNewTokens, 0)
    {
      hide Valid, Cover, AllAsked, Sensible, World, Paced, PacedBy, Done, SoloRun;
      ghost var states0, world0 := states, World();
      assert script[..0] == [];
      NoPace(world0);
      NothingAsked(states0, script);
      for k := 0 to |script|
        invariant Valid() && states0 <= states && Cover(states[|states0|..], AllAsked(script[..k]))
        invariant forall i :: |states0| <= i < |states| ==> fresh(states[i])
        invariant World() == PacedBy(runner.attend, runner.eos, script[..k], world0)
      {
        ghost var before := states;
        OneSensible(script, k);
        PacedMore(runner.attend, runner.eos, script, world0, k);
        Obey(script[k]);
        AskedMore(script, k);
        CoverJoin(states0, before, states, AllAsked(script[..k]), AskedBy(script[k]));
      }
      assert script[..|script|] == script;
      AllSolo();
    }

    lemma NoPace(world: seq<Pace>)
      ensures PacedBy(runner.attend, runner.eos, [], world) == world
    {
    }

    lemma AllSolo()
      requires Valid()
      ensures |World()| == |states|
      ensures forall i :: 0 <= i < |states| ==>
        && states[i].prompt != [] && (states[i].Finished() <==> Done(runner.attend, runner.eos, World()[i]))
        && states[i].sampled == SoloRun(runner.attend, states[i].prompt, World()[i].sampled)
      ensures forall i :: 0 <= i < |states| && states[i].Finished() ==>
        states[i].tokens == SoloOutput(runner.attend, runner.eos.GetOr(0), runner.eos.Some?, states[i].prompt,
                                       states[i].maxNewTokens, 0)
    {
      hide TransformersStepwiseRunner.Valid, SoloOutput, SoloRun, Done;
      forall i | 0 <= i < |states|
        ensures states[i].prompt != [] && (states[i].Finished() <==> Done(runner.attend, runner.eos, World()[i]))
        ensures states[i].sampled == SoloRun(runner.attend, states[i].prompt, World()[i].sampled)
      {
        FinishedWhenDone(runner.attend, runner.eos, states[i], i in runner.rows);
      }
      forall i | 0 <= i < |states| && states[i].Finished()
        ensures states[i].tokens == SoloOutput(runner.attend, runner.eos.GetOr(0), runner.eos.Some?, states[i].prompt,
                                               states[i].maxNewTokens, 0)
      {
        BatchMatesAreImmaterial(runner.attend, runner.eos, states[i], states[i]);
      }
    }
  }

  lemma RowsOf<K(0,!new)>(runner: TransformersStepwiseRunner<K>)
    requires runner.Valid()
    ensures Distinct(runner.rows) && forall x :: x in runner.owner <==> x in runner.rows
  {
    BatchShape(runner.attend, runner.rows, runner.cache, runner.mask, runner.last, runner.Histories());
  }

  lemma NewRows(rows: seq<int>, newcomers: seq<SequenceState>, next: nat)
    requires Distinct(rows) && forall x :: x in rows ==> x < next
    requires forall i :: 0 <= i < |newcomers| ==> newcomers[i].sequenceId == next + i
    ensures Distinct(rows + Ids(newcomers))
  {
    assert forall i :: 0 <= i < |rows| ==> rows[i] in rows;
  }

  lemma IdAmong(states: seq<SequenceState>, x: int)
    requires x in Ids(states)
    ensures exists i :: 0 <= i < |states| && states[i].sequenceId == x
  {
  }

  lemma InOrder(states: seq<SequenceState>)
    requires forall k, l :: 0 <= k < l < |states| ==> states[k].sequenceId < states[l].sequenceId
    ensures Distinct(Ids(states))
  {
  }
}
