/** The running set: requests with their sequence states, seen as jobs. */
module SchedulerEntries {
  import opened Common
  import opened SchedulerBooks
  import opened SchedulerPaging
  import opened Sequences

  datatype Entry = Entry(request: Request, state: SequenceState)

  ghost function JobsOf(running: seq<Entry>): (r: seq<Job>)
    reads set i | 0 <= i < |running| :: running[i].state
    ensures |r| == |running|
    ensures forall i :: 0 <= i < |running| ==>
      r[i] == Job(running[i].state.sequenceId, running[i].request, |running[i].state.tokens|)
  {
    if running == [] then []
    else
      var n := |running| - 1;
      JobsOf(running[..n]) + [Job(running[n].state.sequenceId, running[n].request, |running[n].state.tokens|)]
  }

  lemma JobsOfMore(running: seq<Entry>, e: Entry)
    ensures JobsOf(running + [e]) == JobsOf(running) + [Job(e.state.sequenceId, e.request, |e.state.tokens|)]
  {
    assert (running + [e])[..|running|] == running;
  }

  function StatesOf(running: seq<Entry>): (r: seq<SequenceState>)
    ensures |r| == |running|
    ensures forall i :: 0 <= i < |running| ==> r[i] == running[i].state
  {
    seq(|running|, i requires 0 <= i < |running| => running[i].state)
  }

  ghost function StatesIn(running: seq<Entry>): set<SequenceState> {
    set i | 0 <= i < |running| :: running[i].state
  }

  lemma SubStates(before: seq<Entry>, after: seq<Entry>)
    requires forall i :: 0 <= i < |after| ==> after[i] in before
    ensures StatesIn(after) <= StatesIn(before)
  {
    forall o | o in StatesIn(after) ensures o in StatesIn(before) {
      var k :| 0 <= k < |after| && after[k].state == o;
      assert after[k] in before;
    }
  }

  ghost function Stopped(running: seq<Entry>): set<int>
    reads set i | 0 <= i < |running| :: running[i].state
  {
    set i | 0 <= i < |running| && running[i].state.stoppedEarly :: running[i].state.sequenceId
  }

  ghost function FinishedIds(running: seq<Entry>): set<int>
    reads set i | 0 <= i < |running| :: running[i].state
  {
    set i | 0 <= i < |running| && running[i].state.Finished() :: running[i].state.sequenceId
  }

  /** Entries carry their own request, under ids already handed out, in that order. */
  ghost predicate Fit(running: seq<Entry>, nextId: nat) {
    && (forall i :: 0 <= i < |running| ==>
          && running[i].state.sequenceId < nextId && running[i].request.maxNewTokens > 0
          && running[i].state.prompt == running[i].request.prompt
          && running[i].state.maxNewTokens == running[i].request.maxNewTokens)
    && (forall i, j :: 0 <= i < j < |running| ==> running[i].state.sequenceId < running[j].state.sequenceId)
  }

  ghost predicate Unspent(running: seq<Entry>)
    reads set i | 0 <= i < |running| :: running[i].state
  {
    forall i :: 0 <= i < |running| ==> !running[i].state.Finished()
  }

  /** What a finished sequence has to show: its whole budget, or its end marker. */
  ghost predicate Shown(running: seq<Entry>)
    reads set i | 0 <= i < |running| :: running[i].state
  {
    forall i :: 0 <= i < |running| && running[i].state.Finished() ==>
      || |running[i].state.tokens| == running[i].state.maxNewTokens
      || (running[i].state.stoppedEarly && |running[i].state.tokens| <= running[i].state.maxNewTokens)
  }

  lemma StoppedAt(running: seq<Entry>, i: nat, nextId: nat)
    requires Fit(running, nextId) && i < |running|
    ensures running[i].state.sequenceId in Stopped(running) <==> running[i].state.stoppedEarly
    ensures running[i].state.sequenceId in FinishedIds(running) <==> running[i].state.Finished()
  {
  }

  lemma AllMarked(running: seq<Entry>, nextId: nat)
    requires Fit(running, nextId)
    ensures forall i :: 0 <= i < |running| ==>
      && (JobsOf(running)[i].id in Stopped(running) <==> running[i].state.stoppedEarly)
      && (JobsOf(running)[i].id in FinishedIds(running) <==> running[i].state.Finished())
  {
    forall i | 0 <= i < |running|
      ensures JobsOf(running)[i].id in Stopped(running) <==> running[i].state.stoppedEarly
      ensures JobsOf(running)[i].id in FinishedIds(running) <==> running[i].state.Finished()
    {
      StoppedAt(running, i, nextId);
    }
  }

  /** Whoever is left once the finished have gone is unfinished. */
  lemma UnspentKept(running: seq<Entry>, nextId: nat, survivors: seq<Entry>)
    requires Fit(running, nextId) && JobsOf(survivors) == Kept(JobsOf(running), FinishedIds(running))
    requires forall k :: 0 <= k < |survivors| ==> survivors[k] in running
    ensures Unspent(survivors)
  {
    KeptMembers(JobsOf(running), FinishedIds(running));
    AllMarked(running, nextId);
    hide Kept, Leaving, FinishedIds, Fit;
    forall k | 0 <= k < |survivors| ensures !survivors[k].state.Finished() {
      var j := JobsOf(survivors)[k];
      assert j in JobsOf(survivors);
      var i :| 0 <= i < |running| && running[i] == survivors[k];
      assert JobsOf(running)[i].id == j.id;
    }
  }

  lemma UnspentFacts(running: seq<Entry>, nextId: nat)
    requires Unspent(running) && Fit(running, nextId)
    ensures forall i :: 0 <= i < |running| ==> JobsOf(running)[i].generated < JobsOf(running)[i].request.maxNewTokens
    ensures Stopped(running) == {}
  {
  }

  lemma ShownHonoured(running: seq<Entry>, nextId: nat)
    requires Fit(running, nextId) && Shown(running)
    ensures forall j :: j in JobsOf(running) && j.id in FinishedIds(running) ==>
      j.generated == j.request.maxNewTokens || (j.id in Stopped(running) && j.generated <= j.request.maxNewTokens)
    ensures Stopped(running) <= FinishedIds(running)
  {
    forall j | j in JobsOf(running) && j.id in FinishedIds(running)
      ensures
        || j.generated == j.request.maxNewTokens
        || (j.id in Stopped(running) && j.generated <= j.request.maxNewTokens)
    {
      var i :| 0 <= i < |running| && JobsOf(running)[i] == j;
      StoppedAt(running, i, nextId);
    }
  }

  /** A token for each of `jobs`, or its end marker, seen from the entries after the step. */
  lemma DecodedBy(running: seq<Entry>, nextId: nat, jobs: seq<Job>)
    requires Fit(running, nextId) && |jobs| == |running|
    requires forall i :: 0 <= i < |running| ==>
      && jobs[i].id == running[i].state.sequenceId && jobs[i].request == running[i].request
      && jobs[i].generated < running[i].state.maxNewTokens
      && |running[i].state.tokens| == jobs[i].generated + if running[i].state.stoppedEarly then 0 else 1
    ensures Decoded(jobs, JobsOf(running), Stopped(running))
    ensures Stopped(running) <= FinishedIds(running) && Shown(running)
  {
    AllMarked(running, nextId);
    hide Stopped, Fit;
    forall id | id in Stopped(running) ensures id in FinishedIds(running) {
      StoppedIs(running, id);
    }
  }

  lemma StoppedIs(running: seq<Entry>, id: int)
    requires id in Stopped(running)
    ensures exists i :: 0 <= i < |running| && running[i].state.stoppedEarly && running[i].state.sequenceId == id
  {
  }

  lemma FitMore(running: seq<Entry>, nextId: nat, e: Entry)
    requires Fit(running, nextId) && e.request.maxNewTokens > 0 && e.state.sequenceId < nextId
    requires e.state.prompt == e.request.prompt && e.state.maxNewTokens == e.request.maxNewTokens
    requires forall i :: 0 <= i < |running| ==> running[i].state.sequenceId < e.state.sequenceId
    ensures Fit(running + [e], nextId)
  {
  }

  lemma FitJobs(running: seq<Entry>, nextId: nat)
    requires Fit(running, nextId)
    ensures Distinct(JobIds(JobsOf(running))) && Ascending(JobIds(JobsOf(running)))
  {
  }

  lemma FitKept(running: seq<Entry>, nextId: nat, survivors: seq<Entry>, gone: set<int>)
    requires Fit(running, nextId) && JobsOf(survivors) == Kept(JobsOf(running), gone)
    requires forall k :: 0 <= k < |survivors| ==> survivors[k] in running
    ensures Fit(survivors, nextId)
  {
    FitJobs(running, nextId);
    KeptAscending(JobsOf(running), gone);
    var jobs := JobsOf(survivors);
    forall i, j | 0 <= i < j < |survivors| ensures survivors[i].state.sequenceId < survivors[j].state.sequenceId {
      assert JobIds(jobs)[i] == jobs[i].id && JobIds(jobs)[j] == jobs[j].id;
    }
  }

  /** Whether one entry is among the survivors is a matter of its id. */
  lemma StaysBy(running: seq<Entry>, nextId: nat, survivors: seq<Entry>, gone: set<int>, i: nat)
    requires Fit(running, nextId) && i < |running| && JobsOf(survivors) == Kept(JobsOf(running), gone)
    requires forall k :: 0 <= k < |survivors| ==> survivors[k] in running
    ensures running[i] in survivors <==> running[i].state.sequenceId !in gone
  {
    var jobs, kept := JobsOf(running), JobsOf(survivors);
    KeptOrLeaving(jobs, gone);
    hide Kept, Leaving;
    assert jobs[i] in jobs;
    if jobs[i] in kept {
      var k :| 0 <= k < |kept| && kept[k] == jobs[i];
      var l :| 0 <= l < |running| && running[l] == survivors[k];
      assert l == i;
    }
    if running[i] in survivors {
      var k :| 0 <= k < |survivors| && survivors[k] == running[i];
      assert kept[k] in kept;
    }
  }
}
