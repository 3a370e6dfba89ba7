/** What the continuous scheduler's state must add up to, as values: which cache
    blocks the running set accounts for, and where every dequeued request is.
 */
module SchedulerBooks {
  import opened BlockTables
  import opened Common

  datatype Request = Request(requestId: nat, prompt: seq<nat>, maxNewTokens: nat)

  /** A running sequence: its request and the tokens it has generated. */
  datatype Job = Job(id: int, request: Request, generated: nat)

  datatype Kind = Completed | Preempted | Expired | Rejected

  /** How one request left the scheduler. `stopped` marks a decode step spent on an end marker. */
  datatype Settlement = Settlement(request: Request, kind: Kind, tokens: nat, stopped: bool)

  type Estimate = seq<nat> -> nat

  function JobIds(jobs: seq<Job>): (r: seq<int>)
    ensures |r| == |jobs|
    ensures forall i :: 0 <= i < |jobs| ==> r[i] == jobs[i].id
  {
    seq(|jobs|, i requires 0 <= i < |jobs| => jobs[i].id)
  }

  // ---------------------------------------------------------------------------
  // The cache agrees with the running set.
  // ---------------------------------------------------------------------------

  /** Every running sequence outside `gone` holds its admission estimate plus one token
      per decode step taken, plus `extra[i]` already reserved; nobody else holds a block. */
  ghost predicate Paged(jobs: seq<Job>, estimate: Estimate, view: Tables, extra: seq<nat>, gone: set<int>) {
    && |extra| == |jobs|
    && (forall i :: 0 <= i < |jobs| ==> jobs[i].id in view)
    && (forall i :: 0 <= i < |jobs| && jobs[i].id !in gone ==>
          view[jobs[i].id].tokens == estimate(jobs[i].request.prompt) + jobs[i].generated + extra[i])
    && (forall s :: s in view && view[s] != EMPTY ==> s in JobIds(jobs))
  }

  function Same(n: nat, extra: nat): (r: seq<nat>)
    ensures |r| == n && forall i :: 0 <= i < n ==> r[i] == extra
  {
    seq(n, i => extra)
  }

  /** The jobs that stay. */
  function Kept(jobs: seq<Job>, gone: set<int>): seq<Job> {
    if jobs == [] then []
    else
      var n := |jobs| - 1;
      Kept(jobs[..n], gone) + (if jobs[n].id in gone then [] else [jobs[n]])
  }

  /** The jobs that leave. */
  function Leaving(jobs: seq<Job>, gone: set<int>): seq<Job> {
    if jobs == [] then []
    else
      var n := |jobs| - 1;
      Leaving(jobs[..n], gone) + (if jobs[n].id in gone then [jobs[n]] else [])
  }

  lemma KeptMembers(jobs: seq<Job>, gone: set<int>)
    ensures forall j :: j in Kept(jobs, gone) <==> j in jobs && j.id !in gone
    ensures forall j :: j in Leaving(jobs, gone) <==> j in jobs && j.id in gone
    ensures |Kept(jobs, gone)| + |Leaving(jobs, gone)| == |jobs|
    ensures Distinct(JobIds(jobs)) ==> Distinct(JobIds(Kept(jobs, gone)))
  {
    KeptOrLeaving(jobs, gone);
    if Distinct(JobIds(jobs)) {
      KeptDistinct(jobs, gone);
    }
    hide Distinct;
  }

  lemma KeptOrLeaving(jobs: seq<Job>, gone: set<int>)
    ensures forall j :: j in Kept(jobs, gone) <==> j in jobs && j.id !in gone
    ensures forall j :: j in Leaving(jobs, gone) <==> j in jobs && j.id in gone
    ensures |Kept(jobs, gone)| + |Leaving(jobs, gone)| == |jobs|
  {
    hide Kept, Leaving;
    forall j
      ensures j in Kept(jobs, gone) <==> j in jobs && j.id !in gone
      ensures j in Leaving(jobs, gone) <==> j in jobs && j.id in gone
    {
      Whither(jobs, gone, j);
    }
    var nobody := Job(0, Request(0, [], 0), 0);
    Whither(jobs, gone, nobody);
  }

  lemma KeptSize(jobs: seq<Job>, gone: set<int>)
    ensures |Kept(jobs, gone)| + |Leaving(jobs, gone)| == |jobs|
  {
    KeptOrLeaving(jobs, gone);
  }

  /** Where one job ends up, and that nobody gets lost. */
  lemma {:induction false} Whither(jobs: seq<Job>, gone: set<int>, j: Job)
    ensures j in Kept(jobs, gone) <==> j in jobs && j.id !in gone
    ensures j in Leaving(jobs, gone) <==> j in jobs && j.id in gone
    ensures |Kept(jobs, gone)| + |Leaving(jobs, gone)| == |jobs|
  {
    if jobs == [] {
    } else {
      var front, last := jobs[..|jobs| - 1], jobs[|jobs| - 1];
      Whither(front, gone, j);
      assert j in jobs <==> j in front || j == last;
    }
  }

  lemma {:induction false} KeptDistinct(jobs: seq<Job>, gone: set<int>)
    requires Distinct(JobIds(jobs))
    ensures Distinct(JobIds(Kept(jobs, gone)))
  {
    if jobs == [] {
    } else {
      var n := |jobs| - 1;
      var kept := Kept(jobs[..n], gone);
      DistinctFront(jobs, n);
      KeptDistinct(jobs[..n], gone);
      KeptOrLeaving(jobs[..n], gone);
      forall i | 0 <= i < |kept| ensures JobIds(kept)[i] != jobs[n].id {
        assert kept[i] in kept;
        var k :| 0 <= k < n && jobs[k] == kept[i];
        assert JobIds(jobs)[k] != JobIds(jobs)[n];
      }
      AllBut(kept, jobs[n]);
      hide Distinct;
    }
  }

  lemma DistinctFront(jobs: seq<Job>, n: nat)
    requires Distinct(JobIds(jobs)) && n <= |jobs|
    ensures Distinct(JobIds(jobs[..n]))
  {
    assert forall i :: 0 <= i < n ==> JobIds(jobs[..n])[i] == JobIds(jobs)[i];
  }

  lemma AllBut(jobs: seq<Job>, job: Job)
    requires Distinct(JobIds(jobs)) && forall i :: 0 <= i < |jobs| ==> JobIds(jobs)[i] != job.id
    ensures Distinct(JobIds(jobs + [job])) && jobs + [] == jobs
  {
    assert JobIds(jobs + [job]) == JobIds(jobs) + [job.id];
  }

  /** Whoever stays keeps its place. */
  lemma {:induction false} KeptAscending(jobs: seq<Job>, gone: set<int>)
    requires Ascending(JobIds(jobs))
    ensures Ascending(JobIds(Kept(jobs, gone)))
  {
    if jobs == [] {
    } else {
      var n := |jobs| - 1;
      var kept := Kept(jobs[..n], gone);
      assert forall i :: 0 <= i < n ==> JobIds(jobs[..n])[i] == JobIds(jobs)[i];
      KeptAscending(jobs[..n], gone);
      KeptOrLeaving(jobs[..n], gone);
      forall i | 0 <= i < |kept| ensures JobIds(kept)[i] < jobs[n].id {
        assert kept[i] in kept;
        var k :| 0 <= k < n && jobs[k] == kept[i];
        assert JobIds(jobs)[k] < JobIds(jobs)[n];
      }
      AllBelow(kept, jobs[n]);
      hide Ascending;
    }
  }

  lemma AllBelow(jobs: seq<Job>, job: Job)
    requires Ascending(JobIds(jobs)) && forall i :: 0 <= i < |jobs| ==> JobIds(jobs)[i] < job.id
    ensures Ascending(JobIds(jobs + [job])) && jobs + [] == jobs
  {
    assert JobIds(jobs + [job]) == JobIds(jobs) + [job.id];
  }

  /** Releasing everyone in `gone` makes the cache agree with those who stay. */
  lemma PagedKept(jobs: seq<Job>, estimate: Estimate, view: Tables, extra: nat, gone: set<int>)
    requires Paged(jobs, estimate, view, Same(|jobs|, extra), gone)
    ensures Paged(Kept(jobs, gone), estimate, view - IdSet(Leaving(jobs, gone)),
                  Same(|Kept(jobs, gone)|, extra), {})
  {
    KeptMembers(jobs, gone);
    var kept, after := Kept(jobs, gone), view - IdSet(Leaving(jobs, gone));
    forall i | 0 <= i < |kept|
      ensures kept[i].id in after
      ensures after[kept[i].id].tokens == estimate(kept[i].request.prompt) + kept[i].generated + extra
    {
      var j := kept[i];
      assert j in kept && j in jobs;
      var k :| 0 <= k < |jobs| && jobs[k] == j;
    }
    forall s | s in after && after[s] != EMPTY ensures s in JobIds(kept) {
      assert s in JobIds(jobs);
      var k :| 0 <= k < |jobs| && JobIds(jobs)[k] == s;
      var j := jobs[k];
      assert j in jobs && j.id == s && j !in Leaving(jobs, gone);
      var i :| 0 <= i < |kept| && kept[i] == j;
      assert JobIds(kept)[i] == s;
    }
  }

  // ---------------------------------------------------------------------------
  // Every dequeued request is in exactly one place.
  // ---------------------------------------------------------------------------

  function JobRequests(jobs: seq<Job>): (r: seq<Request>)
    ensures |r| == |jobs|
  {
    seq(|jobs|, i requires 0 <= i < |jobs| => jobs[i].request)
  }

  function LogRequests(log: seq<Settlement>): (r: seq<Request>)
    ensures |r| == |log| && forall i :: 0 <= i < |log| ==> r[i] == log[i].request
  {
    seq(|log|, i requires 0 <= i < |log| => log[i].request)
  }

  function Waiting(deferred: Option<Request>): multiset<Request> {
    if deferred.Some? then multiset{deferred.value} else multiset{}
  }

  /** Dequeued requests are partitioned into settled, running and deferred, each once. */
  ghost predicate Partitioned(dequeued: seq<Request>, log: seq<Settlement>, jobs: seq<Job>, deferred: Option<Request>) {
    multiset(dequeued) == multiset(LogRequests(log)) + multiset(JobRequests(jobs)) + Waiting(deferred)
  }

  lemma LogMore(log: seq<Settlement>, e: Settlement)
    ensures multiset(LogRequests(log + [e])) == multiset(LogRequests(log)) + multiset{e.request}
  {
    assert LogRequests(log + [e]) == LogRequests(log) + [e.request];
  }

  lemma JobsMore(jobs: seq<Job>, j: Job)
    ensures multiset(JobRequests(jobs + [j])) == multiset(JobRequests(jobs)) + multiset{j.request}
    ensures JobIds(jobs + [j]) == JobIds(jobs) + [j.id]
  {
    assert JobRequests(jobs + [j]) == JobRequests(jobs) + [j.request];
  }

  /** The settlements of jobs that leave together. */
  function Settled(jobs: seq<Job>, kind: Kind, stopped: set<int>): (r: seq<Settlement>)
    ensures |r| == |jobs|
  {
    seq(|jobs|, i requires 0 <= i < |jobs| =>
      Settlement(jobs[i].request, kind, jobs[i].generated, jobs[i].id in stopped))
  }

  lemma {:induction false} KeptPartition(jobs: seq<Job>, gone: set<int>)
    ensures multiset(JobRequests(jobs)) ==
      multiset(JobRequests(Kept(jobs, gone))) + multiset(JobRequests(Leaving(jobs, gone)))
  {
    if jobs == [] {
    } else {
      var n := |jobs| - 1;
      assert jobs == jobs[..n] + [jobs[n]];
      KeptPartition(jobs[..n], gone);
      JobsMore(jobs[..n], jobs[n]);
      JobsMore(Kept(jobs[..n], gone), jobs[n]);
      JobsMore(Leaving(jobs[..n], gone), jobs[n]);
      if jobs[n].id in gone {
        assert Kept(jobs, gone) == Kept(jobs[..n], gone);
      } else {
        assert Leaving(jobs, gone) == Leaving(jobs[..n], gone);
      }
    }
  }

  lemma SettledRequests(log: seq<Settlement>, leaving: seq<Job>, kind: Kind, stopped: set<int>)
    ensures multiset(LogRequests(log + Settled(leaving, kind, stopped))) ==
      multiset(LogRequests(log)) + multiset(JobRequests(leaving))
  {
    assert LogRequests(log + Settled(leaving, kind, stopped)) == LogRequests(log) + JobRequests(leaving);
  }

  /** Settling the jobs that leave keeps the partition. */
  lemma PartitionKept(dequeued: seq<Request>, log: seq<Settlement>, jobs: seq<Job>, deferred: Option<Request>,
                      gone: set<int>, kind: Kind, stopped: set<int>)
    requires Partitioned(dequeued, log, jobs, deferred)
    ensures Partitioned(dequeued, log + Settled(Leaving(jobs, gone), kind, stopped), Kept(jobs, gone), deferred)
  {
    var leaving := Leaving(jobs, gone);
    KeptPartition(jobs, gone);
    SettledRequests(log, leaving, kind, stopped);
    hide Kept, Leaving, LogRequests, JobRequests, Settled;
  }

  // ---------------------------------------------------------------------------
  // Work is conserved.
  // ---------------------------------------------------------------------------

  function LogWork(log: seq<Settlement>): nat {
    if log == [] then 0
    else
      var e := log[|log| - 1];
      LogWork(log[..|log| - 1]) + e.tokens + (if e.stopped then 1 else 0)
  }

  function JobWork(jobs: seq<Job>): nat {
    if jobs == [] then 0 else JobWork(jobs[..|jobs| - 1]) + jobs[|jobs| - 1].generated
  }

  lemma {:induction false} LogWorkConcat(a: seq<Settlement>, b: seq<Settlement>)
    ensures LogWork(a + b) == LogWork(a) + LogWork(b)
  {
    if b == [] {
      assert a + b == a;
    } else {
      LogWorkConcat(a, b[..|b| - 1]);
      assert (a + b)[..|a + b| - 1] == a + b[..|b| - 1];
    }
  }

  lemma JobWorkMore(jobs: seq<Job>, j: Job)
    ensures JobWork(jobs + [j]) == JobWork(jobs) + j.generated
  {
    assert (jobs + [j])[..|jobs|] == jobs;
  }

  /** The end markers among jobs that leave. */
  function Stops(jobs: seq<Job>, stopped: set<int>): nat {
    if jobs == [] then 0
    else Stops(jobs[..|jobs| - 1], stopped) + (if jobs[|jobs| - 1].id in stopped then 1 else 0)
  }

  lemma {:induction false} SettledWork(jobs: seq<Job>, kind: Kind, stopped: set<int>)
    ensures LogWork(Settled(jobs, kind, stopped)) == JobWork(jobs) + Stops(jobs, stopped)
  {
    if jobs == [] {
    } else {
      var n := |jobs| - 1;
      SettledWork(jobs[..n], kind, stopped);
      assert Settled(jobs, kind, stopped)[..n] == Settled(jobs[..n], kind, stopped);
    }
  }

  lemma {:induction false} KeptWork(jobs: seq<Job>, gone: set<int>)
    ensures JobWork(jobs) == JobWork(Kept(jobs, gone)) + JobWork(Leaving(jobs, gone))
  {
    if jobs == [] {
    } else {
      var n := |jobs| - 1;
      KeptWork(jobs[..n], gone);
      JobWorkMore(Kept(jobs[..n], gone), jobs[n]);
      JobWorkMore(Leaving(jobs[..n], gone), jobs[n]);
      if jobs[n].id in gone {
        assert Kept(jobs, gone) == Kept(jobs[..n], gone);
      } else {
        assert Leaving(jobs, gone) == Leaving(jobs[..n], gone);
      }
    }
  }

  function IdSet(jobs: seq<Job>): set<int> {
    set j | j in jobs :: j.id
  }

  /** One more job looked at, in order. */
  lemma KeptStep(jobs: seq<Job>, gone: set<int>, i: nat)
    requires i < |jobs|
    ensures Kept(jobs[..i + 1], gone) == Kept(jobs[..i], gone) + (if jobs[i].id in gone then [] else [jobs[i]])
    ensures Leaving(jobs[..i + 1], gone) == Leaving(jobs[..i], gone) + (if jobs[i].id in gone then [jobs[i]] else [])
    ensures IdSet(Leaving(jobs[..i + 1], gone)) ==
            IdSet(Leaving(jobs[..i], gone)) + (if jobs[i].id in gone then {jobs[i].id} else {})
  {
    assert jobs[..i + 1][..i] == jobs[..i];
    var a := Leaving(jobs[..i], gone);
    assert IdSet(a + [jobs[i]]) == IdSet(a) + {jobs[i].id};
  }

  lemma SettledMore(jobs: seq<Job>, j: Job, kind: Kind, stopped: set<int>)
    ensures Settled(jobs + [j], kind, stopped)
         == Settled(jobs, kind, stopped) + [Settlement(j.request, kind, j.generated, j.id in stopped)]
  {
  }

  /** Of the first `i` jobs, those in `gone` have been released and settled. */
  ghost predicate Removed(jobs: seq<Job>, i: nat, gone: set<int>, kind: Kind, stopped: set<int>, view0: Tables,
                          log0: seq<Settlement>, staying: seq<Job>, view: Tables, log: seq<Settlement>, count: int)
    requires i <= |jobs|
  {
    var leaving := Leaving(jobs[..i], gone);
    && staying == Kept(jobs[..i], gone)
    && view == view0 - IdSet(leaving)
    && log == log0 + Settled(leaving, kind, stopped)
    && count == |leaving|
  }

  lemma RemovedNone(jobs: seq<Job>, gone: set<int>, kind: Kind, stopped: set<int>, view: Tables, log: seq<Settlement>)
    ensures Removed(jobs, 0, gone, kind, stopped, view, log, [], view, log, 0)
  {
    assert jobs[..0] == [];
    assert view - {} == view && log + [] == log;
  }

  lemma RemovedStep(jobs: seq<Job>, i: nat, gone: set<int>, kind: Kind, stopped: set<int>, view0: Tables,
                    log0: seq<Settlement>, staying: seq<Job>, view: Tables, log: seq<Settlement>, count: int)
    requires i < |jobs| && Removed(jobs, i, gone, kind, stopped, view0, log0, staying, view, log, count)
    ensures jobs[i].id !in gone ==>
      Removed(jobs, i + 1, gone, kind, stopped, view0, log0, staying + [jobs[i]], view, log, count)
    ensures jobs[i].id in gone ==>
      Removed(jobs, i + 1, gone, kind, stopped, view0, log0, staying, view - {jobs[i].id},
              log + [Settlement(jobs[i].request, kind, jobs[i].generated, jobs[i].id in stopped)], count + 1)
  {
    var leaving := Leaving(jobs[..i], gone);
    KeptStep(jobs, gone, i);
    SettledMore(leaving, jobs[i], kind, stopped);
    hide Kept, Leaving, Settled, IdSet;
    assert view0 - IdSet(leaving) - {jobs[i].id} == view0 - (IdSet(leaving) + {jobs[i].id});
  }

  lemma RemovedAll(jobs: seq<Job>, gone: set<int>, kind: Kind, stopped: set<int>, view0: Tables,
                   log0: seq<Settlement>, staying: seq<Job>, view: Tables, log: seq<Settlement>, count: int)
    requires Removed(jobs, |jobs|, gone, kind, stopped, view0, log0, staying, view, log, count)
    ensures staying == Kept(jobs, gone) && view == view0 - IdSet(Leaving(jobs, gone))
    ensures log == log0 + Settled(Leaving(jobs, gone), kind, stopped) && count == |Leaving(jobs, gone)|
  {
    assert jobs[..|jobs|] == jobs;
  }

  datatype ContinuousStats = ContinuousStats(decodeSteps: nat, occupiedRows: nat, availableRows: nat, admissions: nat,
                                             completions: nat, expired: nat, maxObservedBatch: nat,
                                             cacheRefusals: nat, rejected: nat, preempted: nat)

  /** No step was taken between the two, nobody prefilled, and nobody completed. */
  predicate SameWork(a: ContinuousStats, b: ContinuousStats) {
    && a.decodeSteps == b.decodeSteps && a.occupiedRows == b.occupiedRows && a.availableRows == b.availableRows
    && a.maxObservedBatch == b.maxObservedBatch && a.admissions == b.admissions && a.completions == b.completions
  }

  /** Whoever was settled since `told` was settled without being served. */
  predicate Unserved(told: seq<Settlement>, log: seq<Settlement>) {
    told <= log && forall i :: |told| <= i < |log| ==> log[i].kind != Completed
  }

  /** All of one kind. */
  predicate Alike(log: seq<Settlement>, kind: Kind) {
    forall i :: 0 <= i < |log| ==> log[i].kind == kind
  }

  function HowMany(log: seq<Settlement>, kind: Kind): nat {
    if log == [] then 0 else HowMany(log[..|log| - 1], kind) + if log[|log| - 1].kind == kind then 1 else 0
  }

  /** Each counter of departures is the number of callbacks of its kind. */
  predicate Tallied(stats: ContinuousStats, log: seq<Settlement>) {
    && stats.completions == HowMany(log, Completed) && stats.preempted == HowMany(log, Preempted)
    && stats.expired == HowMany(log, Expired) && stats.rejected == HowMany(log, Rejected)
  }

  lemma HowManyMore(log: seq<Settlement>, e: Settlement, kind: Kind)
    ensures HowMany(log + [e], kind) == HowMany(log, kind) + if e.kind == kind then 1 else 0
  {
    assert (log + [e])[..|log|] == log;
  }

  lemma {:induction false} HowManyAlike(log: seq<Settlement>, more: seq<Settlement>, alike: Kind, kind: Kind)
    requires Alike(more, alike)
    ensures HowMany(log + more, kind) == HowMany(log, kind) + if kind == alike then |more| else 0
  {
    if more == [] {
      assert log + more == log;
    } else {
      var n := |more| - 1;
      HowManyAlike(log, more[..n], alike, kind);
      HowManyMore(log + more[..n], more[n], kind);
      assert log + more == (log + more[..n]) + [more[n]];
    }
  }

  /** Everybody who left is counted under one of the kinds. */
  lemma {:induction false} HowManyInAll(log: seq<Settlement>)
    ensures HowMany(log, Completed) + HowMany(log, Preempted) + HowMany(log, Expired) + HowMany(log, Rejected) == |log|
  {
    if log == [] {
    } else {
      HowManyInAll(log[..|log| - 1]);
    }
  }

  lemma TalliedAlike(stats: ContinuousStats, log: seq<Settlement>, more: seq<Settlement>, kind: Kind,
                     after: ContinuousStats)
    requires Tallied(stats, log) && Alike(more, kind) && (kind == Completed || kind == Preempted)
    requires after == (if kind == Completed then stats.(completions := stats.completions + |more|)
                       else stats.(preempted := stats.preempted + |more|))
    ensures Tallied(after, log + more)
  {
    HowManyAlike(log, more, kind, Completed);
    HowManyAlike(log, more, kind, Preempted);
    HowManyAlike(log, more, kind, Expired);
    HowManyAlike(log, more, kind, Rejected);
    hide HowMany, Alike;
  }

  lemma TalliedMore(stats: ContinuousStats, log: seq<Settlement>, e: Settlement, after: ContinuousStats)
    requires Tallied(stats, log) && (e.kind == Expired || e.kind == Rejected)
    requires after == (if e.kind == Rejected then stats.(rejected := stats.rejected + 1)
                       else stats.(expired := stats.expired + 1))
    ensures Tallied(after, log + [e])
  {
    HowManyMore(log, e, Completed);
    HowManyMore(log, e, Preempted);
    HowManyMore(log, e, Expired);
    HowManyMore(log, e, Rejected);
    hide HowMany;
  }

  /** Rows a batch of this width offers over so many steps. */
  function Rows(steps: nat, width: nat): nat {
    steps * width
  }

  lemma RowsAdd(a: nat, b: nat, width: nat)
    ensures Rows(a + b, width) == Rows(a, width) + Rows(b, width) && Rows(0, width) == 0 && Rows(1, width) == width
  {
    assert (a + b) * width == a * width + b * width;
  }

  /** Every occupied row was a token some sequence got, or the end marker it stopped on. */
  ghost predicate WorkDone(stats: ContinuousStats, log: seq<Settlement>, jobs: seq<Job>, stops: nat, maxBatch: nat) {
    && stats.occupiedRows == LogWork(log) + JobWork(jobs) + stops
    && stats.occupiedRows <= stats.availableRows == Rows(stats.decodeSteps, maxBatch)
    && stats.maxObservedBatch <= maxBatch
    && (forall i :: 0 <= i < |jobs| ==> jobs[i].generated <= stats.decodeSteps)
    && (forall i :: 0 <= i < |log| ==> log[i].tokens <= stats.decodeSteps)
  }

  /** A completed request got its whole budget, or its end marker first. */
  ghost predicate Honoured(log: seq<Settlement>) {
    forall i :: 0 <= i < |log| && log[i].kind == Completed ==>
      log[i].tokens == log[i].request.maxNewTokens || (log[i].stopped && log[i].tokens <= log[i].request.maxNewTokens)
  }

  /** Work stays accounted for when jobs leave. */
  lemma WorkKept(stats: ContinuousStats, after: ContinuousStats, log: seq<Settlement>, jobs: seq<Job>, gone: set<int>,
                 kind: Kind, stopped: set<int>, maxBatch: nat)
    requires WorkDone(stats, log, jobs, Stops(Leaving(jobs, gone), stopped), maxBatch)
    requires after == (if kind == Completed then stats.(completions := stats.completions + |Leaving(jobs, gone)|)
                       else stats.(preempted := stats.preempted + |Leaving(jobs, gone)|))
    ensures WorkDone(after, log + Settled(Leaving(jobs, gone), kind, stopped), Kept(jobs, gone), 0, maxBatch)
  {
    var leaving := Leaving(jobs, gone);
    KeptMembers(jobs, gone);
    KeptWork(jobs, gone);
    SettledWork(leaving, kind, stopped);
    LogWorkConcat(log, Settled(leaving, kind, stopped));
    hide Kept, Leaving, LogWork, JobWork, Stops, Rows;
    forall i | 0 <= i < |leaving| ensures leaving[i].generated <= stats.decodeSteps {
      var j := leaving[i];
      assert j in leaving && j in jobs;
    }
    forall i | 0 <= i < |Kept(jobs, gone)| ensures Kept(jobs, gone)[i].generated <= stats.decodeSteps {
      var j := Kept(jobs, gone)[i];
      assert j in Kept(jobs, gone) && j in jobs;
    }
  }

  lemma HonouredMore(log: seq<Settlement>, more: seq<Settlement>)
    requires Honoured(log) && Honoured(more)
    ensures Honoured(log + more)
  {
  }

  // ---------------------------------------------------------------------------
  // Every verdict is the one the request deserves.
  // ---------------------------------------------------------------------------

  /** What backs the sequences: nothing that runs out, or a pool of blocks. */
  datatype Backing = Unbounded | Pooled(size: nat, total: nat)

  /** No state of the pool could hold the request. */
  predicate TooBig(backing: Backing, estimate: Estimate, r: Request) {
    backing.Pooled? && backing.size > 0 && CeilDiv(estimate(r.prompt), backing.size) > backing.total
  }

  /** The estimate is zero, so admitting the request would make no table for it. */
  predicate Unmeasured(backing: Backing, estimate: Estimate, r: Request) {
    backing.Pooled? && estimate(r.prompt) == 0
  }

  predicate Servable(backing: Backing, estimate: Estimate, r: Request) {
    !TooBig(backing, estimate, r) && !Unmeasured(backing, estimate, r)
  }

  predicate Deserved(backing: Backing, estimate: Estimate, e: Settlement) {
    match e.kind
    case Rejected => TooBig(backing, estimate, e.request)
    case Expired => true
    case Completed => Servable(backing, estimate, e.request)
    case Preempted => backing.Pooled? && Servable(backing, estimate, e.request)
  }

  /** Rejection comes to nobody who could be served, and service to nobody who could not. */
  ghost predicate Fair(backing: Backing, estimate: Estimate, log: seq<Settlement>, jobs: seq<Job>) {
    && (forall i :: 0 <= i < |log| ==> Deserved(backing, estimate, log[i]))
    && forall i :: 0 <= i < |jobs| ==> Servable(backing, estimate, jobs[i].request)
  }

  lemma FairKept(backing: Backing, estimate: Estimate, log: seq<Settlement>, jobs: seq<Job>, gone: set<int>, kind: Kind,
                 stopped: set<int>)
    requires Fair(backing, estimate, log, jobs) && (kind == Completed || (kind == Preempted && backing.Pooled?))
    ensures Fair(backing, estimate, log + Settled(Leaving(jobs, gone), kind, stopped), Kept(jobs, gone))
  {
    KeptMembers(jobs, gone);
    hide Servable, Kept, Leaving;
    var leaving, kept := Leaving(jobs, gone), Kept(jobs, gone);
    forall i | 0 <= i < |leaving| ensures Servable(backing, estimate, leaving[i].request) {
      var j := leaving[i];
      assert j in leaving && j in jobs;
    }
    forall i | 0 <= i < |kept| ensures Servable(backing, estimate, kept[i].request) {
      var j := kept[i];
      assert j in kept && j in jobs;
    }
  }

  // ---------------------------------------------------------------------------
  // All accounts together.
  // ---------------------------------------------------------------------------

  /** What a scheduler is configured with. */
  datatype Desk = Desk(backing: Backing, estimate: Estimate, maxBatch: nat)

  /** Every account is square: where each request is, what was done for it, and why it left.
      `stops` counts end markers seen but not yet settled. */
  ghost predicate Square(desk: Desk, dequeued: seq<Request>, inHand: Option<Request>, log: seq<Settlement>,
                         jobs: seq<Job>, stops: nat, stats: ContinuousStats)
  {
    && Partitioned(dequeued, log, jobs, inHand) && WorkDone(stats, log, jobs, stops, desk.maxBatch)
    && Honoured(log) && Fair(desk.backing, desk.estimate, log, jobs) && Tallied(stats, log)
  }

  /** Removing jobs keeps every account square. */
  lemma RemovalSquares(desk: Desk, dequeued: seq<Request>, inHand: Option<Request>, jobs: seq<Job>, gone: set<int>,
                       kind: Kind, stopped: set<int>, view0: Tables, log0: seq<Settlement>, staying: seq<Job>,
                       view: Tables, log: seq<Settlement>, count: int, stats: ContinuousStats, after: ContinuousStats)
    requires Removed(jobs, |jobs|, gone, kind, stopped, view0, log0, staying, view, log, count)
    requires Square(desk, dequeued, inHand, log0, jobs, Stops(Leaving(jobs, gone), stopped), stats)
    requires kind == Completed || (kind == Preempted && desk.backing.Pooled?)
    requires count >= 0 && after == (if kind == Completed then stats.(completions := stats.completions + count)
                                     else stats.(preempted := stats.preempted + count))
    requires kind == Completed ==> forall j :: j in jobs && j.id in gone ==>
      j.generated == j.request.maxNewTokens || (j.id in stopped && j.generated <= j.request.maxNewTokens)
    ensures Square(desk, dequeued, inHand, log, staying, 0, after)
    ensures log0 <= log && forall i :: |log0| <= i < |log| ==> log[i].kind == kind
    ensures |staying| <= |jobs|
  {
    hide Removed, Partitioned, WorkDone, Kept, Leaving, Fair, Honoured, Settled, Stops, Tallied;
    RemovedAll(jobs, gone, kind, stopped, view0, log0, staying, view, log, count);
    PartitionKept(dequeued, log0, jobs, inHand, gone, kind, stopped);
    WorkKept(stats, after, log0, jobs, gone, kind, stopped, desk.maxBatch);
    FairKept(desk.backing, desk.estimate, log0, jobs, gone, kind, stopped);
    KeptMembers(jobs, gone);
    var leaving := Leaving(jobs, gone);
    SettledHonoured(jobs, gone, kind, stopped);
    HonouredMore(log0, Settled(leaving, kind, stopped));
    SettledKind(leaving, kind, stopped);
    TalliedAlike(stats, log0, Settled(leaving, kind, stopped), kind, after);
  }

  lemma SettledKind(jobs: seq<Job>, kind: Kind, stopped: set<int>)
    ensures Alike(Settled(jobs, kind, stopped), kind)
  {
  }

  /** What the leavers have to show carries over to their settlements. */
  lemma SettledHonoured(jobs: seq<Job>, gone: set<int>, kind: Kind, stopped: set<int>)
    requires kind == Completed ==> forall j :: j in jobs && j.id in gone ==>
      j.generated == j.request.maxNewTokens || (j.id in stopped && j.generated <= j.request.maxNewTokens)
    ensures Honoured(Settled(Leaving(jobs, gone), kind, stopped))
  {
    KeptMembers(jobs, gone);
    hide Kept, Leaving;
    var leaving := Leaving(jobs, gone);
    forall i | 0 <= i < |leaving| ensures leaving[i] in jobs && leaving[i].id in gone {
      var j := leaving[i];
      assert j in leaving;
    }
  }

  lemma {:induction false} KeptAll(jobs: seq<Job>)
    ensures Kept(jobs, {}) == jobs && Leaving(jobs, {}) == []
  {
    if jobs == [] {
    } else {
      KeptAll(jobs[..|jobs| - 1]);
    }
  }

  /** The request in hand starts running. */
  lemma AdmissionSquares(desk: Desk, dequeued: seq<Request>, log: seq<Settlement>, jobs: seq<Job>, job: Job,
                         stats: ContinuousStats)
    requires Square(desk, dequeued, Some(job.request), log, jobs, 0, stats) && job.generated == 0
    requires Servable(desk.backing, desk.estimate, job.request)
    ensures Square(desk, dequeued, None, log, jobs + [job], 0, stats)
  {
    hide Servable, Rows;
    JobsMore(jobs, job);
    JobWorkMore(jobs, job);
  }

  /** The request in hand is settled without having run. */
  lemma RefusalSquares(desk: Desk, dequeued: seq<Request>, log: seq<Settlement>, jobs: seq<Job>, e: Settlement,
                       stats: ContinuousStats, after: ContinuousStats)
    requires Square(desk, dequeued, Some(e.request), log, jobs, 0, stats)
    requires e.tokens == 0 && !e.stopped && (e.kind == Expired || e.kind == Rejected)
    requires Deserved(desk.backing, desk.estimate, e)
    requires after == (if e.kind == Rejected then stats.(rejected := stats.rejected + 1)
                       else stats.(expired := stats.expired + 1))
    ensures Square(desk, dequeued, None, log + [e], jobs, 0, after)
  {
    hide Servable, Rows, TooBig, Tallied;
    LogMore(log, e);
    TalliedMore(stats, log, e, after);
    assert (log + [e])[..|log|] == log;
  }

  /** A request comes off the queue. */
  lemma DequeueSquares(desk: Desk, dequeued: seq<Request>, log: seq<Settlement>, jobs: seq<Job>, r: Request,
                       stats: ContinuousStats)
    requires Square(desk, dequeued, None, log, jobs, 0, stats)
    ensures Square(desk, dequeued + [r], Some(r), log, jobs, 0, stats)
  {
    hide WorkDone, Honoured, Fair;
  }

  /** Counters no account depends on. */
  lemma OtherCounters(desk: Desk, dequeued: seq<Request>, inHand: Option<Request>, log: seq<Settlement>,
                      jobs: seq<Job>, stops: nat, stats: ContinuousStats, after: ContinuousStats)
    requires Square(desk, dequeued, inHand, log, jobs, stops, stats)
    requires after == stats.(cacheRefusals := after.cacheRefusals, admissions := after.admissions)
    ensures Square(desk, dequeued, inHand, log, jobs, stops, after)
  {
    hide Partitioned, Honoured, Fair, LogWork, JobWork, Rows;
  }

  // ---------------------------------------------------------------------------
  // Tokens still owed.
  // ---------------------------------------------------------------------------

  function Owed(job: Job): nat {
    if job.generated < job.request.maxNewTokens then job.request.maxNewTokens - job.generated else 0
  }

  function Remaining(jobs: seq<Job>): nat {
    if jobs == [] then 0 else Remaining(jobs[..|jobs| - 1]) + Owed(jobs[|jobs| - 1])
  }

  lemma RemainingMore(jobs: seq<Job>, job: Job)
    ensures Remaining(jobs + [job]) == Remaining(jobs) + Owed(job)
  {
    assert (jobs + [job])[..|jobs|] == jobs;
  }

  /** Whoever leaves takes at least a token's worth of work along. */
  lemma {:induction false} RemainingKept(jobs: seq<Job>, gone: set<int>)
    requires forall i :: 0 <= i < |jobs| ==> jobs[i].generated < jobs[i].request.maxNewTokens
    ensures Remaining(Kept(jobs, gone)) + |Leaving(jobs, gone)| <= Remaining(jobs)
  {
    if jobs == [] {
    } else {
      var n := |jobs| - 1;
      RemainingKept(jobs[..n], gone);
      RemainingMore(Kept(jobs[..n], gone), jobs[n]);
      if jobs[n].id in gone {
        assert Kept(jobs, gone) == Kept(jobs[..n], gone);
      }
    }
  }

  /** The most that any of them is still owed. */
  function LongestOwed(jobs: seq<Job>): nat {
    if jobs == [] then 0 else Max(LongestOwed(jobs[..|jobs| - 1]), Owed(jobs[|jobs| - 1]))
  }

  lemma LongestMore(jobs: seq<Job>, job: Job)
    ensures LongestOwed(jobs + [job]) == Max(LongestOwed(jobs), Owed(job))
  {
    assert (jobs + [job])[..|jobs|] == jobs;
  }

  lemma {:induction false} LongestKept(jobs: seq<Job>, gone: set<int>)
    ensures LongestOwed(Kept(jobs, gone)) <= LongestOwed(jobs)
  {
    if jobs == [] {
    } else {
      var n := |jobs| - 1;
      LongestKept(jobs[..n], gone);
      LongestMore(Kept(jobs[..n], gone), jobs[n]);
      if jobs[n].id in gone {
        assert Kept(jobs, gone) == Kept(jobs[..n], gone);
      }
    }
  }

  /** The largest budget among requests. */
  function LongestBudget(requests: seq<Request>): nat {
    if requests == [] then 0 else Max(LongestBudget(requests[1..]), requests[0].maxNewTokens)
  }

  lemma {:induction false} LongestBudgetBounds(requests: seq<Request>)
    ensures forall r :: r in requests ==> r.maxNewTokens <= LongestBudget(requests)
  {
    if requests == [] {
    } else {
      LongestBudgetBounds(requests[1..]);
    }
  }

  lemma {:induction false} LongestBound(jobs: seq<Job>, bound: nat)
    requires forall i :: 0 <= i < |jobs| ==> jobs[i].request.maxNewTokens <= bound
    ensures LongestOwed(jobs) <= bound
  {
    if jobs == [] {
    } else {
      LongestBound(jobs[..|jobs| - 1], bound);
    }
  }

  // ---------------------------------------------------------------------------
  // Which sequences the runner has a row for.
  // ---------------------------------------------------------------------------

  /** The runner has a row for every running sequence but those admitted in this pass
      (`pending`, prefilled at its end), and for those in `leaked` that nobody runs any more. */
  ghost predicate Seats(active: set<int>, leaked: set<int>, ids: set<int>, pending: set<int>, nextId: int) {
    && active == leaked + (ids - pending) && leaked !! ids
    && (forall id :: id in leaked ==> id < nextId) && (forall id :: id in ids ==> id < nextId)
    && forall id :: id in pending ==> id < nextId
  }

  lemma SeatsLeft(active: set<int>, leaked: set<int>, ids: set<int>, pending: set<int>, nextId: int, left: set<int>)
    requires Seats(active, leaked, ids, pending, nextId) && left <= ids
    ensures Seats(active - left, leaked, ids - left, pending, nextId)
  {
  }

  lemma SeatsAdmitted(active: set<int>, leaked: set<int>, ids: set<int>, pending: set<int>, nextId: int)
    requires Seats(active, leaked, ids, pending, nextId)
    ensures Seats(active, leaked, ids + {nextId}, pending + {nextId}, nextId + 1)
  {
  }

  lemma SeatsLater(active: set<int>, leaked: set<int>, ids: set<int>, pending: set<int>, nextId: int, later: int)
    requires Seats(active, leaked, ids, pending, nextId) && nextId <= later
    ensures Seats(active, leaked, ids, pending, later)
  {
  }

  /** A sequence admitted and evicted in one pass gets its row all the same. */
  lemma SeatsPrefilled(active: set<int>, leaked: set<int>, ids: set<int>, pending: set<int>, nextId: int)
    requires Seats(active, leaked, ids, pending, nextId)
    ensures Seats(active + pending, leaked + (pending - ids), ids, {}, nextId)
  {
  }

  lemma IdsKept(jobs: seq<Job>, gone: set<int>)
    requires Distinct(JobIds(jobs))
    ensures IdSet(Leaving(jobs, gone)) <= IdSet(jobs)
    ensures IdSet(Kept(jobs, gone)) == IdSet(jobs) - IdSet(Leaving(jobs, gone))
  {
    KeptMembers(jobs, gone);
    hide Kept, Leaving;
    var kept, leaving := Kept(jobs, gone), Leaving(jobs, gone);
    forall id | id in IdSet(jobs) - IdSet(leaving) ensures id in IdSet(kept) {
      var j :| j in jobs && j.id == id;
      assert j !in leaving;
    }
    forall id | id in IdSet(kept) ensures id in IdSet(jobs) - IdSet(leaving) {
      var j :| j in kept && j.id == id;
    }
  }

  lemma IdsMore(jobs: seq<Job>, job: Job)
    ensures IdSet(jobs + [job]) == IdSet(jobs) + {job.id}
  {
  }
}
