/** How the scheduler's cache calls move the agreement between cache and running set. */
module SchedulerPaging {
  import opened BlockTables
  import opened Common
  import opened KvCache
  import opened KvCacheTheorems
  import opened SchedulerBooks
  import opened SchedulerGrowth

  ghost function Members(s: seq<int>): set<int> {
    set x | x in s
  }

  lemma IdAt(jobs: seq<Job>, i: nat)
    requires i < |jobs|
    ensures jobs[i].id in JobIds(jobs)
  {
    assert JobIds(jobs)[i] == jobs[i].id;
  }

  lemma OneIndex(jobs: seq<Job>, i: nat, k: nat)
    requires Distinct(JobIds(jobs)) && i < |jobs| && k < |jobs| && i != k
    ensures jobs[i].id != jobs[k].id
  {
    assert JobIds(jobs)[i] == jobs[i].id && JobIds(jobs)[k] == jobs[k].id;
  }

  /** A granted extension: one more token for sequence `k`, its victims gone. */
  lemma PagedGranted(jobs: seq<Job>, estimate: Estimate, view: Tables, extra: seq<nat>, gone: set<int>, k: nat,
                     size: nat, total: nat, policy: Policy, order: seq<int>, before: Ledger, after: Tables,
                     now: Ledger, outcome: Outcome)
    requires Distinct(JobIds(jobs)) && k < |jobs| && Paged(jobs, estimate, view, extra, gone)
    requires size > 0 && jobs[k].id in view && AllTight(view, size)
    requires Reserved(size, total, policy, order, view, before, jobs[k].id, 1, after, now, outcome) && outcome.Ok()
    ensures Paged(jobs, estimate, after, extra[k := extra[k] + 1], gone + Members(outcome.preempted))
    ensures after.Keys == view.Keys
  {
    hide Reserved, CeilDiv, Tight, AllTight, MayEvict;
    var s := jobs[k].id;
    AdmissionIsExact(size, total, policy, order, view, before, s, 1, after, now, outcome);
    forall i | 0 <= i < |jobs|
      ensures jobs[i].id in after
      ensures jobs[i].id !in gone + Members(outcome.preempted) ==>
        after[jobs[i].id].tokens == estimate(jobs[i].request.prompt) + jobs[i].generated + extra[k := extra[k] + 1][i]
    {
      if i != k { OneIndex(jobs, i, k); }
    }
    forall x | x in after && after[x] != EMPTY ensures x in JobIds(jobs) {
      if x == s { IdAt(jobs, k); }
    }
  }

  /** A refused extension changes nothing; the sequence that could not grow is to go. */
  lemma PagedRefused(jobs: seq<Job>, estimate: Estimate, view: Tables, extra: seq<nat>, gone: set<int>, k: nat)
    requires Distinct(JobIds(jobs)) && k < |jobs| && Paged(jobs, estimate, view, extra, gone)
    ensures Paged(jobs, estimate, view, extra[k := extra[k] + 1], gone + {jobs[k].id})
  {
    forall i | 0 <= i < |jobs| && i != k ensures jobs[i].id != jobs[k].id {
      OneIndex(jobs, i, k);
    }
  }

  /** A granted admission: the new sequence holds its estimate, its victims are gone. */
  lemma PagedAdmitted(jobs: seq<Job>, estimate: Estimate, view: Tables, job: Job, size: nat, total: nat,
                      policy: Policy, order: seq<int>, before: Ledger, after: Tables, now: Ledger, outcome: Outcome)
    requires Paged(jobs, estimate, view, Same(|jobs|, 0), {}) && job.id !in view && job.generated == 0
    requires size > 0 && AllTight(view, size)
    requires Reserved(size, total, policy, order, view[job.id := EMPTY], before, job.id, estimate(job.request.prompt),
                      after, now, outcome) && outcome.Ok()
    ensures Paged(jobs + [job], estimate, after, Same(|jobs| + 1, 0), Members(outcome.preempted))
    ensures after.Keys == view.Keys + {job.id} && job.id !in outcome.preempted
  {
    hide Reserved, CeilDiv, Tight, MayEvict;
    var ts := view[job.id := EMPTY];
    EmptyTight(size);
    assert AllTight(ts, size);
    hide AllTight;
    AdmissionIsExact(size, total, policy, order, ts, before, job.id, estimate(job.request.prompt), after, now, outcome);
    assert JobIds(jobs + [job]) == JobIds(jobs) + [job.id];
  }

  lemma EmptyAdded(ts: Tables, s: int, size: nat)
    requires size > 0 && AllTight(ts, size)
    ensures AllTight(ts[s := EMPTY], size)
  {
    EmptyTight(size);
  }

  /** A refused admission leaves an empty table behind, and nothing else. */
  lemma PagedDenied(jobs: seq<Job>, estimate: Estimate, view: Tables, extra: seq<nat>, gone: set<int>, s: int)
    requires Paged(jobs, estimate, view, extra, gone) && s !in view
    ensures Paged(jobs, estimate, view[s := EMPTY], extra, gone)
  {
  }

  lemma KeptLast(jobs: seq<Job>, gone: set<int>, job: Job)
    requires job.id !in gone
    ensures Kept(jobs + [job], gone) == Kept(jobs, gone) + [job]
    ensures Leaving(jobs + [job], gone) == Leaving(jobs, gone)
  {
    assert (jobs + [job])[..|jobs|] == jobs;
  }

  /** Where every estimate is positive the block holders are the running sequences. */
  lemma HoldersRun(jobs: seq<Job>, estimate: Estimate, view: Tables, size: nat)
    requires size > 0 && AllTight(view, size) && Paged(jobs, estimate, view, Same(|jobs|, 0), {})
    requires forall i :: 0 <= i < |jobs| ==> estimate(jobs[i].request.prompt) > 0
    ensures forall x :: x in view ==> (view[x].blocks != [] <==> x in JobIds(jobs))
  {
    forall x | x in view ensures view[x].blocks != [] <==> x in JobIds(jobs) {
      TightAt(view, x, size);
      CeilDivBounds(view[x].tokens, size);
      hide CeilDiv, AllTight;
      if x in JobIds(jobs) {
        var i :| 0 <= i < |jobs| && JobIds(jobs)[i] == x;
        assert view[x].tokens > 0;
      } else {
        assert view[x] == EMPTY;
      }
    }
  }

  /** The jobs after a decode step: a token each, unless the end marker came. */
  ghost predicate Decoded(jobs: seq<Job>, after: seq<Job>, stopped: set<int>) {
    && |after| == |jobs|
    && forall i :: 0 <= i < |jobs| ==>
         after[i] == jobs[i].(generated := if jobs[i].id in stopped then jobs[i].generated else jobs[i].generated + 1)
  }

  /** Decoding uses up exactly the token reserved for it. */
  lemma PagedDecoded(jobs: seq<Job>, after: seq<Job>, estimate: Estimate, view: Tables, stopped: set<int>,
                     finished: set<int>)
    requires Paged(jobs, estimate, view, Same(|jobs|, 1), {}) && Decoded(jobs, after, stopped) && stopped <= finished
    ensures Paged(after, estimate, view, Same(|after|, 0), finished)
    ensures JobIds(after) == JobIds(jobs) && JobRequests(after) == JobRequests(jobs)
  {
    assert JobIds(after) == JobIds(jobs);
  }

  lemma RequestsDecoded(jobs: seq<Job>, after: seq<Job>, stopped: set<int>)
    requires Decoded(jobs, after, stopped)
    ensures JobRequests(after) == JobRequests(jobs)
  {
  }

  lemma {:induction false} DecodedWork(jobs: seq<Job>, after: seq<Job>, stopped: set<int>)
    requires Decoded(jobs, after, stopped)
    ensures JobWork(after) + Stops(after, stopped) == JobWork(jobs) + |jobs|
  {
    if jobs == [] {
    } else {
      DecodedWork(jobs[..|jobs| - 1], after[..|jobs| - 1], stopped);
    }
  }

  lemma {:induction false} StopsLeave(jobs: seq<Job>, stopped: set<int>, finished: set<int>)
    requires stopped <= finished
    ensures Stops(jobs, stopped) == Stops(Leaving(jobs, finished), stopped)
  {
    if jobs == [] {
    } else {
      var n := |jobs| - 1;
      StopsLeave(jobs[..n], stopped, finished);
      var l := Leaving(jobs[..n], finished);
      assert (l + [jobs[n]])[..|l|] == l && l + [] == l;
    }
  }

  lemma {:induction false} NoStops(jobs: seq<Job>)
    ensures Stops(jobs, {}) == 0
  {
    if jobs == [] {
    } else {
      NoStops(jobs[..|jobs| - 1]);
    }
  }

  /** With nobody running, every block is free. */
  lemma {:induction false} IdleHoldsNothing(order: seq<int>, ts: Tables)
    requires Known(order, ts) && forall s :: s in ts ==> ts[s] == EMPTY
    ensures Held(order, ts) == 0
  {
    if order == [] {
    } else {
      IdleHoldsNothing(order[1..], ts);
    }
  }

  /** One decode step of the whole batch keeps every account square. */
  lemma DecodeSquares(desk: Desk, dequeued: seq<Request>, inHand: Option<Request>, log: seq<Settlement>, jobs: seq<Job>,
                      decoded: seq<Job>, stopped: set<int>, stats: ContinuousStats, after: ContinuousStats)
    requires Square(desk, dequeued, inHand, log, jobs, 0, stats)
    requires Decoded(jobs, decoded, stopped) && |jobs| <= desk.maxBatch
    requires after == stats.(
      decodeSteps := stats.decodeSteps + 1, occupiedRows := stats.occupiedRows + |jobs|,
      availableRows := stats.availableRows + desk.maxBatch,
      maxObservedBatch := Max(stats.maxObservedBatch, |jobs|))
    ensures Square(desk, dequeued, inHand, log, decoded, Stops(decoded, stopped), after)
  {
    RequestsDecoded(jobs, decoded, stopped);
    DecodedFair(desk.backing, desk.estimate, log, jobs, decoded, stopped);
    DecodedRows(log, jobs, decoded, stopped, desk.maxBatch, stats, after);
    hide WorkDone, Fair, Decoded, Honoured;
  }

  lemma DecodedFair(backing: Backing, estimate: Estimate, log: seq<Settlement>, jobs: seq<Job>, decoded: seq<Job>,
                    stopped: set<int>)
    requires Fair(backing, estimate, log, jobs) && Decoded(jobs, decoded, stopped)
    ensures Fair(backing, estimate, log, decoded)
  {
    hide Servable, Deserved;
  }

  lemma DecodedRows(log: seq<Settlement>, jobs: seq<Job>, decoded: seq<Job>, stopped: set<int>, maxBatch: nat,
                    stats: ContinuousStats, after: ContinuousStats)
    requires WorkDone(stats, log, jobs, 0, maxBatch) && Decoded(jobs, decoded, stopped) && |jobs| <= maxBatch
    requires after == stats.(
      decodeSteps := stats.decodeSteps + 1, occupiedRows := stats.occupiedRows + |jobs|,
      availableRows := stats.availableRows + maxBatch, maxObservedBatch := Max(stats.maxObservedBatch, |jobs|))
    ensures WorkDone(after, log, decoded, Stops(decoded, stopped), maxBatch)
  {
    DecodedWork(jobs, decoded, stopped);
    RowsAdd(stats.decodeSteps, 1, maxBatch);
    hide LogWork, JobWork, Stops, Rows;
  }

  lemma DecodedIds(jobs: seq<Job>, decoded: seq<Job>, stopped: set<int>)
    requires Decoded(jobs, decoded, stopped)
    ensures IdSet(decoded) == IdSet(jobs) && JobIds(decoded) == JobIds(jobs)
  {
    forall id | id in IdSet(jobs) ensures id in IdSet(decoded) {
      var i :| 0 <= i < |jobs| && jobs[i].id == id;
      assert decoded[i] in decoded;
    }
    forall id | id in IdSet(decoded) ensures id in IdSet(jobs) {
      var i :| 0 <= i < |decoded| && decoded[i].id == id;
      assert jobs[i] in jobs;
    }
  }

  /** A step and the retirement after it owe a token less for everybody who ran. */
  lemma {:induction false} RemainingDecoded(jobs: seq<Job>, decoded: seq<Job>, stopped: set<int>, finished: set<int>)
    requires Decoded(jobs, decoded, stopped) && stopped <= finished
    requires forall i :: 0 <= i < |jobs| ==> jobs[i].generated < jobs[i].request.maxNewTokens
    ensures Remaining(Kept(decoded, finished)) + |jobs| <= Remaining(jobs)
  {
    if jobs == [] {
    } else {
      var n := |jobs| - 1;
      RemainingDecoded(jobs[..n], decoded[..n], stopped, finished);
      RemainingMore(Kept(decoded[..n], finished), decoded[n]);
      if decoded[n].id in finished {
        assert Kept(decoded, finished) == Kept(decoded[..n], finished);
      }
    }
  }

  lemma KeptOne(jobs: seq<Job>, gone: set<int>)
    requires jobs != []
    ensures var n := |jobs| - 1;
      Kept(jobs, gone) == if jobs[n].id in gone then Kept(jobs[..n], gone) else Kept(jobs[..n], gone) + [jobs[n]]
  {
  }

  /** And the most that anybody is owed gets less. */
  lemma {:induction false} LongestDecoded(jobs: seq<Job>, decoded: seq<Job>, stopped: set<int>, finished: set<int>)
    requires Decoded(jobs, decoded, stopped) && stopped <= finished
    requires forall i :: 0 <= i < |jobs| ==> jobs[i].generated < jobs[i].request.maxNewTokens
    ensures jobs != [] ==> LongestOwed(Kept(decoded, finished)) < LongestOwed(jobs)
    ensures jobs == [] ==> LongestOwed(Kept(decoded, finished)) == 0
  {
    if jobs == [] {
    } else {
      var n := |jobs| - 1;
      LongestDecoded(jobs[..n], decoded[..n], stopped, finished);
      LongestMore(Kept(decoded[..n], finished), decoded[n]);
      LongestMore(jobs[..n], jobs[n]);
      assert jobs == jobs[..n] + [jobs[n]];
      KeptOne(decoded, finished);
      hide Kept, LongestOwed;
      assert decoded[n].id !in finished ==> Owed(decoded[n]) < Owed(jobs[n]);
    }
  }

  /** Casualties among the running sequences leave fewer of them. */
  lemma SomeoneLeaves(jobs: seq<Job>, casualties: seq<int>)
    requires casualties != [] && forall x :: x in casualties ==> x in JobIds(jobs)
    ensures Leaving(jobs, Members(casualties)) != [] && |Kept(jobs, Members(casualties))| < |jobs|
  {
    KeptMembers(jobs, Members(casualties));
    var x := casualties[0];
    assert x in casualties;
    var i :| 0 <= i < |jobs| && JobIds(jobs)[i] == x;
    assert jobs[i] in Leaving(jobs, Members(casualties));
  }

  /** `1` for the sequences already extended in this pass, `0` for the rest. */
  function Progress(n: nat, i: nat): (r: seq<nat>)
    ensures |r| == n && forall k :: 0 <= k < n ==> r[k] == if k < i then 1 else 0
  {
    seq(n, k => if k < i then 1 else 0)
  }

  lemma ProgressStart(n: nat)
    ensures Progress(n, 0) == Same(n, 0) && Progress(n, n) == Same(n, 1)
  {
  }

  lemma ReservedKnown(size: nat, total: nat, policy: Policy, order: seq<int>, view: Tables, before: Ledger, s: int,
                      tokens: nat, after: Tables, now: Ledger, outcome: Outcome)
    requires size > 0 && s in view && Reserved(size, total, policy, order, view, before, s, tokens, after, now, outcome)
    ensures outcome != UnknownSequence
  {
  }

  lemma ProgressSteps(n: nat, i: nat)
    requires i < n
    ensures Progress(n, i)[i := Progress(n, i)[i] + 1] == Progress(n, i + 1)
  {
  }

  /** One call of a growth pass: the `k`-th sequence has its token, or is a casualty. */
  lemma PagedExtended(jobs: seq<Job>, estimate: Estimate, gone: set<int>, k: nat, pool: PoolShape, order: seq<int>,
                      before: Cache, after: Cache, outcome: Outcome)
    requires Distinct(JobIds(jobs)) && k < |jobs| && AllTight(before.tables, pool.size)
    requires Paged(jobs, estimate, before.tables, Progress(|jobs|, k), gone)
    requires Extended(pool, order, before, jobs[k].id, after, outcome)
    ensures after.tables.Keys == before.tables.Keys && outcome != UnknownSequence
    ensures Paged(jobs, estimate, after.tables, Progress(|jobs|, k + 1), gone + Members(Lost(jobs[k].id, outcome)))
    ensures forall x :: x in Lost(jobs[k].id, outcome) ==> x in JobIds(jobs)
  {
    var s, extra := jobs[k].id, Progress(|jobs|, k);
    LostHeldBlocks(pool, order, before, s, after, outcome);
    IdAt(jobs, k);
    ProgressSteps(|jobs|, k);
    ReservedKnown(pool.size, pool.total, pool.policy, order, before.tables, before.books, s, 1, after.tables,
                  after.books, outcome);
    hide Reserved, CeilDiv, AllTight, Progress;
    if outcome.Ok() {
      PagedGranted(jobs, estimate, before.tables, extra, gone, k, pool.size, pool.total, pool.policy, order,
                   before.books, after.tables, after.books, outcome);
    } else {
      AdmissionIsExact(pool.size, pool.total, pool.policy, order, before.tables, before.books, s, 1, after.tables,
                       after.books, outcome);
      PagedRefused(jobs, estimate, before.tables, extra, gone, k);
      assert Members([s]) == {s};
    }
  }

  /** `list(dict.fromkeys(s))`: duplicates dropped, first occurrences kept. */
  function Dedup(s: seq<int>): (r: seq<int>)
    ensures forall x :: x in r <==> x in s
    ensures Distinct(r)
  {
    if s == [] then []
    else
      var n := |s| - 1;
      assert s == s[..n] + [s[n]];
      var rest := Dedup(s[..n]);
      if s[n] in rest then rest else rest + [s[n]]
  }

  lemma DedupMembers(s: seq<int>)
    ensures Members(Dedup(s)) == Members(s)
  {
  }

  lemma MemberOf(s: seq<int>, x: int)
    ensures x in Members(s) <==> x in s
  {
  }
}
