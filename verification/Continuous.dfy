/** The continuous batching scheduler: admission, cache growth, decoding and
    retirement between decode steps, over a paged cache.
 */
module Continuous {
  import opened BlockTables
  import opened Common
  import opened EchoRunner
  import opened KvCache
  import opened KvCacheTheorems
  import opened SchedulerBooks
  import opened SchedulerEntries
  import opened SchedulerGrowth
  import opened SchedulerOldest
  import opened SchedulerPaging
  import opened SchedulerQueue
  import opened Sequences

  class ContinuousBatcher {
    const runner: EchoStepwiseRunner
    const maxBatch: nat
    const cache: KVCacheManager?
    const estimate: Estimate
    const hasRejectedCallback: bool
    /** The environment: what arrives just before each look at the queue, and
        whether a request dequeued there is past its deadline. */
    const arrivals: seq<seq<Item>>
    const late: nat -> bool

    var polls: nat
    var queue: seq<Item>
    var deferred: Option<Request>
    var running: seq<Entry>
    var nextId: nat
    var closed: bool
    var stats: ContinuousStats
    /** Every callback made, in order. */
    var log: seq<Settlement>
    ghost var dequeued: seq<Request>
    /** Every item taken off the queue, in order. */
    ghost var taken: seq<Item>
    /** Sequences evicted in the very pass that admitted them, and prefilled after that. */
    ghost var leaked: set<int>

    constructor (runner: EchoStepwiseRunner, maxBatch: nat, cache: KVCacheManager?, estimate: Estimate,
                 hasRejectedCallback: bool, arrivals: seq<seq<Item>>, late: nat -> bool)
      requires maxBatch > 0 && (cache != null ==> cache.Valid() && cache.View() == map[]) && runner.active == {}
      requires forall k :: 0 <= k < |arrivals| ==> Budgeted(arrivals[k])
      ensures Valid() && InOrder() && Seated({})
      ensures this.runner == runner && this.maxBatch == maxBatch && this.cache == cache && this.estimate == estimate
      ensures this.hasRejectedCallback == hasRejectedCallback && this.arrivals == arrivals && this.late == late
      ensures polls == 0 && queue == [] && deferred == None && running == [] && nextId == 1 && !closed
      ensures log == [] && dequeued == [] && taken == [] && leaked == {}
      ensures stats == ContinuousStats(0, 0, 0, 0, 0, 0, 0, 0, 0, 0)
    {
      hide Square, Seats, Paged, Fit, KVCacheManager.Valid, Streamed, JobsOf;
      if cache != null {
        NobodyInOrder(cache);
      }
      this.runner, this.maxBatch, this.cache, this.estimate := runner, maxBatch, cache, estimate;
      this.hasRejectedCallback, this.arrivals, this.late := hasRejectedCallback, arrivals, late;
      polls, queue, deferred, running, nextId, closed := 0, [], None, [], 1, false;
      stats := ContinuousStats(0, 0, 0, 0, 0, 0, 0, 0, 0, 0);
      log, dequeued, taken, leaked := [], [], [], {};
      new;
      NothingYet(stats);
    }

    lemma NothingYet(stats: ContinuousStats)
      requires stats.decodeSteps == stats.occupiedRows == stats.availableRows == stats.maxObservedBatch == 0
      requires stats.completions == stats.preempted == stats.expired == stats.rejected == 0
      requires forall k :: 0 <= k < |arrivals| ==> Budgeted(arrivals[k])
      ensures JobsOf([]) == [] && Square(Terms(), [], None, [], [], 0, stats)
      ensures Seats({}, {}, IdSet([]), {}, 1) && Fit([], 1)
      ensures Paged([], estimate, map[], Same(0, 0), {})
      ensures Streamed(arrivals, 0, [], [], [], false)
    {
      RowsAdd(0, 0, maxBatch);
    }

    ghost function View(): Tables
      reads cache, if cache == null then {} else cache.tables.Values
    {
      if cache == null then map[] else cache.View()
    }

    /** The blocks that are free, if there is a cache. */
    ghost function FreeNow(): nat
      reads cache, if cache == null then {} else {cache.allocator}
    {
      if cache == null then 0 else |cache.allocator.free|
    }

    ghost function BlockTableObjects(): set<SequenceBlockTable>
      reads cache
    {
      if cache == null then {} else set x | x in cache.tables :: cache.tables[x]
    }

    ghost function States(): set<SequenceState>
      reads this`running
    {
      StatesIn(running)
    }

    function Store(): Backing {
      if cache == null then Unbounded else Pooled(cache.blockSize, cache.allocator.total)
    }

    function Terms(): Desk {
      Desk(Store(), estimate, maxBatch)
    }

    /** A request no pool state could ever serve. */
    predicate Impossible(request: Request) {
      TooBig(Store(), estimate, request)
    }

    /** A request whose first extension would be for a sequence the cache never heard of. */
    predicate Doomed(request: Request) {
      Unmeasured(Store(), estimate, request)
    }

    /** Structure: a sound cache that knows sequences in the order of their ids, entries that match their requests. */
    ghost predicate Sane()
      reads this`running, this`nextId, cache, if cache == null then {} else {cache.allocator} + cache.tables.Values
    {
      && (cache != null ==> cache.Valid() && Ascending(cache.admissionOrder))
      && Fit(running, nextId)
      && forall s :: s in View() ==> s < nextId
    }

    ghost predicate Verdicts()
      reads this`deferred, this`log
    {
      && (deferred.Some? ==> Impossible(deferred.value) && deferred.value.maxNewTokens > 0)
      && (runner.stopAfter == map[] ==> forall i :: 0 <= i < |log| ==> !log[i].stopped)
    }

    /** The cache backs exactly the running set, with `extra` tokens each already reserved. */
    ghost predicate Backed(extra: nat, gone: set<int>)
      reads this`running, cache, if cache == null then {} else cache.tables.Values
      reads set i | 0 <= i < |running| :: running[i].state
    {
      cache != null ==> Paged(JobsOf(running), estimate, View(), Same(|running|, extra), gone)
    }

    ghost predicate Accounts(inHand: Option<Request>, stops: nat)
      reads this`running, this`log, this`stats, this`dequeued
      reads set i | 0 <= i < |running| :: running[i].state
    {
      Square(Terms(), dequeued, inHand, log, JobsOf(running), stops, stats)
    }

    /** What holds between any two steps of a scheduler pass, but for where one request in hand is. */
    ghost predicate Steady(inHand: Option<Request>)
      reads this`running, this`nextId, this`deferred, this`log, this`stats, this`dequeued
      reads cache, if cache == null then {} else {cache.allocator} + cache.tables.Values
      reads set i | 0 <= i < |running| :: running[i].state
    {
      && Sane() && maxBatch > 0 && |running| <= maxBatch && Verdicts() && Unspent(running) && Accounts(inHand, 0)
    }

    /** The invariant of the scheduler loop. */
    ghost predicate Valid()
      reads this`running, this`nextId, this`deferred, this`log, this`stats, this`dequeued
      reads cache, if cache == null then {} else {cache.allocator} + cache.tables.Values
      reads set i | 0 <= i < |running| :: running[i].state
    {
      Steady(deferred) && Backed(0, {})
    }

    ghost function RunIds(): set<int>
      reads this`running
      reads set i | 0 <= i < |running| :: running[i].state
    {
      IdSet(JobsOf(running))
    }

    /** The runner has a row for every running sequence, but for those still to be prefilled. */
    ghost predicate Seated(pending: set<int>)
      reads this`running, this`nextId, this`leaked, runner`active
      reads set i | 0 <= i < |running| :: running[i].state
    {
      Seats(runner.active, leaked, RunIds(), pending, nextId)
    }

    /** The queue is first in, first out, loses nothing, and is closed by its sentinel. */
    ghost predicate InOrder()
      reads this`queue, this`polls, this`taken, this`dequeued, this`closed
    {
      Streamed(arrivals, polls, taken, queue, dequeued, closed)
    }

    /** All the work still ahead: the stream of items, the deferred request and the tokens owed. */
    ghost function Load(): nat
      reads this`queue, this`polls, this`deferred, this`running
      reads set i | 0 <= i < |running| :: running[i].state
    {
      Stream(arrivals, queue, polls) + (if deferred.Some? then 1 + deferred.value.maxNewTokens else 0)
      + Remaining(JobsOf(running))
    }

    /** The most steps that anybody running is still owed. */
    ghost function Tail(): nat
      reads this`running
      reads set i | 0 <= i < |running| :: running[i].state
    {
      LongestOwed(JobsOf(running))
    }

    // -------------------------------------------------------------------------
    // Leaving.
    // -------------------------------------------------------------------------

    /** A finished or evicted sequence leaves its row and its blocks, and its caller is told. */
    method LetGo(entry: Entry, kind: Kind)
      requires Sane()
      modifies runner, cache, if cache == null then {} else {cache.allocator}
      modifies this`stats, this`log
      ensures Sane() && View() == old(View()) - {entry.state.sequenceId}
      ensures runner.active == old(runner.active) - {entry.state.sequenceId}
      ensures cache != null ==> cache.tables == old(cache.tables) - {entry.state.sequenceId}
      ensures log == old(log) + [Settlement(entry.request, kind, |entry.state.tokens|, entry.state.stoppedEarly)]
      ensures stats == if kind == Completed then old(stats).(completions := old(stats).completions + 1)
                       else old(stats).(preempted := old(stats).preempted + 1)
    {
      hide KVCacheManager.Valid, Without, Fit, Ascending;
      ghost var view := View();
      runner.Evict(entry.state.sequenceId);
      if cache != null {
        AscendingWithout(cache.admissionOrder, entry.state.sequenceId);
        cache.Release(entry.state.sequenceId);
      }
      assert View() == view - {entry.state.sequenceId};
      if kind == Completed {
        stats := stats.(completions := stats.completions + 1);
      } else {
        stats := stats.(preempted := stats.preempted + 1);
      }
      log := log + [Settlement(entry.request, kind, |entry.state.tokens|, entry.state.stoppedEarly)];
    }

    /** How many settlements of this kind the counters show. */
    function Count(kind: Kind): nat
      reads this`stats
    {
      if kind == Completed then stats.completions else stats.preempted
    }

    /** The first `i` of `jobs` have been looked at: those in `gone` have left, the others are `staying`. */
    ghost predicate Sifted(jobs: seq<Job>, i: nat, gone: set<int>, kind: Kind, stopped: set<int>, view0: Tables,
                           log0: seq<Settlement>, count0: nat, active0: set<int>, staying: seq<Job>)
      reads this`log, this`stats, runner`active, cache, if cache == null then {} else cache.tables.Values
      requires i <= |jobs|
    {
      && Removed(jobs, i, gone, kind, stopped, view0, log0, staying, View(), log, Count(kind) - count0)
      && runner.active == active0 - IdSet(Leaving(jobs[..i], gone))
    }

    /** One entry of a sift: it stays, or it is let go. */
    method Sift(i: nat, leave: bool, kind: Kind, survivors: seq<Entry>, ghost jobs: seq<Job>, ghost gone: set<int>,
                ghost stopped: set<int>, ghost view0: Tables, ghost log0: seq<Settlement>, ghost count0: nat,
                ghost active0: set<int>)
      returns (after: seq<Entry>)
      requires Sane() && i < |running| && jobs == JobsOf(running) && (kind == Completed || kind == Preempted)
      requires leave <==> jobs[i].id in gone
      requires jobs[i].id in stopped <==> running[i].state.stoppedEarly
      requires Sifted(jobs, i, gone, kind, stopped, view0, log0, count0, active0, JobsOf(survivors))
      modifies runner, cache, if cache == null then {} else {cache.allocator}
      modifies this`stats, this`log
      ensures Sane() && JobsOf(running) == jobs
      ensures Sifted(jobs, i + 1, gone, kind, stopped, view0, log0, count0, active0, JobsOf(after))
      ensures after == if leave then survivors else survivors + [running[i]]
      ensures stats == if kind == Completed then old(stats).(completions := stats.completions)
                       else old(stats).(preempted := stats.preempted)
      ensures cache != null ==>
        forall s :: s in cache.tables ==> s in old(cache.tables) && cache.tables[s] == old(cache.tables[s])
    {
      hide KVCacheManager.Valid, JobsOf, Removed, Fit, Kept, Leaving, IdSet;
      var entry := running[i];
      RemovedStep(jobs, i, gone, kind, stopped, view0, log0, JobsOf(survivors), View(), log, Count(kind) - count0);
      KeptStep(jobs, gone, i);
      if leave {
        LetGo(entry, kind);
        after := survivors;
      } else {
        JobsOfMore(survivors, entry);
        after := survivors + [entry];
      }
    }

    /** Whoever is listed leaves the running set, is told so, and gives up row and blocks. */
    method EvictPreempted(preempted: seq<int>)
      requires Sane() && Unspent(running)
      modifies runner, cache, if cache == null then {} else {cache.allocator}
      modifies this`stats, this`log, this`running
      ensures Sane()
      ensures Sifted(old(JobsOf(running)), |old(running)|, Members(preempted), Preempted, {}, old(View()), old(log),
                     old(stats).preempted, old(runner.active), JobsOf(running))
      ensures stats == old(stats).(preempted := stats.preempted)
      ensures cache != null ==>
        forall s :: s in cache.tables ==> s in old(cache.tables) && cache.tables[s] == old(cache.tables[s])
      ensures forall i :: 0 <= i < |running| ==> running[i] in old(running)
    {
      hide KVCacheManager.Valid, JobsOf, Removed, Fit;
      ghost var jobs, gone, view0, log0 := JobsOf(running), Members(preempted), View(), log;
      ghost var count0, active0 := stats.preempted, runner.active;
      var survivors := SiftListed(preempted, jobs);
      SiftAll(jobs, gone, Preempted, {}, view0, log0, count0, active0, JobsOf(survivors));
      FitKept(running, nextId, survivors, gone);
      running := survivors;
    }

    /** The loop of an eviction. */
    method SiftListed(preempted: seq<int>, ghost jobs: seq<Job>) returns (survivors: seq<Entry>)
      requires Sane() && Unspent(running) && jobs == JobsOf(running)
      modifies runner, cache, if cache == null then {} else {cache.allocator}
      modifies this`stats, this`log
      ensures Sane() && JobsOf(running) == jobs
      ensures Sifted(jobs, |running|, Members(preempted), Preempted, {}, old(View()), old(log), old(stats).preempted,
                     old(runner.active), JobsOf(survivors))
      ensures stats == old(stats).(preempted := stats.preempted)
      ensures cache != null ==>
        forall s :: s in cache.tables ==> s in old(cache.tables) && cache.tables[s] == old(cache.tables[s])
      ensures forall k :: 0 <= k < |survivors| ==> survivors[k] in running
    {
      hide KVCacheManager.Valid, JobsOf, Removed, Fit;
      ghost var gone, view0, log0 := Members(preempted), View(), log;
      ghost var count0, active0 := stats.preempted, runner.active;
      survivors := [];
      SiftNone(jobs, gone, Preempted, {});
      for i := 0 to |running|
        invariant Sane() && JobsOf(running) == jobs
        invariant Sifted(jobs, i, gone, Preempted, {}, view0, log0, count0, active0, JobsOf(survivors))
        invariant stats == old(stats).(preempted := stats.preempted)
        invariant cache != null ==>
          forall s :: s in cache.tables ==> s in old(cache.tables) && cache.tables[s] == old(cache.tables[s])
        invariant forall k :: 0 <= k < |survivors| ==> survivors[k] in running
      {
        survivors := Sift(i, running[i].state.sequenceId in preempted, Preempted, survivors, jobs, gone, {},
                          view0, log0, count0, active0);
      }
    }

    lemma SiftNone(jobs: seq<Job>, gone: set<int>, kind: Kind, stopped: set<int>)
      requires kind == Completed || kind == Preempted
      ensures Sifted(jobs, 0, gone, kind, stopped, View(), log, Count(kind), runner.active, JobsOf([]))
    {
      RemovedNone(jobs, gone, kind, stopped, View(), log);
      assert jobs[..0] == [];
    }

    lemma SiftAll(jobs: seq<Job>, gone: set<int>, kind: Kind, stopped: set<int>, view0: Tables,
                  log0: seq<Settlement>, count0: nat, active0: set<int>, staying: seq<Job>)
      requires Sifted(jobs, |jobs|, gone, kind, stopped, view0, log0, count0, active0, staying)
      ensures staying == Kept(jobs, gone) && View() == view0 - IdSet(Leaving(jobs, gone))
      ensures log == log0 + Settled(Leaving(jobs, gone), kind, stopped)
      ensures Count(kind) - count0 == |Leaving(jobs, gone)|
      ensures runner.active == active0 - IdSet(Leaving(jobs, gone))
    {
      RemovedAll(jobs, gone, kind, stopped, view0, log0, staying, View(), log, Count(kind) - count0);
      assert jobs[..|jobs|] == jobs;
    }

    /** Exactly the finished sequences leave, each settled as completed. */
    method Retire()
      requires Sane()
      modifies runner, cache, if cache == null then {} else {cache.allocator}
      modifies this`stats, this`log, this`running
      ensures Sane() && Unspent(running)
      ensures Sifted(old(JobsOf(running)), |old(running)|, old(FinishedIds(running)), Completed, old(Stopped(running)),
                     old(View()), old(log), old(stats).completions, old(runner.active), JobsOf(running))
      ensures stats == old(stats).(completions := stats.completions)
      ensures cache != null ==>
        forall s :: s in cache.tables ==> s in old(cache.tables) && cache.tables[s] == old(cache.tables[s])
      ensures forall i :: 0 <= i < |running| ==> running[i] in old(running)
    {
      hide KVCacheManager.Valid, JobsOf, Removed, Fit, FinishedIds, Stopped;
      ghost var jobs, gone, stopped := JobsOf(running), FinishedIds(running), Stopped(running);
      ghost var view0, log0, count0, active0 := View(), log, stats.completions, runner.active;
      AllMarked(running, nextId);
      var stillRunning := SiftFinished(jobs, gone, stopped);
      assert FinishedIds(running) == gone;
      SiftAll(jobs, gone, Completed, stopped, view0, log0, count0, active0, JobsOf(stillRunning));
      FitKept(running, nextId, stillRunning, gone);
      UnspentKept(running, nextId, stillRunning);
      running := stillRunning;
    }

    /** The loop of a retirement. */
    method SiftFinished(ghost jobs: seq<Job>, ghost gone: set<int>, ghost stopped: set<int>)
      returns (stillRunning: seq<Entry>)
      requires Sane() && jobs == JobsOf(running)
      requires forall i :: 0 <= i < |running| ==>
        && (jobs[i].id in stopped <==> running[i].state.stoppedEarly)
        && (jobs[i].id in gone <==> running[i].state.Finished())
      modifies runner, cache, if cache == null then {} else {cache.allocator}
      modifies this`stats, this`log
      ensures Sane() && JobsOf(running) == jobs
      ensures Sifted(jobs, |running|, gone, Completed, stopped, old(View()), old(log), old(stats).completions,
                     old(runner.active), JobsOf(stillRunning))
      ensures stats == old(stats).(completions := stats.completions)
      ensures cache != null ==>
        forall s :: s in cache.tables ==> s in old(cache.tables) && cache.tables[s] == old(cache.tables[s])
      ensures forall k :: 0 <= k < |stillRunning| ==> stillRunning[k] in running
    {
      hide KVCacheManager.Valid, JobsOf, Removed, Fit;
      ghost var view0, log0, count0, active0 := View(), log, stats.completions, runner.active;
      stillRunning := [];
      SiftNone(jobs, gone, Completed, stopped);
      for i := 0 to |running|
        invariant Sane() && JobsOf(running) == jobs
        invariant Sifted(jobs, i, gone, Completed, stopped, view0, log0, count0, active0, JobsOf(stillRunning))
        invariant stats == old(stats).(completions := stats.completions)
        invariant cache != null ==>
          forall s :: s in cache.tables ==> s in old(cache.tables) && cache.tables[s] == old(cache.tables[s])
        invariant forall k :: 0 <= k < |stillRunning| ==> stillRunning[k] in running
      {
        var leave := running[i].state.Finished();
        stillRunning := Sift(i, leave, Completed, stillRunning, jobs, gone, stopped, view0, log0, count0, active0);
      }
    }

    /** Preempting unfinished sequences, with the accounts kept square. */
    method MakeRoom(preempted: seq<int>, ghost inHand: Option<Request>)
      requires Steady(inHand) && cache != null
      modifies runner, cache, if cache == null then {} else {cache.allocator}
      modifies this`stats, this`log, this`running
      ensures Steady(inHand) && |running| <= |old(running)|
      ensures JobsOf(running) == Kept(old(JobsOf(running)), Members(preempted))
      ensures View() == old(View()) - IdSet(Leaving(old(JobsOf(running)), Members(preempted)))
      ensures runner.active == old(runner.active) - IdSet(Leaving(old(JobsOf(running)), Members(preempted)))
      ensures log == old(log) + Settled(Leaving(old(JobsOf(running)), Members(preempted)), Preempted, {})
      ensures |running| + stats.preempted == |old(running)| + old(stats).preempted
      ensures stats == old(stats).(preempted := stats.preempted)
      ensures cache != null ==>
        forall s :: s in cache.tables ==> s in old(cache.tables) && cache.tables[s] == old(cache.tables[s])
      ensures forall i :: 0 <= i < |running| ==> running[i] in old(running)
    {
      hide KVCacheManager.Valid, JobsOf, Removed, Fit, Square, View, Settled;
      ghost var jobs, gone, view0, log0, stats0 := JobsOf(running), Members(preempted), View(), log, stats;
      ghost var active0, verdicts := runner.active, runner.stopAfter == map[];
      UnspentFacts(running, nextId);
      NoStops(Leaving(jobs, gone));
      KeptSize(jobs, gone);
      EvictPreempted(preempted);
      SiftAll(jobs, gone, Preempted, {}, view0, log0, stats0.preempted, active0, JobsOf(running));
      RemovalSquares(Terms(), dequeued, inHand, jobs, gone, Preempted, {}, view0, log0, JobsOf(running), View(), log,
                     stats.preempted - stats0.preempted, stats0, stats);
      NoneStopped(Leaving(jobs, gone), Preempted);
    }

    lemma NoneStopped(jobs: seq<Job>, kind: Kind)
      ensures forall i :: 0 <= i < |jobs| ==> !Settled(jobs, kind, {})[i].stopped
    {
    }

    // -------------------------------------------------------------------------
    // Joining.
    // -------------------------------------------------------------------------

    /** Asks the cache to hold a new sequence's prompt. Refused exactly when no
        pool state could hold it. */
    method AskCache(id: int, request: Request) returns (outcome: Outcome)
      requires cache != null && Sane() && Backed(0, {}) && id == nextId - 1 && id !in View() && !Doomed(request)
      modifies cache, cache.allocator
      ensures Sane() && outcome.Ok() == !Impossible(request)
      ensures Reserved(cache.blockSize, cache.allocator.total, cache.policy, old(cache.admissionOrder) + [id],
                       old(View())[id := EMPTY], old(cache.Books()), id, estimate(request.prompt), View(),
                       cache.Books(), outcome)
      ensures cache.admissionOrder == old(cache.admissionOrder) + [id]
      ensures !outcome.Ok() ==> View() == old(View())[id := EMPTY]
      ensures outcome.Ok() ==>
        && Paged(JobsOf(running) + [Job(id, request, 0)], estimate, View(), Same(|running| + 1, 0),
                 Members(outcome.preempted))
        && id !in outcome.preempted
      ensures forall x :: x in cache.tables ==>
        fresh(cache.tables[x]) || (x in old(cache.tables) && cache.tables[x] == old(cache.tables[x]))
    {
      hide Reserved, Fit, JobsOf, CeilDiv, Accounted, AllTight;
      ghost var ts, order, before := View(), cache.admissionOrder, cache.Books();
      AscendingMore(cache, id);
      outcome := cache.Admit(id, estimate(request.prompt));
      ghost var asked := ts[id := EMPTY];
      EmptyAdded(ts, id, cache.blockSize);
      AdmissionIsExact(cache.blockSize, cache.allocator.total, cache.policy, order + [id], asked, before, id,
                       estimate(request.prompt), View(), cache.Books(), outcome);
      if outcome.Ok() {
        PagedAdmitted(JobsOf(running), estimate, ts, Job(id, request, 0), cache.blockSize, cache.allocator.total,
                      cache.policy, order + [id], before, View(), cache.Books(), outcome);
      }
    }

    /** The request is over before it ran, whether or not there is anyone to tell. */
    method Reject(request: Request)
      modifies this`stats, this`log, this`nextId
      ensures stats == old(stats).(rejected := old(stats).rejected + 1)
      ensures log == old(log) + [Settlement(request, Rejected, 0, false)]
      ensures nextId == if hasRejectedCallback then old(nextId) else old(nextId) + 1
    {
      stats := stats.(rejected := stats.rejected + 1);
      log := log + [Settlement(request, Rejected, 0, false)];
      if !hasRejectedCallback {
        // Completed with nothing instead, on a state of its own.
        nextId := nextId + 1;
      }
    }

    /** A fresh state under the next id. */
    method NewState(request: Request) returns (state: SequenceState)
      requires Sane() && request.maxNewTokens > 0
      modifies this`nextId
      ensures fresh(state) && Sane()
      ensures state.sequenceId == nextId - 1 && state.sequenceId !in View() && nextId == old(nextId) + 1
      ensures state.prompt == request.prompt && state.maxNewTokens == request.maxNewTokens
      ensures state.tokens == [] && !state.stoppedEarly
      ensures forall i :: 0 <= i < |running| ==> running[i].state.sequenceId < state.sequenceId
    {
      hide KVCacheManager.Valid;
      state := new SequenceState(nextId, request.prompt, request.maxNewTokens);
      nextId := nextId + 1;
    }

    /** After a refusal: an idle scheduler turns the request away, a busy one keeps it for later. */
    method Refuse(request: Request, admitted: seq<SequenceState>) returns (accepted: bool)
      requires Steady(Some(request)) && deferred == None && Impossible(request) && request.maxNewTokens > 0
      requires Backed(0, {}) && (admitted != [] ==> running != [])
      modifies this`stats, this`log, this`nextId, this`deferred
      ensures Valid() && accepted == (running == []) && nextId >= old(nextId)
      ensures accepted ==> deferred == None && log == old(log) + [Settlement(request, Rejected, 0, false)]
      ensures !accepted ==> deferred == Some(request) && log == old(log)
      ensures SameWork(stats, old(stats)) && stats.preempted == old(stats).preempted
      ensures stats.cacheRefusals == old(stats).cacheRefusals + 1
    {
      hide KVCacheManager.Valid, JobsOf, Paged, Square, Fit, View, TooBig, Unspent;
      SaneLater();
      ghost var jobs, stats0 := JobsOf(running), stats;
      stats := stats.(cacheRefusals := stats.cacheRefusals + 1);
      OtherCounters(Terms(), dequeued, Some(request), log, jobs, 0, stats0, stats);
      if running == [] && admitted == [] {
        RefusalSquares(Terms(), dequeued, log, jobs, Settlement(request, Rejected, 0, false), stats,
                       stats.(rejected := stats.rejected + 1));
        Reject(request);
        return true;
      }
      deferred := Some(request);
      return false;
    }

    lemma SaneLater()
      requires Sane()
      ensures Fit(running, nextId + 1) && forall s :: s in View() ==> s < nextId + 1
    {
    }

    /** A sequence whose blocks are reserved joins the running set. */
    method Start(request: Request, state: SequenceState)
      requires Steady(Some(request)) && deferred == None && |running| < maxBatch && request.maxNewTokens > 0
      requires !Impossible(request) && !Doomed(request)
      requires cache != null ==> Paged(JobsOf(running) + [Job(state.sequenceId, request, 0)], estimate, View(),
                                       Same(|running| + 1, 0), {})
      requires state.sequenceId < nextId && state.prompt == request.prompt && state.maxNewTokens == request.maxNewTokens
      requires state.tokens == [] && !state.stoppedEarly
      requires forall i :: 0 <= i < |running| ==> running[i].state.sequenceId < state.sequenceId
      modifies this`running
      ensures Valid() && JobsOf(running) == old(JobsOf(running)) + [Job(state.sequenceId, request, 0)]
      ensures running == old(running) + [Entry(request, state)]
    {
      hide KVCacheManager.Valid, JobsOf, Paged, Square, Fit, View, TooBig, Unmeasured;
      AdmissionSquares(Terms(), dequeued, log, JobsOf(running), Job(state.sequenceId, request, 0), stats);
      JobsOfMore(running, Entry(request, state));
      FitMore(running, nextId, Entry(request, state));
      running := running + [Entry(request, state)];
    }

    /** A request meets the cache, and is started, turned away or put off.

        A request is refused only when it could not be served by the whole pool; it is then
        rejected if nothing is running and deferred otherwise. Any other request is admitted at
        once, at the cost of whoever the cache evicted. `asked` is the cache as it answered. */
    method OfferToCache(request: Request, admitted: seq<SequenceState>)
      returns (accepted: bool, after: seq<SequenceState>, ghost outcome: Outcome, ghost asked: Cache)
      requires Steady(Some(request)) && Backed(0, {}) && deferred == None && request.maxNewTokens > 0
      requires |running| < maxBatch && (admitted != [] ==> running != []) && !Doomed(request)
      modifies runner, cache, if cache == null then {} else {cache.allocator}
      modifies this`stats, this`log, this`running, this`nextId, this`deferred
      ensures Valid() && outcome.Ok() == !Impossible(request)
      ensures fresh(BlockTableObjects() - old(BlockTableObjects())) && fresh(States() - old(States()))
      ensures SameWork(stats, old(stats))
      ensures |running| + stats.preempted + |admitted| == |old(running)| + old(stats).preempted + |after|
      ensures stats.cacheRefusals == old(stats).cacheRefusals + if outcome.Ok() then 0 else 1
      // What the cache was asked, and what it said.
      ensures cache == null ==> outcome == Outcome(Admitted, [])
      ensures cache != null ==>
        && cache.blockSize > 0
        && Reserved(cache.blockSize, cache.allocator.total, cache.policy, old(cache.admissionOrder) + [old(nextId)],
                    old(View())[old(nextId) := EMPTY], old(cache.Books()), old(nextId), estimate(request.prompt),
                    asked.tables, asked.books, outcome)
      // Refused.
      ensures Impossible(request) ==> running == old(running) && after == admitted && nextId > old(nextId)
      ensures Impossible(request) ==> runner.active == old(runner.active) && accepted == (old(running) == [])
      ensures Impossible(request) && accepted ==>
        deferred == None && log == old(log) + [Settlement(request, Rejected, 0, false)]
      ensures Impossible(request) && !accepted ==> deferred == Some(request) && log == old(log)
      // Granted.
      ensures !Impossible(request) ==> accepted && deferred == None && nextId == old(nextId) + 1
      ensures !Impossible(request) ==>
        && running != [] && fresh(running[|running| - 1].state)
        && running[|running| - 1].state.sequenceId == old(nextId)
        && after == admitted + [running[|running| - 1].state]
      ensures !Impossible(request) ==>
        && JobsOf(running) ==
             Kept(old(JobsOf(running)), Members(outcome.preempted)) + [Job(old(nextId), request, 0)]
        && log == old(log) + Settled(Leaving(old(JobsOf(running)), Members(outcome.preempted)), Preempted, {})
        && runner.active ==
             old(runner.active) - IdSet(Leaving(old(JobsOf(running)), Members(outcome.preempted)))
      ensures !Impossible(request) && cache != null && outcome.preempted == [] ==>
        && View() == asked.tables && cache.Books() == asked.books
        && cache.admissionOrder == old(cache.admissionOrder) + [old(nextId)]
    {
      hide KVCacheManager.Valid, JobsOf, Kept, Leaving, Paged, Fit, Square, View, TooBig, Unmeasured, Reserved, Unspent;
      asked := Cache(map[], Ledger([], 0, 0));
      outcome := Outcome(Admitted, []);
      NobodyLeaves(JobsOf(running), log, runner.active);
      StoreFacts(request);
      var state := NewState(request);
      if cache != null {
        var answer;
        answer, asked := ClaimBlocks(request, state.sequenceId);
        outcome := answer;
        if !answer.Ok() {
          accepted := Refuse(request, admitted);
          return accepted, admitted, outcome, asked;
        }
      }
      Start(request, state);
      return true, admitted + [state], outcome, asked;
    }

    /** The cache's answer, and the room it made. */
    method ClaimBlocks(request: Request, id: int) returns (outcome: Outcome, ghost asked: Cache)
      requires Steady(Some(request)) && Backed(0, {}) && cache != null && id == nextId - 1 && id !in View()
      requires !Doomed(request)
      modifies runner, cache, cache.allocator
      modifies this`stats, this`log, this`running
      ensures Steady(Some(request)) && outcome.Ok() == !Impossible(request) && |running| <= |old(running)|
      ensures Reserved(cache.blockSize, cache.allocator.total, cache.policy, old(cache.admissionOrder) + [id],
                       old(View())[id := EMPTY], old(cache.Books()), id, estimate(request.prompt),
                       asked.tables, asked.books, outcome)
      ensures |running| + stats.preempted == |old(running)| + old(stats).preempted
      ensures stats == old(stats).(preempted := stats.preempted)
      ensures forall x :: x in cache.tables ==>
        fresh(cache.tables[x]) || (x in old(cache.tables) && cache.tables[x] == old(cache.tables[x]))
      ensures forall i :: 0 <= i < |running| ==> running[i] in old(running)
      ensures !outcome.Ok() ==> Backed(0, {}) && running == old(running)
      ensures !outcome.Ok() ==> log == old(log) && runner.active == old(runner.active)
      ensures outcome.Ok() ==>
        && Paged(JobsOf(running) + [Job(id, request, 0)], estimate, View(), Same(|running| + 1, 0), {})
        && JobsOf(running) == Kept(old(JobsOf(running)), Members(outcome.preempted))
        && log == old(log) + Settled(Leaving(old(JobsOf(running)), Members(outcome.preempted)), Preempted, {})
        && runner.active ==
             old(runner.active) - IdSet(Leaving(old(JobsOf(running)), Members(outcome.preempted)))
      ensures outcome.Ok() && outcome.preempted == [] ==>
        && View() == asked.tables && cache.Books() == asked.books
        && cache.admissionOrder == old(cache.admissionOrder) + [id]
    {
      hide KVCacheManager.Valid, JobsOf, Kept, Leaving, Paged, Fit, Square, View, TooBig, Unmeasured, Reserved, Unspent;
      ghost var jobs, view, job := JobsOf(running), View(), Job(id, request, 0);
      NobodyLeaves(jobs, log, runner.active);
      outcome := AskCache(id, request);
      asked := Cache(View(), cache.Books());
      if !outcome.Ok() {
        PagedDenied(jobs, estimate, view, Same(|jobs|, 0), {}, id);
        return;
      }
      PagedKept(jobs + [job], estimate, View(), 0, Members(outcome.preempted));
      KeptLast(jobs, Members(outcome.preempted), job);
      if outcome.preempted != [] {
        MakeRoom(outcome.preempted, Some(request));
      } else {
        assert View() == View() - IdSet([]);
      }
    }

    lemma NobodyLeaves(jobs: seq<Job>, log0: seq<Settlement>, active: set<int>)
      ensures Members([]) == {} && Kept(jobs, {}) == jobs && Leaving(jobs, {}) == [] && IdSet([]) == {}
      ensures log0 + Settled([], Preempted, {}) == log0 && active - IdSet([]) == active
    {
      KeptAll(jobs);
      assert Settled([], Preempted, {}) == [];
    }

    lemma StoreFacts(request: Request)
      requires Sane()
      ensures if cache == null then !Impossible(request) && !Doomed(request) else cache.blockSize > 0
    {
    }

    // -------------------------------------------------------------------------
    // The queue.
    // -------------------------------------------------------------------------

    /** What the next look finds: items, and what taking the front one comes to. */
    ghost function Found(): seq<Item>
      reads this`queue, this`polls
    {
      queue + At(arrivals, polls)
    }

    ghost function Front(): Pulled
      reads this`queue, this`polls
    {
      Pull(Found(), late(polls + 1))
    }

    /** A look at the shared queue: whatever arrived meanwhile is there. */
    method Look()
      requires InOrder()
      modifies this`polls, this`queue
      ensures InOrder() && polls == old(polls) + 1 && queue == old(Found())
      ensures Stream(arrivals, queue, polls) ==
        old(Stream(arrivals, queue, polls)) - (if old(polls) < |arrivals| then 1 else 0)
    {
      hide Stream, Streamed;
      StreamFlows(arrivals, queue, polls);
      StreamedMore(arrivals, polls, taken, queue, dequeued, closed);
      assert queue + [] == queue;
      if polls < |arrivals| {
        queue := queue + arrivals[polls];
      }
      polls := polls + 1;
    }

    /** Takes the front item. The sentinel closes the queue. */
    method Take() returns (item: Item)
      requires InOrder() && queue != []
      modifies this`queue, this`taken, this`dequeued, this`closed
      ensures InOrder() && item == old(queue)[0] && queue == old(queue)[1..]
      ensures item.Submitted? ==> item.request.maxNewTokens > 0
      ensures taken == old(taken) + [item]
      ensures dequeued == if item.Submitted? then old(dequeued) + [item.request] else old(dequeued)
      ensures closed == (old(closed) || item == Sentinel)
    {
      hide Streamed;
      StreamedOn(arrivals, polls, taken, queue, dequeued, closed);
      item := queue[0];
      taken, queue := taken + [item], queue[1..];
      if item.Submitted? {
        dequeued := dequeued + [item.request];
      } else {
        closed := true;
      }
    }

    /** A request past its deadline is settled without a state of its own. */
    method Expire(request: Request)
      requires Steady(Some(request)) && Backed(0, {}) && deferred == None
      modifies this`stats, this`log
      ensures Valid()
      ensures log == old(log) + [Settlement(request, Expired, 0, false)]
      ensures stats == old(stats).(expired := old(stats).expired + 1)
    {
      hide KVCacheManager.Valid, JobsOf, Paged, Square, Fit, View, TooBig, Unspent;
      RefusalSquares(Terms(), dequeued, log, JobsOf(running), Settlement(request, Expired, 0, false), stats,
                     stats.(expired := stats.expired + 1));
      stats := stats.(expired := stats.expired + 1);
      log := log + [Settlement(request, Expired, 0, false)];
    }

    /** The next live request off the queue, or why there is none. */
    method Dequeue() returns (pulled: Pulled)
      requires Valid() && InOrder() && deferred == None
      modifies this`queue, this`polls, this`taken, this`dequeued, this`closed, this`stats, this`log
      ensures pulled == old(Front()) && polls == old(polls) + 1
      ensures queue == if old(Found()) == [] then [] else old(Found())[1..]
      ensures InOrder() && deferred == None && closed == (old(closed) || pulled.Closing?)
      ensures if pulled.Live? then Steady(Some(pulled.request)) && Backed(0, {}) && pulled.request.maxNewTokens > 0
              else Valid()
      ensures log == old(log) + if pulled.Dropped? then [Settlement(pulled.request, Expired, 0, false)] else []
      ensures stats == old(stats).(expired := stats.expired)
      ensures Stream(arrivals, queue, polls) + Worth(pulled) <= old(Stream(arrivals, queue, polls))
      ensures pulled.Nothing? && Stream(arrivals, queue, polls) == old(Stream(arrivals, queue, polls)) ==>
        old(polls) >= |arrivals|
      ensures pulled.Live? ==> dequeued != [] && dequeued[|dequeued| - 1] == pulled.request
      ensures old(taken) <= taken && (pulled.Closing? ==> taken == old(taken) + [Sentinel])
    {
      hide KVCacheManager.Valid, JobsOf, Paged, Square, Fit, View, InOrder, Stream, Unspent, TooBig, Sane, Accounts;
      assert log + [] == log;
      pulled := Grab();
      if pulled.Live? && late(polls) {
        Expire(pulled.request);
        pulled := Dropped(pulled.request);
      }
    }

    /** Whatever is at the front of the queue, late or not. */
    method Grab() returns (pulled: Pulled)
      requires Valid() && InOrder() && deferred == None
      modifies this`queue, this`polls, this`taken, this`dequeued, this`closed
      ensures pulled == old(Pull(Found(), false)) && polls == old(polls) + 1
      ensures queue == if old(Found()) == [] then [] else old(Found())[1..]
      ensures InOrder() && closed == (old(closed) || pulled.Closing?)
      ensures if pulled.Live? then Steady(Some(pulled.request)) && Backed(0, {}) && pulled.request.maxNewTokens > 0
              else Valid()
      ensures Stream(arrivals, queue, polls) + Worth(pulled) <= old(Stream(arrivals, queue, polls))
      ensures pulled.Nothing? && Stream(arrivals, queue, polls) == old(Stream(arrivals, queue, polls)) ==>
        old(polls) >= |arrivals|
      ensures pulled.Live? ==> dequeued != [] && dequeued[|dequeued| - 1] == pulled.request
      ensures old(taken) <= taken && (pulled.Closing? ==> taken == old(taken) + [Sentinel])
    {
      hide KVCacheManager.Valid, JobsOf, Paged, Square, Fit, View, InOrder, Stream, Unspent, TooBig, Sane;
      StreamFlows(arrivals, queue, polls);
      Look();
      if queue == [] {
        return Nothing;
      }
      ghost var before := dequeued;
      var item := Take();
      if item == Sentinel {
        return Closing;
      }
      DequeueSquares(Terms(), before, log, JobsOf(running), item.request, stats);
      return Live(item.request);
    }

    /** The deferred request is in hand again. */
    method TakeDeferred() returns (request: Request)
      requires Valid() && deferred.Some?
      modifies this`deferred
      ensures request == old(deferred).value && deferred == None && Impossible(request) && !Doomed(request)
      ensures Steady(Some(request)) && Backed(0, {}) && request.maxNewTokens > 0
    {
      hide KVCacheManager.Valid, JobsOf, Paged, Square, Fit, View, Unspent;
      request := deferred.value;
      deferred := None;
    }

    // -------------------------------------------------------------------------
    // An admission pass.
    // -------------------------------------------------------------------------

    /** What offering a request to the cache did, from jobs and rows `jobs` and `active`. */
    ghost predicate Offered(request: Request, id: int, jobs: seq<Job>, active: set<int>, outcome: Outcome)
      reads this`running, runner`active
      reads set i | 0 <= i < |running| :: running[i].state
    {
      && outcome.Ok() && JobsOf(running) == Kept(jobs, Members(outcome.preempted)) + [Job(id, request, 0)]
      && runner.active == active - IdSet(Leaving(jobs, Members(outcome.preempted)))
    }

    /** What a request offered comes to, from the state the other arguments name. A refused one ends
        the pass and is deferred, or is rejected when nothing runs; a granted one runs under the next id,
        at no cost to anybody if it fits into the `room` that was free. */
    ghost predicate Judged(request: Request, outcome: Outcome, admitted: seq<SequenceState>, stop: bool,
                           after: seq<SequenceState>, entries: seq<Entry>, jobs: seq<Job>, active: set<int>, id: nat,
                           told: seq<Settlement>, room: nat)
      reads this`running, this`deferred, this`nextId, this`log, runner`active
      reads cache, if cache == null then {} else {cache.allocator}
      reads set i | 0 <= i < |running| :: running[i].state
    {
      && outcome.Ok() == !Impossible(request)
      && (!Doomed(request) && Cost(Store(), estimate, request) <= room ==>
            outcome == Outcome(Admitted, []) && FreeNow() == room - Cost(Store(), estimate, request))
      && stop == (!outcome.Ok() && entries != []) && deferred == (if stop then Some(request) else None)
      && (!outcome.Ok() ==>
            && running == entries && after == admitted && runner.active == active && nextId >= id
            && log == told + if stop then [] else [Settlement(request, Rejected, 0, false)])
      && (outcome.Ok() ==>
            && Offered(request, id, jobs, active, outcome)
            && running != [] && after == admitted + [running[|running| - 1].state] && nextId == id + 1
            && running[|running| - 1].state.sequenceId == id)
    }

    /** What a pass finds to do: the deferred request goes first, then the front of the queue decides. */
    ghost function Next(): Fetched
      reads this`deferred, this`queue, this`polls
    {
      if deferred.Some? then Offer(deferred.value)
      else
        match Front()
        case Nothing => Enough
        case Closing => Enough
        case Dropped(_) => Again
        case Live(r) => if Doomed(r) then Raises else Offer(r)
    }

    /** One request considered for a free row; `stop` ends the pass. The thread is bound to raise
        once a doomed request has been taken, so nothing is promised of the pass after that. */
    method Consider(admitted: seq<SequenceState>)
      returns (stop: bool, after: seq<SequenceState>, fetched: Fetched, ghost outcome: Outcome)
      requires Valid() && InOrder() && |running| < maxBatch && (admitted != [] ==> running != [])
      modifies this, runner, cache, if cache == null then {} else {cache.allocator}
      ensures fetched == old(Next()) && leaked == old(leaked)
      ensures fetched == Raises ==> dequeued != [] && Doomed(dequeued[|dequeued| - 1])
      ensures InOrder() && (fetched != Raises ==> Valid() && (after != [] ==> running != []))
      ensures fetched != Raises ==> Load() <= old(Load()) && (!stop ==> Load() < old(Load()))
      ensures fresh(BlockTableObjects() - old(BlockTableObjects())) && fresh(States() - old(States()))
      ensures SameWork(stats, old(stats))
      ensures fetched != Raises ==>
        |running| + stats.preempted + |admitted| == |old(running)| + old(stats).preempted + |after|
      ensures stats.cacheRefusals == old(stats).cacheRefusals + if fetched.Offer? && !outcome.Ok() then 1 else 0
      // The deferred request leaves the queue alone.
      ensures if old(deferred).Some? then queue == old(queue) && polls == old(polls) && closed == old(closed)
              else
                && polls == old(polls) + 1 && queue == (if old(Found()) == [] then [] else old(Found())[1..])
                && closed == (old(closed) || old(Front()).Closing?)
      // With nothing to offer nobody comes or goes.
      ensures !fetched.Offer? ==> stop == (fetched != Again) && after == admitted && deferred == None
      ensures !fetched.Offer? ==>
        && running == old(running) && runner.active == old(runner.active) && nextId == old(nextId)
        && FreeNow() == old(FreeNow())
      ensures fetched == Enough && Load() == old(Load()) ==> queue == [] && old(polls) >= |arrivals|
      ensures old(taken) <= taken && (fetched == Enough ==> queue == [] || taken == old(taken) + [Sentinel])
      ensures Unserved(old(log), log)
      ensures fetched.Offer? ==>
        Judged(fetched.request, outcome, admitted, stop, after, old(running), old(JobsOf(running)),
               old(runner.active), old(nextId), old(log), old(FreeNow()))
    {
      hide Valid, Steady, Backed, InOrder, Load, Judged, FreeNow, Reserved, JobsOf, View, TooBig, Unmeasured, IdSet,
        Kept, Leaving, Settled, KVCacheManager.Valid, Next, Front, Found, Pull;
      outcome := Outcome(Admitted, []);
      fetched := Fetch();
      if fetched.Offer? {
        ghost var asked;
        stop, after, outcome, asked := OfferOne(fetched.request, admitted);
      } else {
        stop, after := fetched != Again, admitted;
      }
    }

    /** A request in hand is offered; work gets less by what was in hand, or the pass ends. */
    method OfferOne(request: Request, admitted: seq<SequenceState>)
      returns (stop: bool, after: seq<SequenceState>, ghost outcome: Outcome, ghost asked: Cache)
      requires Steady(Some(request)) && Backed(0, {}) && deferred == None && request.maxNewTokens > 0
      requires |running| < maxBatch && (admitted != [] ==> running != []) && !Doomed(request)
      modifies runner, cache, if cache == null then {} else {cache.allocator}
      modifies this`stats, this`log, this`running, this`nextId, this`deferred
      ensures Valid() && (after != [] ==> running != []) && outcome.Ok() == !Impossible(request)
      ensures fresh(BlockTableObjects() - old(BlockTableObjects())) && fresh(States() - old(States()))
      ensures SameWork(stats, old(stats))
      ensures |running| + stats.preempted + |admitted| == |old(running)| + old(stats).preempted + |after|
      ensures stats.cacheRefusals == old(stats).cacheRefusals + if outcome.Ok() then 0 else 1
      ensures cache != null ==>
        && cache.blockSize > 0
        && Reserved(cache.blockSize, cache.allocator.total, cache.policy, old(cache.admissionOrder) + [old(nextId)],
                    old(View())[old(nextId) := EMPTY], old(cache.Books()), old(nextId), estimate(request.prompt),
                    asked.tables, asked.books, outcome)
      ensures cache != null && outcome.Ok() && outcome.preempted == [] ==>
        && View() == asked.tables && cache.Books() == asked.books
        && cache.admissionOrder == old(cache.admissionOrder) + [old(nextId)]
      ensures Judged(request, outcome, admitted, stop, after, old(running), old(JobsOf(running)),
                     old(runner.active), old(nextId), old(log), old(FreeNow()))
      ensures Unserved(old(log), log)
      ensures Load() <= old(Load()) + 1 + request.maxNewTokens
      ensures !stop ==> Load() <= old(Load()) + request.maxNewTokens
    {
      hide KVCacheManager.Valid, JobsOf, Kept, Leaving, Paged, Fit, Square, View, Stream, TooBig, Unmeasured,
        Reserved, Unspent, IdSet, Settled, Remaining, Unserved, SameWork;
      ghost var jobs, free, told := JobsOf(running), FreeNow(), log;
      ghost var order, ts, books, id := if cache == null then [] else cache.admissionOrder, View(),
        if cache == null then Ledger([], 0, 0) else cache.Books(), nextId;
      UnspentNow();
      if cache != null {
        FreeBounds();
      }
      assert log + [] == log;
      var accepted;
      accepted, after, outcome, asked := OfferToCache(request, admitted);
      if cache != null && Cost(Store(), estimate, request) <= free {
        NewcomerFits(Shape(), order + [id], ts, books, id, estimate(request.prompt), asked, outcome);
      }
      stop := !accepted;
      Unsettled(told, request, jobs, if outcome.Ok() then Members(outcome.preempted) else {});
      if outcome.Ok() {
        RemainingKept(jobs, Members(outcome.preempted));
        RemainingMore(Kept(jobs, Members(outcome.preempted)), Job(old(nextId), request, 0));
      }
    }

    /** Neither a refusal nor a preemption serves anybody. */
    lemma Unsettled(told: seq<Settlement>, request: Request, jobs: seq<Job>, gone: set<int>)
      ensures Unserved(told, told) && Unserved(told, told + [Settlement(request, Rejected, 0, false)])
      ensures Unserved(told, told + Settled(Leaving(jobs, gone), Preempted, {}))
    {
      SettledKind(Leaving(jobs, gone), Preempted, {});
      hide Leaving, Settled;
    }

    lemma FreeBounds()
      requires Sane() && cache != null
      ensures cache.blockSize > 0 && |cache.allocator.free| <= cache.allocator.total
    {
      var m := cache;
      Conservation(m.allocator.free, m.allocator.references, m.admissionOrder, m.View(), m.allocator.total);
      hide Held, Accounted;
    }

    lemma UnspentNow()
      requires Unspent(running) && Sane()
      ensures var jobs := JobsOf(running);
        forall i :: 0 <= i < |jobs| ==> jobs[i].generated < jobs[i].request.maxNewTokens
    {
      UnspentFacts(running, nextId);
    }

    /** The request to offer next: the deferred one, or the next live one off the queue. */
    method Fetch() returns (fetched: Fetched)
      requires Valid() && InOrder()
      modifies this`queue, this`polls, this`taken, this`dequeued, this`closed, this`stats, this`log, this`deferred
      ensures fetched == old(Next()) && (fetched != Again ==> log == old(log)) && Unserved(old(log), log)
      ensures old(taken) <= taken && (fetched == Enough ==> queue == [] || taken == old(taken) + [Sentinel])
      ensures if old(deferred).Some? then
          && queue == old(queue) && polls == old(polls) && closed == old(closed) && dequeued == old(dequeued)
          && stats == old(stats) && Impossible(fetched.request)
        else
          && polls == old(polls) + 1 && queue == (if old(Found()) == [] then [] else old(Found())[1..])
          && closed == (old(closed) || old(Front()).Closing?)
          && stats == old(stats).(expired := stats.expired)
      ensures InOrder() && deferred == None
      ensures fetched == Raises ==> dequeued != [] && Doomed(dequeued[|dequeued| - 1])
      ensures fetched.Offer? ==>
        && Steady(Some(fetched.request)) && Backed(0, {}) && fetched.request.maxNewTokens > 0
        && !Doomed(fetched.request)
      ensures fetched == Enough || fetched == Again ==> Valid()
      ensures var worth := if fetched.Offer? then 1 + fetched.request.maxNewTokens
                           else if fetched == Again then 1 else 0;
        Load() + worth <= old(Load())
      ensures fetched == Enough && Load() == old(Load()) ==> queue == [] && old(polls) >= |arrivals|
    {
      hide KVCacheManager.Valid, JobsOf, Paged, Square, Fit, View, InOrder, Stream, TooBig, Unmeasured, Unspent,
        Remaining, Verdicts, Accounts, Sane;
      if deferred.Some? {
        var request := TakeDeferred();
        return Offer(request);
      }
      var pulled := Dequeue();
      match pulled
      case Nothing => return Enough;
      case Closing => return Enough;
      case Dropped(_) => return Again;
      case Live(request) => return if Doomed(request) then Raises else Offer(request);
    }

    /** What one request considered does to the rows. */
    lemma SeatsJudged(request: Request, outcome: Outcome, admitted: seq<SequenceState>, stop: bool,
                      after: seq<SequenceState>, entries: seq<Entry>, jobs: seq<Job>, active: set<int>, id: nat,
                      told: seq<Settlement>, room: nat)
      requires Judged(request, outcome, admitted, stop, after, entries, jobs, active, id, told, room)
      requires Seats(active, leaked, IdSet(jobs), RowIds(admitted), id) && Distinct(JobIds(jobs))
      requires (running == entries ==> JobsOf(running) == jobs) && |entries| == |jobs|
      ensures Seated(RowIds(after)) && |after| <= |admitted| + 1
      ensures nextId >= id && forall x :: x in RowIds(after) ==> x in RowIds(admitted) || id <= x < nextId
      ensures !Doomed(request) && Cost(Store(), estimate, request) <= room ==>
        && !stop && deferred == None && |running| == |entries| + 1 && |after| == |admitted| + 1
        && FreeNow() == room - Cost(Store(), estimate, request)
    {
      hide Kept, Leaving, Seats, IdSet, JobsOf, RowIds, Impossible, Settled;
      if outcome.Ok() {
        var gone := Members(outcome.preempted);
        var left := IdSet(Leaving(jobs, gone));
        IdsKept(jobs, gone);
        IdsMore(Kept(jobs, gone), Job(id, request, 0));
        SeatsLeft(active, leaked, IdSet(jobs), RowIds(admitted), id, left);
        SeatsAdmitted(active - left, leaked, IdSet(Kept(jobs, gone)), RowIds(admitted), id);
        RowIdsMore(admitted, running[|running| - 1].state);
        NobodyLeaves(jobs, told, active);
        assert |JobsOf(running)| == |running|;
      } else {
        SeatsLater(active, leaked, IdSet(jobs), RowIds(admitted), id, nextId);
      }
    }

    /** With no cache nothing is ever refused, deferred or doomed. */
    lemma NothingRefused()
      requires Valid()
      ensures maxBatch > 0 && Distinct(JobIds(JobsOf(running)))
      ensures cache == null ==> deferred == None && forall r :: !Impossible(r) && !Doomed(r)
    {
      FitJobs(running, nextId);
    }

    lemma SeatsNow(pending: set<int>)
      requires Seated(pending)
      ensures Seats(runner.active, leaked, IdSet(JobsOf(running)), pending, nextId)
    {
    }

    /** A pass under way, with `admitted` still to be prefilled. */
    ghost predicate Filling(admitted: seq<SequenceState>)
      reads this, runner`active
      reads cache, if cache == null then {} else {cache.allocator} + cache.tables.Values
      reads set i | 0 <= i < |running| :: running[i].state
    {
      && Valid() && InOrder() && Seated(RowIds(admitted)) && (admitted != [] ==> running != [])
    }

    /** How many more a pass with no cache admits. */
    ghost function StillAdmits(admitted: nat): nat
      reads this`queue, this`polls, this`running
    {
      PassAdmits(arrivals, late, queue, polls, |running|, admitted, maxBatch)
    }

    /** Which requests they would be, could all of them start. */
    ghost function StillTakes(admitted: nat): seq<Request>
      reads this`queue, this`polls, this`running
    {
      PassTakes(arrivals, late, queue, polls, |running|, admitted, maxBatch)
    }

    /** What it would leave on the queue. */
    ghost function StillLeaves(admitted: nat): Left
      reads this`queue, this`polls, this`running
    {
      PassLeaves(arrivals, late, queue, polls, |running|, admitted, maxBatch)
    }

    /** All that the pass would still take can start with the blocks that are free. */
    ghost predicate Easy(admitted: nat)
      reads this`deferred, this`queue, this`polls, this`running
      reads cache, if cache == null then {} else {cache.allocator}
    {
      deferred == None && Comfortable(Store(), estimate, StillTakes(admitted), FreeNow())
    }

    /** Why a pass ends: too many have been admitted for its test, a request is put off, or the
        queue had nothing to give, or the sentinel. `seen` items had been taken before. */
    ghost predicate Ended(admitted: nat, seen: nat)
      reads this`running, this`deferred, this`queue, this`taken
    {
      || |running| + admitted >= maxBatch || deferred.Some? || queue == []
      || (|taken| > seen && taken[|taken| - 1] == Sentinel)
    }

    /** One turn of the loop that fills rows. */
    method FillOne(admitted: seq<SequenceState>) returns (stop: bool, after: seq<SequenceState>, raised: bool)
      requires Filling(admitted) && |running| + |admitted| < maxBatch
      modifies this, runner, cache, if cache == null then {} else {cache.allocator}
      ensures leaked == old(leaked) && InOrder()
      ensures raised ==> stop && dequeued != [] && Doomed(dequeued[|dequeued| - 1])
      ensures !raised ==> Filling(after) && Load() <= old(Load()) && (!stop ==> Load() < old(Load()))
      ensures !raised ==> (stop || deferred == None) && (running == [] ==> deferred == None)
      ensures !raised && stop && running == [] ==> Load() < old(Load()) || (queue == [] && polls >= |arrivals|)
      ensures !raised && old(running) != [] ==> running != []
      ensures fresh(BlockTableObjects() - old(BlockTableObjects())) && fresh(States() - old(States()))
      ensures SameWork(stats, old(stats))
      ensures !raised ==>
        |running| + stats.preempted + |admitted| == |old(running)| + old(stats).preempted + |after|
      ensures |after| <= |admitted| + 1 && nextId >= old(nextId)
      ensures forall x :: x in RowIds(after) ==> x in RowIds(admitted) || old(nextId) <= x < nextId
      ensures Unserved(old(log), log) && old(taken) <= taken && (!raised && stop ==> Ended(|after|, |old(taken)|))
      ensures old(Easy(|admitted|)) ==> |after| >= |admitted| && (|after| == |admitted| ==> running == old(running))
      ensures old(Easy(|admitted|)) ==>
        && !raised && |running| - |old(running)| == |after| - |admitted| && (stop || Easy(|after|))
        && |after| + (if stop then 0 else StillAdmits(|after|)) == |admitted| + old(StillAdmits(|admitted|))
        && (if stop then Left(queue, polls) else StillLeaves(|after|)) == old(StillLeaves(|admitted|))
    {
      hide Valid, InOrder, Load, JobsOf, View, TooBig, Unmeasured, IdSet, Kept, Leaving, Settled, PassAdmits, RowIds,
        Impossible, Doomed, Seated, BlockTableObjects, States, Cost, FreeNow, Easy, Turn, StillAdmits, StillLeaves,
        Next, Found;
      ghost var entries, jobs, active, id, told, room :=
        running, JobsOf(running), runner.active, nextId, log, FreeNow();
      ghost var easy, still, found, looks := Easy(|admitted|), StillAdmits(|admitted|), Found(), polls;
      ghost var leaves := StillLeaves(|admitted|);
      NothingRefused();
      SeatsNow(RowIds(admitted));
      if easy {
        PassTurn(|admitted|);
        EasyNow(|admitted|);
        TurnFacts(Next(), found, looks, room, |running|, |admitted|, still, leaves);
      }
      ghost var outcome;
      var fetched;
      stop, after, fetched, outcome := Consider(admitted);
      raised := fetched == Raises;
      if fetched.Offer? {
        SeatsJudged(fetched.request, outcome, admitted, stop, after, entries, jobs, active, id, told, room);
      }
      if easy {
        TurnTaken(fetched, found, looks, room, |entries|, |admitted|, still, leaves, |after|);
      }
    }

    /** What a turn of an easy pass leaves to admit, seen from before it. */
    ghost predicate Turn(fetched: Fetched, found: seq<Item>, looks: nat, room: nat, width: nat, admitted: nat,
                         still: nat, leaves: Left)
    {
      match fetched
      case Enough => still == 0 && leaves == Left(if found == [] then [] else found[1..], looks + 1)
      case Again =>
        && found != [] && leaves == PassLeaves(arrivals, late, found[1..], looks + 1, width, admitted, maxBatch)
        && still == PassAdmits(arrivals, late, found[1..], looks + 1, width, admitted, maxBatch)
        && Comfortable(Store(), estimate,
                       PassTakes(arrivals, late, found[1..], looks + 1, width, admitted, maxBatch), room)
      case Raises => false
      case Offer(r) =>
        && found != [] && !Doomed(r)
        && leaves == PassLeaves(arrivals, late, found[1..], looks + 1, width + 1, admitted + 1, maxBatch)
        && Cost(Store(), estimate, r) <= room
        && still == 1 + PassAdmits(arrivals, late, found[1..], looks + 1, width + 1, admitted + 1, maxBatch)
        && Comfortable(Store(), estimate,
                       PassTakes(arrivals, late, found[1..], looks + 1, width + 1, admitted + 1, maxBatch),
                       room - Cost(Store(), estimate, r))
    }

    lemma PassTurn(admitted: nat)
      requires |running| + admitted < maxBatch && Easy(admitted)
      ensures Turn(Next(), Found(), polls, FreeNow(), |running|, admitted, StillAdmits(admitted), StillLeaves(admitted))
    {
      hide Comfortable, Cost, Unmeasured;
      var front := Front();
      if front.Live? {
        ComfortableHead(Store(), estimate, front.request,
                        PassTakes(arrivals, late, Found()[1..], polls + 1, |running| + 1, admitted + 1, maxBatch),
                        FreeNow());
      }
    }

    lemma TurnFacts(fetched: Fetched, found: seq<Item>, looks: nat, room: nat, width: nat, admitted: nat, still: nat,
                    leaves: Left)
      requires Turn(fetched, found, looks, room, width, admitted, still, leaves)
      ensures fetched != Raises
      ensures fetched.Offer? ==> !Doomed(fetched.request) && Cost(Store(), estimate, fetched.request) <= room
    {
    }

    lemma EasyNow(admitted: nat)
      requires Easy(admitted)
      ensures deferred == None
    {
    }

    /** After such a turn the pass is as easy as before. */
    lemma TurnTaken(fetched: Fetched, found: seq<Item>, looks: nat, room: nat, width: nat, admitted: nat, still: nat,
                    leaves: Left, after: nat)
      requires Turn(fetched, found, looks, room, width, admitted, still, leaves)
      requires queue == (if found == [] then [] else found[1..]) && polls == looks + 1 && deferred == None
      requires if fetched.Offer? then
          && |running| == width + 1 && after == admitted + 1
          && FreeNow() == room - Cost(Store(), estimate, fetched.request)
        else |running| == width && after == admitted && FreeNow() == room
      ensures fetched != Raises && after + (if fetched == Enough then 0 else StillAdmits(after)) == admitted + still
      ensures if fetched == Enough then Left(queue, polls) == leaves else Easy(after) && StillLeaves(after) == leaves
    {
    }

    /** Admits until the loop's test fails or a turn says stop, the deferred request first. The test
        counts each admission twice, in `running` and in `admitted`. */
    method FillRows() returns (admitted: seq<SequenceState>, raised: bool)
      requires Filling([])
      modifies this, runner, cache, if cache == null then {} else {cache.allocator}
      ensures leaked == old(leaked) && InOrder()
      ensures raised ==> dequeued != [] && Doomed(dequeued[|dequeued| - 1])
      ensures !raised ==> Filling(admitted) && Load() <= old(Load()) && (running == [] ==> deferred == None)
      ensures !raised && running == [] ==> Load() < old(Load()) || (queue == [] && polls >= |arrivals|)
      ensures !raised && old(running) != [] ==> running != []
      ensures |admitted| <= maxBatch && nextId >= old(nextId)
      ensures forall x :: x in RowIds(admitted) ==> old(nextId) <= x < nextId
      ensures fresh(BlockTableObjects() - old(BlockTableObjects())) && fresh(States() - old(States()))
      ensures SameWork(stats, old(stats))
      ensures !raised ==>
        |running| + stats.preempted == |old(running)| + old(stats).preempted + |admitted|
      ensures Unserved(old(log), log) && old(taken) <= taken && (!raised ==> Ended(|admitted|, |old(taken)|))
      ensures old(Easy(0)) && admitted == [] ==> running == old(running)
      ensures old(Easy(0)) ==>
        && !raised && |running| == |old(running)| + |admitted| && |admitted| == old(StillAdmits(0))
        && Left(queue, polls) == old(StillLeaves(0))
      ensures cache == null ==> old(Easy(0))
    {
      hide Filling, Load, Doomed, BlockTableObjects, States, StillAdmits, StillLeaves, InOrder, Easy;
      RoomForOne([]);
      EasyWithout();
      ghost var easy, leaves := Easy(0), StillLeaves(0);
      admitted, raised := [], false;
      ghost var tables0, states0, budget := BlockTableObjects(), States(), StillAdmits(0);
      while |running| + |admitted| < maxBatch
        invariant Filling(admitted) && leaked == old(leaked) && Load() <= old(Load()) && !raised
        invariant old(running) != [] ==> running != []
        invariant |admitted| <= maxBatch && nextId >= old(nextId)
        invariant forall x :: x in RowIds(admitted) ==> old(nextId) <= x < nextId
        invariant fresh(BlockTableObjects() - tables0) && fresh(States() - states0)
        invariant SameWork(stats, old(stats))
        invariant |running| + stats.preempted == |old(running)| + old(stats).preempted + |admitted|
        invariant Unserved(old(log), log) && old(taken) <= taken
        invariant easy && admitted == [] ==> running == old(running)
        invariant easy ==>
          && Easy(|admitted|) && |running| == |old(running)| + |admitted|
          && |admitted| + StillAdmits(|admitted|) == budget && StillLeaves(|admitted|) == leaves
        decreases Load()
      {
        ghost var tables1, states1 := BlockTableObjects(), States();
        label before:
        RoomForOne(admitted);
        var stop;
        stop, admitted, raised := FillOne(admitted);
        forall o | o in BlockTableObjects() && o !in tables0 ensures fresh(o) {
          assert o in tables1 || fresh@before(o);
        }
        forall o | o in States() && o !in states0 ensures fresh(o) {
          assert o in states1 || fresh@before(o);
        }
        if stop {
          return;
        }
      }
      RoomForOne(admitted);
    }

    /** With no cache every pass is easy. */
    lemma EasyWithout()
      requires Filling([])
      ensures cache == null ==> Easy(0)
    {
      NothingRefused();
      hide Filling, Comfortable;
      if cache == null {
        NothingCosts(estimate, StillTakes(0));
      }
    }

    lemma RoomForOne(admitted: seq<SequenceState>)
      requires Filling(admitted)
      ensures maxBatch > 0 && InOrder() && (admitted != [] ==> running != [])
      ensures |running| + |admitted| >= maxBatch ==>
        StillAdmits(|admitted|) == 0 && StillLeaves(|admitted|) == Left(queue, polls)
    {
    }

    /** Prefills everything admitted in this pass, evicted again meanwhile or not. */
    method PrefillAdmitted(admitted: seq<SequenceState>)
      requires Filling(admitted) && admitted != []
      modifies this`stats, this`leaked, runner
      ensures Valid() && InOrder() && Seated({}) && Load() == old(Load())
      ensures runner.active == old(runner.active) + RowIds(admitted) && runner.prefills == old(runner.prefills) + 1
      ensures leaked == old(leaked) + (RowIds(admitted) - RunIds())
      ensures stats == old(stats).(admissions := old(stats).admissions + |admitted|)
    {
      hide KVCacheManager.Valid, JobsOf, Paged, Square, Fit, InOrder, RowIds, View, Verdicts, Unspent, Stream,
        Remaining;
      ghost var active := runner.active;
      SeatsPrefilled(active, leaked, RunIds(), RowIds(admitted), nextId);
      runner.Prefill(admitted);
      leaked := leaked + (RowIds(admitted) - RunIds());
      OtherCounters(Terms(), dequeued, deferred, log, JobsOf(running), 0, stats,
                    stats.(admissions := stats.admissions + |admitted|));
      stats := stats.(admissions := stats.admissions + |admitted|);
    }

    /** Where a turn starts from. */
    ghost function Now(): Scene
      reads this, cache, if cache == null then {} else {cache.allocator}
      reads set i | 0 <= i < |running| :: running[i].state
    {
      Scene(stats, log, |taken|, |running|, Tail(), Easy(0), StillAdmits(0), StillLeaves(0))
    }

    /** What an admission pass comes to. */
    ghost predicate Entered(was: Scene, filled: Scene, entered: nat) {
      && SameWork(filled.stats, was.stats.(admissions := was.stats.admissions + entered))
      && filled.width + filled.stats.preempted == was.width + was.stats.preempted + entered
      && Unserved(was.log, filled.log) && was.seen <= filled.seen
      && (was.easy ==>
            filled.width == was.width + entered && entered == was.admits && (entered == 0 ==> filled.tail == was.tail))
    }

    /** An admission pass: free rows are filled, and whoever was admitted is prefilled, with whoever
        of them was evicted again in the same pass. */
    method Admit() returns (raised: bool, ghost admitted: seq<SequenceState>)
      requires Valid() && InOrder() && Seated({})
      modifies this, runner, cache, if cache == null then {} else {cache.allocator}
      ensures InOrder() && (raised ==> dequeued != [] && Doomed(dequeued[|dequeued| - 1]))
      ensures !raised ==> Valid() && Seated({}) && Load() <= old(Load())
      ensures !raised ==> leaked == old(leaked) + (RowIds(admitted) - RunIds())
      ensures !raised && running == [] ==>
        deferred == None && (Load() < old(Load()) || (queue == [] && polls >= |arrivals|))
      ensures !raised && old(running) != [] ==> running != []
      ensures fresh(BlockTableObjects() - old(BlockTableObjects())) && fresh(States() - old(States()))
      ensures !raised ==> Entered(old(Now()), Now(), |admitted|) && Ended(|admitted|, |old(taken)|)
      ensures |admitted| <= maxBatch && nextId >= old(nextId)
      ensures forall x :: x in RowIds(admitted) ==> old(nextId) <= x < nextId
      ensures old(Easy(0)) ==>
        && !raised && |running| == |old(running)| + |admitted| && |admitted| == old(StillAdmits(0))
        && Left(queue, polls) == old(StillLeaves(0))
      ensures cache == null ==> old(Easy(0))
    {
      hide Valid, InOrder, Load, Doomed, BlockTableObjects, States, StillAdmits, StillLeaves, Seated, RunIds, Easy,
        Entered, LongestOwed, Unserved, Ended, JobsOf;
      assert RowIds([]) == {};
      ghost var was := Now();
      var rows;
      rows, raised := FillRows();
      admitted := rows;
      if !raised && rows != [] {
        PrefillAdmitted(rows);
      }
      assert leaked + {} == leaked;
      if !raised {
        PassEntered(was, |rows|);
      }
    }

    lemma PassEntered(was: Scene, entered: nat)
      requires SameWork(stats, was.stats.(admissions := was.stats.admissions + entered))
      requires |running| + stats.preempted == was.width + was.stats.preempted + entered
      requires Unserved(was.log, log) && was.seen <= |taken|
      requires was.easy ==> |running| == was.width + entered && entered == was.admits
      requires was.easy && entered == 0 ==> Tail() == was.tail
      ensures Entered(was, Now(), entered)
    {
      hide Unserved, Tail, Easy;
    }

    // -------------------------------------------------------------------------
    // Growing, decoding, retiring.
    // -------------------------------------------------------------------------

    /** The cache as a value. */
    ghost function CacheNow(): Cache
      requires cache != null
      reads cache, cache.allocator, cache.tables.Values
    {
      Cache(cache.View(), cache.Books())
    }

    function Shape(): PoolShape
      requires cache != null
    {
      PoolShape(cache.blockSize, cache.allocator.total, cache.policy)
    }

    lemma ReadyNow()
      requires cache != null && Sane()
      ensures Ready(Shape(), CacheNow())
    {
      var ts, books := View(), cache.Books();
      forall s | s in ts ensures |ts[s].blocks| + |books.free| <= cache.allocator.total {
        Reach(books.free, cache.allocator.references, cache.admissionOrder, ts, cache.allocator.total, s);
      }
    }

    /** The `i`-th running sequence is extended by a token. It is known to the cache, so the
        call never meets an unknown sequence; refused, the sequence itself is the casualty. */
    method GrowOne(i: nat, ghost gone: set<int>) returns (casualties: seq<int>, ghost outcome: Outcome)
      requires cache != null && Sane() && i < |running|
      requires Paged(JobsOf(running), estimate, View(), Progress(|running|, i), gone)
      modifies cache, cache.allocator, BlockTableObjects()
      ensures Sane() && fresh(BlockTableObjects() - old(BlockTableObjects())) && View().Keys == old(View()).Keys
      ensures cache.admissionOrder == old(cache.admissionOrder)
      ensures Paged(JobsOf(running), estimate, View(), Progress(|running|, i + 1), gone + Members(casualties))
      ensures Extended(Shape(), cache.admissionOrder, old(CacheNow()), running[i].state.sequenceId, CacheNow(), outcome)
      ensures casualties == Lost(running[i].state.sequenceId, outcome)
      ensures forall x :: x in casualties ==> x in JobIds(JobsOf(running))
    {
      hide Reserved, JobsOf, Accounted, AllTight, Fit, Progress;
      FitJobs(running, nextId);
      ghost var before, jobs := CacheNow(), JobsOf(running);
      var id := running[i].state.sequenceId;
      var answer := cache.Extend(id, 1);
      PagedExtended(jobs, estimate, gone, i, Shape(), cache.admissionOrder, before, CacheNow(), answer);
      return if answer.Ok() then answer.preempted else [id], answer;
    }

    /** What a whole pass of extensions asks for, taken before it starts. */
    ghost function StepDemand(): nat
      requires Sane() && Backed(0, {})
      reads this`running, this`nextId, cache, if cache == null then {} else {cache.allocator} + cache.tables.Values
      reads set i | 0 <= i < |running| :: running[i].state
    {
      if cache == null then 0
      else
        RunningKnown();
        Demand(JobIds(JobsOf(running)), View(), cache.blockSize)
    }

    lemma RunningKnown()
      requires Sane() && Backed(0, {}) && cache != null
      ensures cache.blockSize > 0 && Known(JobIds(JobsOf(running)), View()) && Distinct(JobIds(JobsOf(running)))
    {
      FitJobs(running, nextId);
    }

    /** What the cache looks like before a pass, under newest first. */
    lemma StageNow()
      requires Valid() && cache != null && cache.policy == Newest
      ensures Stage(Shape(), cache.admissionOrder, CacheNow(), JobIds(JobsOf(running)))
    {
      var jobs := JobsOf(running);
      FitJobs(running, nextId);
      RunningKnown();
      LevelNow();
      Measured(jobs);
      hide Square, Level, Ascending, Fit, JobsOf;
      HoldersRun(jobs, estimate, View(), cache.blockSize);
    }

    lemma LevelNow()
      requires cache != null && cache.Valid() && cache.policy == Newest && Ascending(cache.admissionOrder)
      ensures Level(Shape(), cache.admissionOrder, CacheNow())
    {
      var m := cache;
      OrderKnown(m.allocator.free, m.allocator.references, m.admissionOrder, m.View(), m.allocator.total);
      Conservation(m.allocator.free, m.allocator.references, m.admissionOrder, m.View(), m.allocator.total);
      hide Accounted, Held, Lists, Ascending;
    }

    lemma Measured(jobs: seq<Job>)
      requires cache != null && Square(Terms(), dequeued, deferred, log, jobs, 0, stats)
      ensures forall i :: 0 <= i < |jobs| ==> estimate(jobs[i].request.prompt) > 0
    {
      hide Partitioned, WorkDone, Honoured;
      forall i | 0 <= i < |jobs| ensures estimate(jobs[i].request.prompt) > 0 {
        assert Servable(Store(), estimate, jobs[i].request);
      }
    }

    /** Whether a whole pass of extensions is going to cost the oldest running sequence, under newest first. */
    ghost predicate OldestLeaves()
      requires Sane() && Backed(0, {})
      reads this`running, this`nextId, cache, if cache == null then {} else {cache.allocator} + cache.tables.Values
      reads set i | 0 <= i < |running| :: running[i].state
    {
      cache != null &&
      (RunningKnown();
       OldestGoes(JobIds(JobsOf(running)), View(), cache.blockSize, |cache.allocator.free|))
    }

    /** What any pass of extensions will do to the oldest. */
    lemma OldestAhead()
      requires Valid()
      ensures cache != null && cache.policy == Newest && running != [] ==>
        forall casualties: seq<int>, grown: Cache ::
          GrowthPass(Shape(), cache.admissionOrder, CacheNow(), JobIds(JobsOf(running)), casualties, grown) ==>
            (running[0].state.sequenceId in casualties <==> OldestLeaves())
    {
      if cache != null && cache.policy == Newest && running != [] {
        StageNow();
        hide Stage, OldestGoes, GrowthPass, Valid, Sane;
        forall casualties: seq<int>, grown: Cache |
          GrowthPass(Shape(), cache.admissionOrder, CacheNow(), JobIds(JobsOf(running)), casualties, grown)
          ensures running[0].state.sequenceId in casualties <==> OldestLeaves()
        {
          OldestLostExactly(Shape(), cache.admissionOrder, CacheNow(), JobIds(JobsOf(running)), casualties, grown);
        }
      }
    }

    /** The loop of a reservation: every running sequence is extended, the casualties of earlier calls included. */
    method GrowAll() returns (casualties: seq<int>)
      requires cache != null && Valid()
      modifies cache, cache.allocator, BlockTableObjects()
      ensures Sane() && fresh(BlockTableObjects() - old(BlockTableObjects()))
      ensures Paged(JobsOf(running), estimate, View(), Same(|running|, 1), Members(casualties))
      ensures GrowthPass(Shape(), old(cache.admissionOrder), old(CacheNow()), JobIds(JobsOf(running)), casualties,
                         CacheNow())
      ensures forall x :: x in casualties ==> x in JobIds(JobsOf(running))
      ensures casualties == [] <==> old(StepDemand()) <= |old(cache.allocator.free)|
      ensures cache.policy == Newest && running != [] ==>
        (running[0].state.sequenceId in casualties <==> old(OldestLeaves()))
    {
      hide KVCacheManager.Valid, JobsOf, Paged, Fit, Progress, Extended, GrowthPass, Lost, Demand, Ready,
        BlockTableObjects, OldestLeaves, Square, Ascending, Unspent, Verdicts;
      OldestAhead();
      ghost var n, jobs, order, start := |running|, JobsOf(running), cache.admissionOrder, CacheNow();
      ghost var tables0 := BlockTableObjects();
      casualties := [];
      assert Members([]) == {};
      ProgressStart(n);
      ReadyNow();
      RunningKnown();
      PassStart(Shape(), order, start, jobs);
      for i := 0 to |running|
        invariant Sane() && fresh(BlockTableObjects() - tables0) && cache.admissionOrder == order
        invariant Paged(jobs, estimate, View(), Progress(n, i), Members(casualties))
        invariant GrowthPass(Shape(), order, start, JobIds(jobs)[..i], casualties, CacheNow())
        invariant forall x :: x in casualties ==> x in JobIds(jobs)
      {
        ghost var tables1, before := BlockTableObjects(), CacheNow();
        label before:
        var more;
        ghost var outcome;
        more, outcome := GrowOne(i, Members(casualties));
        PassMore(Shape(), order, start, JobIds(jobs)[..i], casualties, before, jobs[i].id, CacheNow(), outcome);
        assert JobIds(jobs)[..i + 1] == JobIds(jobs)[..i] + [jobs[i].id];
        assert Members(casualties + more) == Members(casualties) + Members(more);
        casualties := casualties + more;
        forall o | o in BlockTableObjects() && o !in tables0 ensures fresh(o) {
          assert o in tables1 || fresh@before(o);
        }
      }
      assert JobIds(jobs)[..n] == JobIds(jobs);
      PassLosesNobody(Shape(), order, start, JobIds(jobs), casualties, CacheNow());
    }

    lemma PassStart(pool: PoolShape, order: seq<int>, start: Cache, jobs: seq<Job>)
      ensures GrowthPass(pool, order, start, JobIds(jobs)[..0], [], start)
    {
    }

    /** Who a whole pass of extensions costs, and what is left. */
    ghost predicate Pruned(entries: seq<Entry>, jobs: seq<Job>, told: seq<Settlement>, active: set<int>,
                           casualties: seq<int>)
      reads this`running, this`log, runner`active
      reads set i | 0 <= i < |running| :: running[i].state
    {
      && JobsOf(running) == Kept(jobs, Members(casualties))
      && log == told + Settled(Leaving(jobs, Members(casualties)), Preempted, {})
      && runner.active == active - IdSet(Leaving(jobs, Members(casualties)))
      && (if casualties == [] then running == entries else |running| < |entries|)
    }

    lemma SeatsPruned(entries: seq<Entry>, jobs: seq<Job>, told: seq<Settlement>, active: set<int>,
                      casualties: seq<int>)
      requires Pruned(entries, jobs, told, active, casualties) && Distinct(JobIds(jobs))
      requires Seats(active, leaked, IdSet(jobs), {}, nextId)
      ensures Seated({})
    {
      hide Kept, Leaving, Seats, IdSet, JobsOf, Settled;
      IdsKept(jobs, Members(casualties));
      SeatsLeft(active, leaked, IdSet(jobs), {}, nextId, IdSet(Leaving(jobs, Members(casualties))));
    }

    /** The casualties of a pass leave, and those who stay have a token reserved. */
    method Prune(lost: seq<int>)
      requires cache != null && Steady(deferred) && InOrder() && Seated({})
      requires Paged(JobsOf(running), estimate, View(), Same(|running|, 1), Members(lost))
      requires forall x :: x in lost ==> x in JobIds(JobsOf(running))
      modifies runner, cache, cache.allocator
      modifies this`stats, this`log, this`running
      ensures Steady(deferred) && Backed(1, {}) && InOrder() && Seated({}) && (running == [] ==> Valid())
      ensures |running| + stats.preempted == |old(running)| + old(stats).preempted
      ensures stats == old(stats).(preempted := stats.preempted)
      ensures View() == old(View()) - IdSet(Leaving(old(JobsOf(running)), Members(lost)))
      ensures forall s :: s in cache.tables ==> s in old(cache.tables) && cache.tables[s] == old(cache.tables[s])
      ensures Pruned(old(running), old(JobsOf(running)), old(log), old(runner.active), lost)
      ensures Load() <= old(Load()) && (lost != [] ==> Load() < old(Load()))
      ensures forall i :: 0 <= i < |running| ==> running[i] in old(running)
    {
      hide KVCacheManager.Valid, JobsOf, Paged, Square, Fit, InOrder, Kept, Leaving, Remaining, Unspent, IdSet, Seats,
        Stream, Settled, Verdicts, Members, Dedup, JobIds, Ascending;
      ghost var jobs, entries, told, active := JobsOf(running), running, log, runner.active;
      FitJobs(running, nextId);
      NobodyLeaves(jobs, log, runner.active);
      PagedKept(jobs, estimate, View(), 1, Members(lost));
      if lost != [] {
        UnspentNow();
        RemainingKept(jobs, Members(lost));
        SomeoneLeaves(jobs, lost);
        DedupMembers(lost);
        MakeRoom(Dedup(lost), deferred);
      } else {
        assert View() == View() - IdSet([]);
      }
      assert Same(0, 0) == Same(0, 1);
      SeatsPruned(entries, jobs, told, active, lost);
    }

    /** A whole pass of extensions. Each running sequence gets its token, or leaves: evicted for
        another, or itself refused. Nobody leaves exactly when the blocks the pass asks for are
        free before it starts. */
    method ReserveStep() returns (ghost casualties: seq<int>, ghost grown: Cache)
      requires Valid() && InOrder() && Seated({})
      modifies runner, cache, if cache == null then {} else {cache.allocator}
      modifies BlockTableObjects()
      modifies this`stats, this`log, this`running
      ensures Steady(deferred) && Backed(1, {}) && InOrder() && Seated({}) && (running == [] ==> Valid())
      ensures fresh(BlockTableObjects() - old(BlockTableObjects())) && fresh(States() - old(States()))
      ensures |running| + stats.preempted == |old(running)| + old(stats).preempted
      ensures stats == old(stats).(preempted := stats.preempted)
      ensures cache == null ==> casualties == []
      ensures cache != null ==>
        && GrowthPass(Shape(), old(cache.admissionOrder), old(CacheNow()), old(JobIds(JobsOf(running))), casualties,
                      grown)
        && View() == grown.tables - IdSet(Leaving(old(JobsOf(running)), Members(casualties)))
        && (casualties == [] <==> old(StepDemand()) <= |old(cache.allocator.free)|)
      ensures cache != null && cache.policy == Newest && old(running) != [] ==>
        (old(running)[0] in running <==> !old(OldestLeaves()))
      ensures Pruned(old(running), old(JobsOf(running)), old(log), old(runner.active), casualties)
      ensures Load() <= old(Load()) && (casualties != [] ==> Load() < old(Load()))
      ensures forall i :: 0 <= i < |running| ==> running[i] in old(running)
    {
      hide KVCacheManager.Valid, JobsOf, Paged, Square, Fit, InOrder, Kept, Leaving, GrowthPass, StepDemand, Remaining,
        Unspent, IdSet, Seats, Stream, Settled, Verdicts, Members, OldestLeaves, JobIds, Ascending;
      ghost var jobs, entries := JobsOf(running), running;
      casualties, grown := [], Cache(map[], Ledger([], 0, 0));
      NobodyLeaves(jobs, log, runner.active);
      if cache == null {
        return;
      }
      var lost := GrowAll();
      casualties, grown := lost, CacheNow();
      Prune(lost);
      SubStates(entries, running);
      OldestStays(entries, jobs, lost);
    }

    lemma OldestStays(entries: seq<Entry>, jobs: seq<Job>, lost: seq<int>)
      requires Fit(entries, nextId) && jobs == JobsOf(entries) && JobsOf(running) == Kept(jobs, Members(lost))
      requires forall i :: 0 <= i < |running| ==> running[i] in entries
      ensures entries != [] ==> (entries[0] in running <==> entries[0].state.sequenceId !in lost)
    {
      if entries != [] {
        StaysBy(entries, nextId, running, Members(lost), 0);
        MemberOf(lost, entries[0].state.sequenceId);
      }
    }

    /** What holds between a decode step and the retirement after it. */
    ghost predicate Due()
      reads this`running, this`nextId, this`deferred, this`log, this`stats, this`dequeued
      reads cache, if cache == null then {} else {cache.allocator} + cache.tables.Values
      reads set i | 0 <= i < |running| :: running[i].state
    {
      && Sane() && maxBatch > 0 && |running| <= maxBatch && Verdicts() && Backed(0, FinishedIds(running))
      && Shown(running) && Stopped(running) <= FinishedIds(running)
      && (runner.stopAfter == map[] ==> Stopped(running) == {})
      && Accounts(deferred, Stops(JobsOf(running), Stopped(running)))
    }

    /** Every running sequence takes its token, or its end marker. */
    method DecodeAll()
      requires Fit(running, nextId) && Unspent(running)
      modifies runner, States()
      ensures Decoded(old(JobsOf(running)), JobsOf(running), Stopped(running))
      ensures Stopped(running) <= FinishedIds(running) && Shown(running)
      ensures runner.stopAfter == map[] ==> Stopped(running) == {}
      ensures runner.active == old(runner.active)
    {
      hide Decoded, Stopped, FinishedIds;
      ghost var jobs := JobsOf(running);
      var states := StatesOf(running);
      DistinctStates();
      runner.DecodeStep(states);
      forall i | 0 <= i < |running|
        ensures runner.Stepped(running[i].state.prompt, false, old(running[i].state.tokens), false,
                               running[i].state.tokens, running[i].state.stoppedEarly)
      {
        assert states[i] == running[i].state;
      }
      DecodedBy(running, nextId, jobs);
      NobodyStopped();
    }

    lemma DistinctStates()
      requires Fit(running, nextId)
      ensures forall i, j :: 0 <= i < j < |running| ==> running[i].state != running[j].state
    {
    }

    lemma NobodyStopped()
      ensures (forall i :: 0 <= i < |running| ==> !running[i].state.stoppedEarly) ==> Stopped(running) == {}
    {
    }

    /** A decode step, with the accounts and the cache still square. */
    method Step()
      requires Steady(deferred) && Backed(1, {}) && running != []
      modifies runner, States(), this`stats
      ensures Due() && runner.active == old(runner.active)
      ensures Decoded(old(JobsOf(running)), JobsOf(running), Stopped(running))
      ensures stats == old(stats).(decodeSteps := old(stats).decodeSteps + 1,
                                   occupiedRows := old(stats).occupiedRows + |running|,
                                   availableRows := old(stats).availableRows + maxBatch,
                                   maxObservedBatch := Max(old(stats).maxObservedBatch, |running|))
    {
      hide KVCacheManager.Valid, JobsOf, Paged, Square, Stops, Decoded, Fit, FinishedIds, Stopped, View, Shown,
        Unspent, Verdicts;
      ghost var jobs := JobsOf(running);
      DecodeAll();
      CountStep(jobs);
    }

    /** The counters of one decode step, and what it did to the accounts. */
    method CountStep(ghost jobs: seq<Job>)
      requires |running| <= maxBatch && |jobs| == |running| && Decoded(jobs, JobsOf(running), Stopped(running))
      requires cache != null ==> Paged(jobs, estimate, View(), Same(|jobs|, 1), {})
      requires Square(Terms(), dequeued, deferred, log, jobs, 0, stats) && Stopped(running) <= FinishedIds(running)
      modifies this`stats
      ensures Backed(0, FinishedIds(running)) && Accounts(deferred, Stops(JobsOf(running), Stopped(running)))
      ensures stats == old(stats).(decodeSteps := old(stats).decodeSteps + 1,
                                   occupiedRows := old(stats).occupiedRows + |running|,
                                   availableRows := old(stats).availableRows + maxBatch,
                                   maxObservedBatch := Max(old(stats).maxObservedBatch, |running|))
    {
      hide KVCacheManager.Valid, JobsOf, Paged, Square, Stops, Decoded, FinishedIds, Stopped, View;
      ghost var stats0 := stats;
      var width := |running|;
      stats := stats.(decodeSteps := stats.decodeSteps + 1, occupiedRows := stats.occupiedRows + width,
                      availableRows := stats.availableRows + maxBatch,
                      maxObservedBatch := if stats.maxObservedBatch > width then stats.maxObservedBatch else width);
      DecodeSquares(Terms(), dequeued, deferred, log, jobs, JobsOf(running), Stopped(running), stats0, stats);
      if cache != null {
        PagedDecoded(jobs, JobsOf(running), estimate, View(), Stopped(running), FinishedIds(running));
      }
    }

    /** Finished sequences leave, with the accounts kept square. */
    method RetireFinished()
      requires Due()
      modifies runner, cache, if cache == null then {} else {cache.allocator}
      modifies this`stats, this`log, this`running
      ensures Valid() && stats == old(stats).(completions := stats.completions)
      ensures |running| + stats.completions == |old(running)| + old(stats).completions
      ensures log == old(log) + Settled(Leaving(old(JobsOf(running)), old(FinishedIds(running))), Completed,
                                        old(Stopped(running)))
      ensures |log| + old(stats).completions == |old(log)| + stats.completions
      ensures JobsOf(running) == Kept(old(JobsOf(running)), old(FinishedIds(running)))
      ensures runner.active == old(runner.active) - IdSet(Leaving(old(JobsOf(running)), old(FinishedIds(running))))
      ensures BlockTableObjects() <= old(BlockTableObjects()) && States() <= old(States())
    {
      hide KVCacheManager.Valid, JobsOf, Paged, Square, Stops, Removed, Fit, FinishedIds, Stopped, Shown, Settled, Kept,
        Leaving, IdSet, View;
      ghost var entries, jobs, gone, stopped := running, JobsOf(running), FinishedIds(running), Stopped(running);
      ghost var view0, log0, stats0, active0 := View(), log, stats, runner.active;
      ShownHonoured(running, nextId);
      StopsLeave(jobs, stopped, gone);
      KeptSize(jobs, gone);
      NoneStopped(Leaving(jobs, gone), Completed);
      Retire();
      SiftAll(jobs, gone, Completed, stopped, view0, log0, stats0.completions, active0, JobsOf(running));
      RemovalSquares(Terms(), dequeued, deferred, jobs, gone, Completed, stopped, view0, log0, JobsOf(running), View(),
                     log, stats.completions - stats0.completions, stats0, stats);
      if cache != null {
        PagedKept(jobs, estimate, view0, 0, gone);
      }
      SubStates(entries, running);
    }

    /** A step and the retirement after it use up a token's worth of work for everyone who ran. */
    method StepAndRetire() returns (ghost served: seq<Settlement>)
      requires Steady(deferred) && Backed(1, {}) && InOrder() && Seated({}) && running != []
      modifies runner, States(), cache, if cache == null then {} else {cache.allocator}
      modifies this`stats, this`log, this`running
      ensures Valid() && InOrder() && Seated({}) && Load() < old(Load()) && Tail() < old(Tail())
      ensures stats == old(stats).(decodeSteps := old(stats).decodeSteps + 1,
                                   occupiedRows := old(stats).occupiedRows + |old(running)|,
                                   availableRows := old(stats).availableRows + maxBatch,
                                   maxObservedBatch := Max(old(stats).maxObservedBatch, |old(running)|),
                                   completions := stats.completions)
      ensures |running| + |served| == |old(running)| && stats.completions == old(stats).completions + |served|
      ensures log == old(log) + served && Alike(served, Completed)
      ensures BlockTableObjects() <= old(BlockTableObjects()) && States() <= old(States())
    {
      hide Valid, Steady, Backed, Due, InOrder, JobsOf, Decoded, FinishedIds, Stopped, Kept, Leaving, Remaining, IdSet,
        BlockTableObjects, Seats, Stream, Max, Sane, Fit, View, LongestOwed, Settled, Alike;
      ghost var jobs, active := JobsOf(running), runner.active;
      StepFacts();
      UnspentNow();
      Step();
      ghost var decoded, stopped, finished := JobsOf(running), Stopped(running), FinishedIds(running);
      DecodedIds(jobs, decoded, stopped);
      DueFacts();
      RemainingDecoded(jobs, decoded, stopped, finished);
      LongestDecoded(jobs, decoded, stopped, finished);
      RetireFinished();
      served := Settled(Leaving(decoded, finished), Completed, stopped);
      SettledKind(Leaving(decoded, finished), Completed, stopped);
      IdsKept(decoded, finished);
      SeatsLeft(active, leaked, IdSet(jobs), {}, nextId, IdSet(Leaving(decoded, finished)));
    }

    lemma StepFacts()
      requires Steady(deferred)
      ensures Unspent(running) && Sane() && Distinct(JobIds(JobsOf(running)))
    {
      FitJobs(running, nextId);
    }

    lemma DueFacts()
      requires Due()
      ensures Stopped(running) <= FinishedIds(running)
    {
    }

    /** `queue.empty()` on the shared queue. */
    method Peek()
      requires Valid() && InOrder() && Seated({})
      modifies this`polls, this`queue
      ensures Valid() && InOrder() && Seated({}) && queue == old(Found()) && polls == old(polls) + 1
      ensures Load() == old(Load()) - (if old(polls) < |arrivals| then 1 else 0)
      ensures BlockTableObjects() == old(BlockTableObjects()) && States() == old(States())
    {
      hide KVCacheManager.Valid, JobsOf, Paged, Square, Fit, InOrder, Stream, Remaining, Unspent, Seats;
      Look();
    }

    /** An idle thread returns if it has seen the sentinel and then finds nothing queued. */
    method Returns() returns (done: bool)
      requires Valid() && InOrder() && Seated({})
      modifies this`polls, this`queue
      ensures Valid() && InOrder() && Seated({}) && Load() <= old(Load())
      ensures Left(queue, polls) == old(Left(queue, polls)) || Left(queue, polls) == old(Left(Found(), polls + 1))
      ensures BlockTableObjects() == old(BlockTableObjects()) && States() == old(States())
      ensures done ==> closed && queue == []
      ensures old(queue) == [] && old(polls) >= |arrivals| && Sentinel in Arrived(arrivals, |arrivals|) ==> done
    {
      hide Valid, InOrder, Load, Seated, BlockTableObjects, States;
      Drained();
      done := false;
      if closed {
        Peek();
        done := queue == [];
      }
    }

    /** With everything that will ever arrive gone through, the sentinel has been seen. */
    lemma Drained()
      requires InOrder()
      ensures queue == [] && polls >= |arrivals| ==> (closed <==> Sentinel in Arrived(arrivals, |arrivals|))
    {
      if queue == [] && polls >= |arrivals| {
        ArrivedAll(arrivals, polls);
        assert taken + [] == taken;
      }
    }

    /** A step was paid for with those it lost, taken by all the others, and the finished among them left. */
    ghost predicate Worked(was: Scene, round: Round)
      reads this`stats, this`log, this`running
      reads set i | 0 <= i < |running| :: running[i].state
    {
      && stats == was.stats.(decodeSteps := was.stats.decodeSteps + if round.width > 0 then 1 else 0,
                             occupiedRows := was.stats.occupiedRows + round.width,
                             availableRows := was.stats.availableRows + if round.width > 0 then maxBatch else 0,
                             maxObservedBatch := Max(was.stats.maxObservedBatch, round.width),
                             completions := was.stats.completions + |round.served|,
                             preempted := was.stats.preempted + |round.lost|)
      && round.width + |round.lost| == was.width && |running| + |round.served| == round.width
      && log == was.log + round.lost + round.served && Alike(round.lost, Preempted) && Alike(round.served, Completed)
      && (round.width > 0 ==> Tail() < was.tail) && (cache == null ==> round.lost == [])
    }

    /** A step is paid for, taken by whoever was not lost to it, and whoever finished is handed back. */
    method Work() returns (ghost round: Round)
      requires Valid() && InOrder() && Seated({}) && running != []
      modifies runner, cache, if cache == null then {} else {cache.allocator}
      modifies BlockTableObjects(), States()
      modifies this`stats, this`log, this`running
      ensures Valid() && InOrder() && Seated({}) && Load() < old(Load())
      ensures fresh(BlockTableObjects() - old(BlockTableObjects())) && fresh(States() - old(States()))
      ensures Worked(old(Now()), round)
    {
      hide Valid, InOrder, Steady, Backed, BlockTableObjects, Load, Seated, StepDemand, GrowthPass, JobsOf, Settled,
        Alike, Leaving, Members, Max, Worked, Pruned, OldestLeaves, LongestOwed;
      ghost var tables0, states0, entries, was := BlockTableObjects(), States(), running, Now();
      ghost var jobs, active := JobsOf(running), runner.active;
      ghost var casualties, grown := ReserveStep();
      ghost var lost, paid := Settled(Leaving(jobs, Members(casualties)), Preempted, {}), Now();
      Losses(was, entries, jobs, active, casualties);
      SubStates(entries, running);
      ghost var served := [];
      if running != [] {
        served := StepAndRetire();
      }
      StepWorked(was, paid, lost, served);
      round := Round(paid.width, lost, served);
    }

    /** Whoever a step costs is told so, and nobody is owed more for it. */
    lemma Losses(was: Scene, entries: seq<Entry>, jobs: seq<Job>, active: set<int>, casualties: seq<int>)
      requires Pruned(entries, jobs, was.log, active, casualties)
      requires was.width == |jobs| && was.tail == LongestOwed(jobs)
      requires stats == was.stats.(preempted := stats.preempted)
      requires |running| + stats.preempted == was.width + was.stats.preempted
      ensures Paid(was, Now(), Settled(Leaving(jobs, Members(casualties)), Preempted, {}))
      ensures casualties == [] ==> Settled(Leaving(jobs, Members(casualties)), Preempted, {}) == []
    {
      KeptSize(jobs, Members(casualties));
      LongestKept(jobs, Members(casualties));
      NobodyLeaves(jobs, was.log, active);
    }

    /** A step that is paid for, at the cost of `lost`. */
    ghost predicate Paid(was: Scene, paid: Scene, lost: seq<Settlement>) {
      && paid.stats == was.stats.(preempted := was.stats.preempted + |lost|) && paid.width + |lost| == was.width
      && paid.log == was.log + lost && Alike(lost, Preempted) && paid.tail <= was.tail
    }

    /** A step taken by all that are left. */
    lemma StepWorked(was: Scene, paid: Scene, lost: seq<Settlement>, served: seq<Settlement>)
      requires Paid(was, paid, lost) && (cache == null ==> lost == [])
      requires if paid.width == 0 then running == [] && served == [] && log == paid.log && stats == paid.stats
        else
          && stats == paid.stats.(decodeSteps := paid.stats.decodeSteps + 1,
                                  occupiedRows := paid.stats.occupiedRows + paid.width,
                                  availableRows := paid.stats.availableRows + maxBatch,
                                  maxObservedBatch := Max(paid.stats.maxObservedBatch, paid.width),
                                  completions := paid.stats.completions + |served|)
          && |running| + |served| == paid.width && Tail() < paid.tail
          && log == paid.log + served && Alike(served, Completed)
      ensures Worked(was, Round(paid.width, lost, served))
    {
      hide Tail;
    }

    /** What one turn comes to. Everybody who ran or was admitted is preempted or takes part in its one
        step; whoever took part is still running or completed. Its callbacks are those of the admission
        pass, then of the step's casualties, then of the finished. If anybody is there for a step, the
        pass ended for a reason. A pass that is easy admits all it can, and without a cache all are,
        and nobody is preempted. */
    ghost predicate Turned(was: Scene, round: Round)
      reads this
      reads set i | 0 <= i < |running| :: running[i].state
    {
      && stats.decodeSteps == was.stats.decodeSteps + (if round.width > 0 then 1 else 0)
      && stats.occupiedRows == was.stats.occupiedRows + round.width
      && stats.availableRows == was.stats.availableRows + (if round.width > 0 then maxBatch else 0)
      && stats.maxObservedBatch == Max(was.stats.maxObservedBatch, round.width)
      && stats.completions == was.stats.completions + |round.served| && |running| + |round.served| == round.width
      && round.width + stats.preempted + was.stats.admissions == was.width + was.stats.preempted + stats.admissions
      && |round.lost| + |round.served| <= |log|
      && Unserved(was.log, log[..|log| - |round.lost| - |round.served|])
      && log == log[..|log| - |round.lost| - |round.served|] + round.lost + round.served
      && Alike(round.lost, Preempted) && Alike(round.served, Completed)
      && was.stats.admissions <= stats.admissions
      && (round.width + |round.lost| > 0 ==>
            || round.width + |round.lost| + (stats.admissions - was.stats.admissions) >= maxBatch
            || deferred.Some? || queue == [] || (|taken| > was.seen && taken[|taken| - 1] == Sentinel))
      && (was.easy ==>
            && stats.admissions == was.stats.admissions + was.admits
            && (round.width > 0 && was.admits == 0 ==> Tail() < was.tail)
            && (Left(queue, polls) == was.leaves
                || (round.width == 0
                    && Left(queue, polls) ==
                         Left(was.leaves.queue + At(arrivals, was.leaves.polls), was.leaves.polls + 1))))
      && (cache == null ==> was.easy && round.lost == [] && round.width == was.width + was.admits)
    }

    /** An admission pass and the work after it make a turn. */
    lemma TurnsOut(was: Scene, filled: Scene, round: Round, entered: nat)
      requires Entered(was, filled, entered) && Worked(filled, round) && (cache == null ==> was.easy)
      requires filled.width > 0 ==>
        || filled.width + entered >= maxBatch || deferred.Some? || queue == []
        || (|taken| > was.seen && taken[|taken| - 1] == Sentinel)
      requires was.easy ==>
        || Left(queue, polls) == was.leaves
        || (round.width == 0
            && Left(queue, polls) == Left(was.leaves.queue + At(arrivals, was.leaves.polls), was.leaves.polls + 1))
      ensures Turned(was, round) && (round.width > 0 ==> Tail() < filled.tail)
    {
      hide Alike, Tail, Unserved;
      assert filled.log + round.lost + round.served == filled.log + (round.lost + round.served);
      assert log[..|log| - |round.lost| - |round.served|] == filled.log;
    }

    lemma NobodyWorks(was: Scene)
      requires running == [] && was.width == 0 && was.log == log && was.stats == stats
      ensures Worked(was, Round(0, [], []))
    {
    }

    /** One turn of the scheduler loop; `done` when the thread returns. */
    method RunPass() returns (done: bool, raised: bool, ghost round: Round)
      requires Valid() && InOrder() && Seated({})
      modifies this, runner, cache, if cache == null then {} else {cache.allocator}
      modifies BlockTableObjects(), States()
      ensures InOrder() && (raised ==> !done && dequeued != [] && Doomed(dequeued[|dequeued| - 1]))
      ensures !raised ==> Valid() && Seated({})
      ensures fresh(BlockTableObjects() - old(BlockTableObjects())) && fresh(States() - old(States()))
      ensures done ==> running == [] && deferred == None && closed && queue == []
      ensures !raised && !done && Sentinel in Arrived(arrivals, |arrivals|) ==> Load() < old(Load())
      ensures !raised ==> Turned(old(Now()), round) && (round.width > 0 ==> Tail() < LongestAsked())
      ensures old(Easy(0)) ==> !raised
    {
      hide Valid, InOrder, BlockTableObjects, States, Load, Seated, Doomed, StillAdmits, StillLeaves, Easy, Tail,
        Unserved, Alike, Max, LongestAsked, Turned, Worked, Entered, At, Arrived, RowIds, RunIds;
      ghost var tables0, states0, was := BlockTableObjects(), States(), Now();
      ghost var admitted;
      done, round := false, Round(0, [], []);
      raised, admitted := Admit();
      if raised {
        return;
      }
      ghost var tables1, states1, filled := BlockTableObjects(), States(), Now();
      if running == [] {
        done := Returns();
        NobodyWorks(filled);
        TurnsOut(was, filled, round, |admitted|);
        return;
      }
      TailAsked();
      label admitted:
      round := Work();
      TurnsOut(was, filled, round, |admitted|);
      forall o | o in BlockTableObjects() && o !in tables0 ensures fresh(o) {
        assert o in tables1 || fresh@admitted(o);
      }
      forall o | o in States() && o !in states0 ensures fresh(o) {
        assert o in states1 || fresh@admitted(o);
      }
    }

    /** The largest budget that ever arrives. */
    ghost function LongestAsked(): nat {
      LongestBudget(Requests(Arrived(arrivals, |arrivals|)))
    }

    /** Whatever was taken off the queue had arrived. */
    lemma AskedBefore()
      requires InOrder()
      ensures forall r :: r in dequeued ==> r in Requests(Arrived(arrivals, |arrivals|))
    {
      if polls <= |arrivals| {
        ArrivedMore(arrivals, polls, |arrivals|);
      } else {
        ArrivedAll(arrivals, polls);
      }
      var all := Arrived(arrivals, |arrivals|);
      assert all == taken + all[|taken|..];
      RequestsJoin(taken, all[|taken|..]);
    }

    lemma JobTaken(i: nat)
      requires Valid() && i < |running|
      ensures JobsOf(running)[i].request in dequeued
    {
      var r := JobsOf(running)[i].request;
      assert JobRequests(JobsOf(running))[i] == r;
      assert r in multiset(JobRequests(JobsOf(running)));
      assert r in multiset(dequeued);
    }

    /** Nobody running is owed more than that. */
    lemma TailAsked()
      requires Valid() && InOrder()
      ensures Tail() <= LongestAsked()
    {
      var all, jobs := Requests(Arrived(arrivals, |arrivals|)), JobsOf(running);
      LongestBudgetBounds(all);
      AskedBefore();
      forall i | 0 <= i < |jobs| ensures jobs[i].request.maxNewTokens <= LongestAsked() {
        JobTaken(i);
      }
      hide Valid, InOrder, Requests, Arrived, JobsOf, LongestBudget;
      LongestBound(jobs, LongestAsked());
    }

    /** Everything that will ever arrive is there at the next look, and no deadline is missed. */
    ghost predicate AllThere()
      reads this`queue, this`polls
    {
      Gathered(arrivals, late, queue, polls)
    }

    /** Steps taken since all of that was there, `busy` of them at least half full. */
    ghost predicate Pacing(found: seq<Item>, looks: nat, tail: nat, busy: nat, steps: nat, rows: nat) {
      && Gathered(arrivals, late, found, looks)
      && OnPace(busy, steps, rows, Backlog(arrivals, found, looks), tail, LongestAsked(), CeilDiv(maxBatch, 2))
    }

    /** All but so many steps as the largest budget are half full at least. */
    ghost predicate InTime(steps: nat, rows: nat) {
      steps <= LongestAsked() || Rows(steps - LongestAsked(), CeilDiv(maxBatch, 2)) <= rows
    }

    /** What a turn knows of the scene it starts from. */
    ghost predicate Began(was: Scene, found: seq<Item>, looks: nat, tail: nat) {
      && maxBatch > 0 && was.width <= maxBatch && was.tail == tail <= LongestAsked() && (cache == null ==> was.easy)
      && was.admits == PassAdmits(arrivals, late, found, looks, was.width, 0, maxBatch)
      && was.leaves == PassLeaves(arrivals, late, found, looks, was.width, 0, maxBatch)
    }

    lemma TurnStart()
      requires Valid() && InOrder() && Seated({})
      ensures Began(Now(), queue, polls, Tail()) && Now().stats == stats && Now().easy == Easy(0)
      ensures cache == null ==> Easy(0)
      ensures AllThere() ==> Pacing(queue, polls, Tail(), 0, 0, 0)
      ensures InTime(0, 0)
    {
      hide InOrder, Seated, LongestAsked, Tail, Gathered, Backlog, Easy;
      TailAsked();
      RowsAdd(0, 0, CeilDiv(maxBatch, 2));
      assert RowIds([]) == {};
      EasyWithout();
    }

    /** A turn leaves a request waiting only when its step is at least half full. */
    lemma TurnPaced(was: Scene, round: Round, found: seq<Item>, looks: nat, tail: nat, busy: nat, steps: nat,
                    rows: nat)
      returns (after: nat)
      requires Turned(was, round) && cache == null && Began(was, found, looks, tail)
      requires round.width > 0 ==> Tail() < LongestAsked()
      requires Pacing(found, looks, tail, busy, steps, rows)
      ensures var more := if round.width > 0 then 1 else 0;
        && Pacing(queue, polls, Tail(), after, steps + more, rows + round.width)
        && InTime(steps + more, rows + round.width)
    {
      hide Unserved, Alike, LongestAsked, PassAdmits, PassLeaves, LiveAhead, OnPace, Gathered, Backlog;
      PassGathered(arrivals, late, found, looks, was.width, 0, maxBatch);
      HalfFull(arrivals, late, found, looks, was.width, maxBatch);
      AllLive(arrivals, late, found, looks);
      FrontGathered(arrivals, late, was.leaves.queue, was.leaves.polls);
      PaceKept(busy, steps, rows, Backlog(arrivals, found, looks), tail, LongestAsked(), CeilDiv(maxBatch, 2),
               round.width, was.admits, Backlog(arrivals, queue, polls), Tail());
      after := if round.width >= CeilDiv(maxBatch, 2) then busy + 1 else busy;
      PaceTold(after, steps + (if round.width > 0 then 1 else 0), rows + round.width,
               Backlog(arrivals, queue, polls), Tail(), LongestAsked(), CeilDiv(maxBatch, 2));
    }

    /** How a turn moves the counters of steps and rows. */
    lemma TurnCounts(was: Scene, round: Round)
      requires Turned(was, round)
      ensures stats.decodeSteps == was.stats.decodeSteps + (if round.width > 0 then 1 else 0)
      ensures stats.occupiedRows == was.stats.occupiedRows + round.width
    {
      hide Unserved, Alike;
    }

    /** The scheduler thread, for as many turns as `passes` allows. Once the sentinel is on its way
        the thread needs no more turns than it has work ahead, or it dies of a doomed request. With
        everything there from the start and no cache, all but so many steps as the largest budget
        are at least half full. */
    method Run(passes: nat) returns (returned: bool, raised: bool, ghost steps: nat, ghost rows: nat)
      requires Valid() && InOrder() && Seated({})
      modifies this, runner, cache, if cache == null then {} else {cache.allocator}
      modifies BlockTableObjects(), States()
      ensures InOrder() && (!raised ==> Valid() && Seated({}))
      ensures returned ==> !raised && running == [] && deferred == None && closed && queue == []
      ensures raised ==> exists r :: r in Requests(Arrived(arrivals, polls)) && Doomed(r)
      ensures Sentinel in Arrived(arrivals, |arrivals|) && passes > old(Load()) ==> returned || raised
      ensures cache == null ==> !raised
      ensures !raised ==>
        && stats.decodeSteps == old(stats).decodeSteps + steps && stats.occupiedRows == old(stats).occupiedRows + rows
        && (cache == null && old(AllThere()) ==> InTime(steps, rows))
    {
      hide Valid, InOrder, BlockTableObjects, States, Load, Seated, Doomed, Pacing, InTime, Turned, Began, Tail, Now,
        Easy, At, Arrived, AllThere, LongestAsked, Requests;
      ghost var tables0, states0, busy, there := BlockTableObjects(), States(), 0, cache == null && AllThere();
      returned, raised, steps, rows := false, false, 0, 0;
      TurnStart();
      for i := 0 to passes
        invariant Valid() && InOrder() && Seated({}) && !returned && !raised
        invariant fresh(BlockTableObjects() - tables0) && fresh(States() - states0)
        invariant Sentinel in Arrived(arrivals, |arrivals|) ==> Load() + i <= old(Load())
        invariant stats.decodeSteps == old(stats).decodeSteps + steps
        invariant stats.occupiedRows == old(stats).occupiedRows + rows
        invariant there ==> Pacing(queue, polls, Tail(), busy, steps, rows) && InTime(steps, rows)
      {
        ghost var tables1, states1, was := BlockTableObjects(), States(), Now();
        ghost var found, looks, tail := queue, polls, Tail();
        label before:
        TurnStart();
        ghost var round;
        returned, raised, round := RunPass();
        if raised {
          DoomedArrived();
          return;
        }
        TurnCounts(was, round);
        if there {
          busy := TurnPaced(was, round, found, looks, tail, busy, steps, rows);
        }
        steps, rows := steps + (if round.width > 0 then 1 else 0), rows + round.width;
        if returned {
          return;
        }
        forall o | o in BlockTableObjects() && o !in tables0 ensures fresh(o) {
          assert o in tables1 || fresh@before(o);
        }
        forall o | o in States() && o !in states0 ensures fresh(o) {
          assert o in states1 || fresh@before(o);
        }
      }
    }

    lemma DoomedArrived()
      requires InOrder() && dequeued != [] && Doomed(dequeued[|dequeued| - 1])
      ensures exists r :: r in Requests(Arrived(arrivals, polls)) && Doomed(r)
    {
      RequestsJoin(taken, queue);
      var r := dequeued[|dequeued| - 1];
      assert r in Requests(taken);
    }

    // -------------------------------------------------------------------------
    // What the invariant comes to.
    // -------------------------------------------------------------------------

    /** Only running sequences hold blocks, each exactly its estimate plus a token per
        decode step taken; so with nobody running the whole pool is free. */
    lemma CacheAgrees(i: nat)
      requires Valid() && cache != null
      ensures i < |running| ==> running[i].state.sequenceId in View()
      ensures i < |running| ==>
        View()[running[i].state.sequenceId].tokens == estimate(running[i].request.prompt) + |running[i].state.tokens|
      ensures forall s :: s in View() && View()[s] != EMPTY ==>
        exists k :: 0 <= k < |running| && running[k].state.sequenceId == s
      ensures running == [] ==> |cache.allocator.free| == cache.allocator.total
    {
      hide KVCacheManager.Valid, Square;
      forall s | s in View() && View()[s] != EMPTY
        ensures exists k :: 0 <= k < |running| && running[k].state.sequenceId == s
      {
        var ids := JobIds(JobsOf(running));
        assert s in ids;
        var k :| 0 <= k < |ids| && ids[k] == s;
        assert running[k].state.sequenceId == s;
      }
      if running == [] {
        NoBlockLostWhenIdle();
      }
    }

    lemma NoBlockLostWhenIdle()
      requires cache != null && cache.Valid() && forall s :: s in View() ==> View()[s] == EMPTY
      ensures |cache.allocator.free| == cache.allocator.total
    {
      hide Held, Owned, Tight;
      Conservation(cache.allocator.free, cache.allocator.references, cache.admissionOrder, View(),
                   cache.allocator.total);
      IdleHoldsNothing(cache.admissionOrder, View());
    }

    /** The runner has a row for exactly the running sequences, unless one was ever evicted in the
        pass that admitted it. */
    lemma RowsAgree()
      requires Valid() && Seated({})
      ensures RunIds() <= runner.active
      ensures runner.active == RunIds() <==> leaked == {}
    {
    }

    /** Nobody is served who could not be, and nobody rejected who could. */
    lemma JustVerdicts(i: nat)
      requires Valid() && i < |log|
      ensures log[i].kind == Rejected ==> Impossible(log[i].request)
      ensures log[i].kind == Completed || log[i].kind == Preempted ==>
        !Impossible(log[i].request) && !Doomed(log[i].request)
      ensures log[i].kind == Preempted ==> cache != null
      ensures forall k :: 0 <= k < |running| ==> !Impossible(running[k].request) && !Doomed(running[k].request)
    {
      hide KVCacheManager.Valid, Partitioned, WorkDone, Honoured, TooBig;
      forall k | 0 <= k < |running| ensures !Impossible(running[k].request) && !Doomed(running[k].request) {
        assert JobsOf(running)[k].request == running[k].request;
      }
    }

    /** Every counter of departures agrees with the callbacks made. */
    lemma CountersAgree()
      requires Valid()
      ensures stats.completions == HowMany(log, Completed) && stats.preempted == HowMany(log, Preempted)
      ensures stats.expired == HowMany(log, Expired) && stats.rejected == HowMany(log, Rejected)
      ensures stats.completions + stats.preempted + stats.expired + stats.rejected == |log|
      ensures |dequeued| == |log| + |running| + (if deferred.Some? then 1 else 0)
    {
      hide Sane, Verdicts, Unspent, Backed, WorkDone, Honoured, Fair, HowMany;
      HowManyInAll(log);
      assert |dequeued| == |multiset(dequeued)|;
      assert |LogRequests(log)| == |log| && |JobRequests(JobsOf(running))| == |running|;
    }

    /** When the scheduler thread returns, everything that ever arrived was settled exactly once. */
    lemma SettledExactlyOnce()
      requires Valid() && InOrder() && running == [] && deferred == None && queue == []
      ensures multiset(LogRequests(log)) == multiset(Requests(Arrived(arrivals, polls)))
    {
      assert taken + queue == taken;
      assert JobRequests(JobsOf(running)) == [];
    }
  }

  // ---------------------------------------------------------------------------
  // Work is conserved.
  // ---------------------------------------------------------------------------

  /** The tokens a list of requests asked for. */
  function TotalBudget(log: seq<Settlement>): nat {
    if log == [] then 0 else TotalBudget(log[..|log| - 1]) + log[|log| - 1].request.maxNewTokens
  }

  lemma {:induction false} WorkIsBudget(log: seq<Settlement>)
    requires Honoured(log) && forall i :: 0 <= i < |log| ==> log[i].kind == Completed && !log[i].stopped
    ensures LogWork(log) == TotalBudget(log)
  {
    if log == [] {
    } else {
      WorkIsBudget(log[..|log| - 1]);
    }
  }

  /** With no cache, no deadline missed and no early stop, every request gets its whole budget,
      the occupied rows are the tokens asked for, and no schedule takes fewer steps than the
      work spread over full batches, or than the longest request. */
  lemma WorkConserved(b: ContinuousBatcher)
    requires b.Valid() && b.running == [] && b.cache == null && b.runner.stopAfter == map[]
    requires forall i :: 0 <= i < |b.log| ==> b.log[i].kind != Expired
    ensures b.stats.occupiedRows == TotalBudget(b.log)
    ensures forall i :: 0 <= i < |b.log| ==>
      b.log[i].tokens == b.log[i].request.maxNewTokens && b.stats.decodeSteps >= b.log[i].request.maxNewTokens
    ensures b.stats.decodeSteps >= CeilDiv(TotalBudget(b.log), b.maxBatch)
    ensures b.stats.maxObservedBatch <= b.maxBatch
  {
    assert forall i :: 0 <= i < |b.log| ==> b.log[i].kind == Completed;
    WorkIsBudget(b.log);
    assert JobWork(JobsOf(b.running)) == 0;
    hide LogWork, JobWork, Rows;
    StepsCover(b.stats.decodeSteps, b.maxBatch, TotalBudget(b.log));
  }

  /** Work that fits the rows of so many steps needs no more than those steps. */
  lemma StepsCover(steps: nat, width: nat, work: nat)
    requires width > 0 && work <= Rows(steps, width)
    ensures CeilDiv(work, width) <= steps
  {
    CeilDivBounds(work, width);
    RowsAdd(steps, 1, width);
    hide CeilDiv;
    MulCancel(CeilDiv(work, width), steps + 1, width);
  }
}
