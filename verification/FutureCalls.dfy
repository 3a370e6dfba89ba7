/** What a caller of the engine is told, and what it then may rely on, whatever other threads do. */
module FutureCalls {
  import opened Common
  import opened Futures

  // `submit` and `shutdown`.

  /** What a step put on the queue. */
  function Added(before: seq<int>, after: seq<int>): seq<int> {
    if before <= after then after[|before|..] else []
  }

  /** What the steps of thread `t` put on the queue from state `j` to state `k`. */
  ghost function QueuedBy(states: seq<State>, actions: seq<Action>, t: int, j: nat, k: nat): seq<int>
    requires |states| == |actions| + 1 && j <= k <= |actions|
    decreases k
  {
    if j == k then []
    else
      QueuedBy(states, actions, t, j, k - 1)
      + if actions[k - 1].t == t then Added(states[k - 1].queue, states[k].queue) else []
  }

  /** The batcher found no room for thread `t` since step `j`. */
  ghost predicate NoRoom(actions: seq<Action>, t: int, j: nat, k: nat)
    requires k <= |actions|
  {
    exists i :: j < i < k && actions[i] == Enqueue(t, false)
  }

  /** A thread in the middle of a `submit` of request `id`, or back from it: it has the future if and
      only if it queued the request, once; if refused it has taken the future back, for a reason. */
  predicate SubmitSays(pc: Pc, id: int, put: seq<int>, inMap: bool, reason: bool) {
    match pc
    case Checked(x) => x == id && put == []
    case Registered(x) => x == id && put == []
    case Passed(x) => x == id && put == []
    case Refused(x) => x == id && put == [] && reason
    case Free(said) => if said == Handed(id) then put == [id] else said == Refusal && put == [] && !inMap && reason
    case _ => false
  }

  lemma SubmitStarts(s: State, a: Action)
    requires Sound(s) && Enabled(s, a) && a.Submit?
    ensures var r := Apply(s, a);
      && a.t in r.threads
      && SubmitSays(r.threads[a.t], s.next, Added(s.queue, r.queue), s.next in r.futures, r.closed || r.stopping)
  {
    hide OwedOnce, NoneLost, IdsApart, WorkersBehind, Gate, DoneIds, Attempts;
  }

  lemma SubmitGoesOn(s: State, a: Action, id: int, put: seq<int>, noRoom: bool)
    requires Enabled(s, a) && !s.threads[a.t].Free?
    requires SubmitSays(s.threads[a.t], id, put, id in s.futures, s.closed || s.stopping || noRoom)
    ensures var r := Apply(s, a);
      && a.t in r.threads
      && SubmitSays(r.threads[a.t], id, put + Added(s.queue, r.queue), id in r.futures,
                    r.closed || r.stopping || noRoom || a == Enqueue(a.t, false))
  {
    hide DoneIds, Attempts;
  }

  lemma SubmitWaits(s: State, a: Action, t: int, id: int, put: seq<int>, noRoom: bool)
    requires Enabled(s, a) && t in s.threads && t != a.t && !s.threads[t].Free?
    requires SubmitSays(s.threads[t], id, put, id in s.futures, s.closed || s.stopping || noRoom)
    ensures var r := Apply(s, a);
      && t in r.threads
      && SubmitSays(r.threads[t], id, put, id in r.futures, r.closed || r.stopping || noRoom)
  {
    hide DoneIds, Attempts;
  }

  /** `submit` returns a future exactly when it has queued the request, once. It refuses only an
      engine that is closed or stopping or whose queue had no room for it, and then the request is
      not queued and its future is out of the map again. */
  lemma {:induction false} SubmitTellsTheTruth(states: seq<State>, actions: seq<Action>, j: nat, k: nat)
    requires Run(states, actions) && j < k <= |actions| && actions[j].Submit?
    requires forall i :: j < i < k ==> actions[j].t in states[i].threads && !states[i].threads[actions[j].t].Free?
    ensures var t, id := actions[j].t, states[j].next;
      && t in states[k].threads
      && SubmitSays(states[k].threads[t], id, QueuedBy(states, actions, t, j, k), id in states[k].futures,
                    states[k].closed || states[k].stopping || NoRoom(actions, t, j, k))
    decreases k
  {
    hide SubmitSays, Apply, Added, Enabled, Sound, Init;
    var t, id := actions[j].t, states[j].next;
    assert Enabled(states[k - 1], actions[k - 1]) && states[k] == Apply(states[k - 1], actions[k - 1]);
    var more := Added(states[k - 1].queue, states[k].queue);
    if k == j + 1 {
      RunSound(states, actions, j);
      SubmitStarts(states[j], actions[j]);
      assert [] + more == more;
      assert !NoRoom(actions, t, j, k);
    } else {
      SubmitTellsTheTruth(states, actions, j, k - 1);
      var put, noRoom := QueuedBy(states, actions, t, j, k - 1), NoRoom(actions, t, j, k - 1);
      if actions[k - 1].t == t {
        SubmitGoesOn(states[k - 1], actions[k - 1], id, put, noRoom);
        assert NoRoom(actions, t, j, k) <==> noRoom || actions[k - 1] == Enqueue(t, false);
      } else {
        SubmitWaits(states[k - 1], actions[k - 1], t, id, put, noRoom);
        assert put + [] == put;
        assert NoRoom(actions, t, j, k) <==> noRoom;
      }
    }
  }

  /** A thread in the middle of a `shutdown`, or back from it; `first` if the engine was open then. */
  predicate ShutdownSays(s: State, pc: Pc, first: bool) {
    match pc
    case Closing => first
    case Draining => s.closed
    case Halting => s.closed
    case Drained => s.closed && s.stopping
    case Abandoning(_) => s.closed && s.stopping && s.swept
    case Free(said) => said == Nothing && s.closed && (first ==> s.stopping && s.swept)
    case _ => false
  }

  lemma ShutdownGoesOn(s: State, a: Action, t: int, first: bool)
    requires Enabled(s, a) && t in s.threads && !s.threads[t].Free? && ShutdownSays(s, s.threads[t], first)
    ensures t in Apply(s, a).threads && ShutdownSays(Apply(s, a), Apply(s, a).threads[t], first)
  {
    hide DoneIds, Attempts, Those, Others;
  }

  /** When `shutdown` returns the engine is closed; and when the one that closed it returns, it also
      accepts nothing any more, and every future left in the map has been failed. */
  lemma {:induction false} ShutdownTellsTheTruth(states: seq<State>, actions: seq<Action>, j: nat, k: nat)
    requires Run(states, actions) && j < k <= |actions| && actions[j].Shutdown?
    requires forall i :: j < i < k ==> actions[j].t in states[i].threads && !states[i].threads[actions[j].t].Free?
    ensures var t := actions[j].t;
      t in states[k].threads && ShutdownSays(states[k], states[k].threads[t], !states[j].closed)
    decreases k
  {
    hide Sound, Init;
    assert Enabled(states[k - 1], actions[k - 1]) && states[k] == Apply(states[k - 1], actions[k - 1]);
    if k == j + 1 {
    } else {
      hide ShutdownSays, Apply, Enabled;
      ShutdownTellsTheTruth(states, actions, j, k - 1);
      ShutdownGoesOn(states[k - 1], actions[k - 1], actions[j].t, !states[j].closed);
    }
  }

  /** The flags are set by `shutdown` alone, and never cleared. */
  lemma FlagsStay(s: State, a: Action)
    requires Enabled(s, a)
    ensures Apply(s, a).closed <==> s.closed || a.SetClosed?
    ensures Apply(s, a).stopping <==> s.stopping || a.SetStopping?
    ensures Apply(s, a).swept <==> s.swept || a.Sweep?
  {
    hide DoneIds, Attempts, Those, Others;
  }

  // Verdicts.

  /** The calls of `_complete` that the batch taken by `a` comes to. */
  function Calls(s: State, a: Action): seq<Attempt>
    requires a.Take?
  {
    Attempts(Those(s.queue, a.picked), a.late, a.later, a.results)
  }

  /** The first of the calls for its request. */
  ghost predicate First(calls: seq<Attempt>, a: Attempt) {
    exists p :: 0 <= p < |calls| && calls[p] == a && forall q :: 0 <= q < p ==> calls[q].id != a.id
  }

  ghost predicate FromBatch(states: seq<State>, actions: seq<Action>, k: nat, a: Attempt)
    requires |states| == |actions| + 1 && k <= |actions|
  {
    exists j :: 0 <= j < k && actions[j].Take? && First(Calls(states[j], actions[j]), a)
  }

  /** The worker has `calls[m..]` still to make, and everybody called before is out of the map. */
  ghost predicate UpTo(calls: seq<Attempt>, m: nat, s: State, pc: Pc) {
    && (pc.Working? || pc.Owing?) && m <= |calls| && pc.todo == calls[m..]
    && (forall p :: 0 <= p < |calls| ==> calls[p].id in s.known)
    && forall p :: 0 <= p < m ==> calls[p].id !in s.futures
  }

  ghost predicate AtWork(states: seq<State>, actions: seq<Action>, k: nat, t: int)
    requires |states| == |actions| + 1 && k <= |actions| && t in states[k].threads
  {
    var pc := states[k].threads[t];
    && (exists j, m :: 0 <= j < k && actions[j].Take? && UpTo(Calls(states[j], actions[j]), m, states[k], pc))
    && (pc.Owing? ==> FromBatch(states, actions, k, pc.attempt))
  }

  lemma UpToKept(calls: seq<Attempt>, m: nat, s: State, a: Action, t: int)
    requires Sound(s) && Enabled(s, a) && t in s.threads && t != a.t && UpTo(calls, m, s, s.threads[t])
    ensures t in Apply(s, a).threads && UpTo(calls, m, Apply(s, a), s.threads[t])
    ensures Apply(s, a).threads[t] == s.threads[t]
  {
    forall p | 0 <= p < |calls| ensures calls[p].id in Apply(s, a).known {
      KnownStays(s, a);
    }
    forall p | 0 <= p < m ensures calls[p].id !in Apply(s, a).futures {
      StaysClaimed(s, a, calls[p].id);
    }
    hide Sound, DoneIds, Attempts, Those, Others;
  }

  lemma KnownStays(s: State, a: Action)
    requires Enabled(s, a)
    ensures s.known <= Apply(s, a).known
  {
    hide DoneIds, Attempts, Those, Others;
  }

  /** A batch taken: none of its calls is made yet, and all are for requests that are known. */
  lemma UpToNone(s: State, a: Action)
    requires Sound(s) && Enabled(s, a) && a.Take?
    ensures a.t in Apply(s, a).threads && UpTo(Calls(s, a), 0, Apply(s, a), Apply(s, a).threads[a.t])
  {
    hide Attempts, Those, Others, OwedOnce, OnePlace, NoneLost, IdsApart, Gate, DoneIds;
    EveryMemberAttempted(Those(s.queue, a.picked), a.late, a.later, a.results);
    var calls := Calls(s, a);
    assert calls[0..] == calls;
    forall p | 0 <= p < |calls| ensures calls[p].id in s.known {
      assert calls[p].id in Those(s.queue, a.picked);
    }
  }

  /** One call made: if it took the future, no call before it was for the same request. */
  lemma UpToMore(calls: seq<Attempt>, m: nat, s: State, a: Action)
    requires Sound(s) && Enabled(s, a) && a.Claim? && UpTo(calls, m, s, s.threads[a.t])
    ensures a.t in Apply(s, a).threads && UpTo(calls, m + 1, Apply(s, a), Apply(s, a).threads[a.t])
    ensures Apply(s, a).threads[a.t].Owing? ==> First(calls, Apply(s, a).threads[a.t].attempt)
  {
    var r := Apply(s, a);
    assert calls[m] == calls[m..][0] && calls[m..][1..] == calls[m + 1..];
    if r.threads[a.t].Owing? {
      assert calls[m] == r.threads[a.t].attempt;
    }
    hide Sound, DoneIds, Attempts, Those, Others;
  }

  lemma UpToSettled(calls: seq<Attempt>, m: nat, s: State, a: Action)
    requires Sound(s) && Enabled(s, a) && a.Settle? && UpTo(calls, m, s, s.threads[a.t])
    ensures a.t in Apply(s, a).threads && UpTo(calls, m, Apply(s, a), Apply(s, a).threads[a.t])
  {
    hide Sound, DoneIds, Attempts, Those, Others;
  }

  lemma NotAtWork(s: State, a: Action)
    requires Enabled(s, a) && !a.Take? && !a.Claim? && !a.Settle?
    ensures a.t in Apply(s, a).threads
    ensures !Apply(s, a).threads[a.t].Working? && !Apply(s, a).threads[a.t].Owing?
  {
    hide DoneIds, Attempts, Those, Others;
  }

  lemma OthersRest(s: State, a: Action, t: int)
    requires Enabled(s, a) && t in Apply(s, a).threads && t != a.t
    ensures t in s.threads && Apply(s, a).threads[t] == s.threads[t]
  {
    hide DoneIds, Attempts, Those, Others;
  }

  lemma NobodyAtWork(s: State, t: int)
    requires Init(s) && t in s.threads
    ensures !s.threads[t].Working? && !s.threads[t].Owing?
  {
  }

  /** What a worker has in hand and still to do is the rest of a batch that it took. */
  lemma {:induction false} WorkersAtWork(states: seq<State>, actions: seq<Action>, k: nat, t: int)
    requires Run(states, actions) && k <= |actions| && t in states[k].threads
    requires states[k].threads[t].Working? || states[k].threads[t].Owing?
    ensures AtWork(states, actions, k, t)
    decreases k, 1
  {
    hide Sound, Init, Apply, Enabled, AtWork;
    if k == 0 {
      NobodyAtWork(states[0], t);
    } else {
      var s, a := states[k - 1], actions[k - 1];
      assert Enabled(s, a) && states[k] == Apply(s, a);
      RunSound(states, actions, k - 1);
      if a.t != t {
        OthersRest(s, a, t);
        WorkersAtWork(states, actions, k - 1, t);
        StillAtWork(states, actions, k, t);
      } else {
        OneMoreCall(states, actions, k);
      }
    }
  }

  lemma StillAtWork(states: seq<State>, actions: seq<Action>, k: nat, t: int)
    requires |states| == |actions| + 1 && 0 < k <= |actions| && t in states[k - 1].threads && t != actions[k - 1].t
    requires Enabled(states[k - 1], actions[k - 1]) && states[k] == Apply(states[k - 1], actions[k - 1])
    requires Sound(states[k - 1]) && AtWork(states, actions, k - 1, t)
    ensures t in states[k].threads && AtWork(states, actions, k, t)
  {
    hide Sound, Apply, Enabled, Calls, UpTo, First;
    var j, m :| 0 <= j < k - 1 && actions[j].Take?
      && UpTo(Calls(states[j], actions[j]), m, states[k - 1], states[k - 1].threads[t]);
    UpToKept(Calls(states[j], actions[j]), m, states[k - 1], actions[k - 1], t);
  }

  lemma OneMoreCall(states: seq<State>, actions: seq<Action>, k: nat)
    requires Run(states, actions) && 0 < k <= |actions|
    requires var t := actions[k - 1].t;
      t in states[k].threads && (states[k].threads[t].Working? || states[k].threads[t].Owing?)
    ensures AtWork(states, actions, k, actions[k - 1].t)
    decreases k, 0
  {
    hide Sound, Init, Calls, UpTo, First, Apply;
    var s, a := states[k - 1], actions[k - 1];
    assert Enabled(s, a) && states[k] == Apply(s, a);
    RunSound(states, actions, k - 1);
    if a.Take? {
      UpToNone(s, a);
      TakenAtWork(s, a);
    } else if a.Claim? || a.Settle? {
      WorkersAtWork(states, actions, k - 1, a.t);
      var j, m :| 0 <= j < k - 1 && actions[j].Take? && UpTo(Calls(states[j], actions[j]), m, s, s.threads[a.t]);
      if a.Claim? {
        UpToMore(Calls(states[j], actions[j]), m, s, a);
      } else {
        UpToSettled(Calls(states[j], actions[j]), m, s, a);
        TakenAtWork(s, a);
      }
    } else {
      NotAtWork(s, a);
    }
  }

  lemma TakenAtWork(s: State, a: Action)
    requires Enabled(s, a) && (a.Take? || a.Settle?)
    ensures a.t in Apply(s, a).threads && Apply(s, a).threads[a.t].Working?
  {
    hide DoneIds, Attempts, Those, Others;
  }

  /** Every future is set to what its worker was told to make of it: the verdict is that of the first
      call for its request in a batch that was taken, unless a shutdown failed it. */
  lemma {:induction false} VerdictsComeFromBatches(states: seq<State>, actions: seq<Action>, k: nat, i: nat)
    requires Run(states, actions) && k <= |actions| && i < |states[k].done|
    ensures states[k].done[i].verdict == Abandoned || FromBatch(states, actions, k, states[k].done[i])
  {
    if k == 0 {
      assert false;
    } else {
      hide Init, FromBatch;
      var s, a := states[k - 1], actions[k - 1];
      assert Enabled(s, a) && states[k] == Apply(s, a);
      NewVerdict(s, a);
      if i < |s.done| {
        VerdictsComeFromBatches(states, actions, k - 1, i);
        FromBefore(states, actions, k, s.done[i]);
      } else if a.Settle? {
        WorkersAtWork(states, actions, k - 1, a.t);
        FromBefore(states, actions, k, s.threads[a.t].attempt);
      }
    }
  }

  lemma NewVerdict(s: State, a: Action)
    requires Enabled(s, a)
    ensures s.done <= Apply(s, a).done && |Apply(s, a).done| <= |s.done| + 1
    ensures |Apply(s, a).done| > |s.done| ==>
      var last := Apply(s, a).done[|s.done|];
      (a.Settle? && last == s.threads[a.t].attempt) || (a.Abandon? && last == Attempt(a.id, Abandoned))
  {
    hide DoneIds, Attempts, Those, Others;
  }

  lemma FromBefore(states: seq<State>, actions: seq<Action>, k: nat, a: Attempt)
    requires |states| == |actions| + 1 && 0 < k <= |actions|
    ensures FromBatch(states, actions, k - 1, a) ==> FromBatch(states, actions, k, a)
  {
  }
}
