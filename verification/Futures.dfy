/** The futures both engines hand out: submitters, workers and shutdown share one map,
    and each step is one access to what they share. */
module Futures {
  import opened Common

  datatype Verdict = Answered(result: nat) | Failed | Expired | Abandoned

  /** One call of `_complete`, or one future failed by the shutdown sweep. */
  datatype Attempt = Attempt(id: int, verdict: Verdict)

  /** What the last call of a thread came to: a future handed out, or an exception. */
  datatype Said = Nothing | Handed(id: int) | Refusal

  datatype Pc =
    | Free(said: Said)
    // submit
    | Checked(id: int)    // saw `_closed` clear
    | Registered(id: int) // its future is in the map
    | Passed(id: int)     // saw `_stopping` clear, putting on the queue
    | Refused(id: int)    // to take its future back
    // a worker with calls of `_complete` to make
    | Working(todo: seq<Attempt>)
    | Owing(attempt: Attempt, todo: seq<Attempt>) // took a future out of the map, to set it
    // shutdown
    | Closing             // saw `_closed` clear
    | Draining            // to test `_stopping`
    | Halting             // saw `_stopping` clear
    | Drained             // the batcher has stopped, or its time is up
    | Abandoning(rest: set<int>)

  /** `known`, `returned`, `dropped` and `swept` are history: ids ever registered, ids whose
      future `submit` has returned, ids taken back by a refused `submit`, and whether any
      sweep has happened. */
  datatype State = State(closed: bool, stopping: bool, futures: set<int>, queue: seq<int>, next: int,
                         done: seq<Attempt>, threads: map<int, Pc>,
                         known: set<int>, returned: set<int>, dropped: set<int>, swept: bool)

  datatype Action =
    | Submit(t: int)
    | Register(t: int)
    | Offer(t: int)
    | Enqueue(t: int, room: bool)
    | Withdraw(t: int)
    | Take(t: int, picked: set<int>, late: set<int>, later: set<int>, results: Option<nat>)
    | Claim(t: int)
    | Settle(t: int)
    | Finish(t: int)
    | Lose(t: int)        // a batch the executor would not take
    | Shutdown(t: int)
    | SetClosed(t: int)
    | TestStopping(t: int)
    | SetStopping(t: int)
    | Sweep(t: int)
    | Abandon(t: int, id: int)
    | Leave(t: int)

  // One batch.

  function Those(batch: seq<int>, ids: set<int>): (r: seq<int>)
    ensures |r| <= |batch| && (|r| == |batch| ==> r == batch)
    ensures forall id :: id in r <==> id in batch && id in ids
  {
    if batch == [] then []
    else if batch[|batch| - 1] in ids then Those(batch[..|batch| - 1], ids) + [batch[|batch| - 1]]
    else Those(batch[..|batch| - 1], ids)
  }

  function Others(batch: seq<int>, ids: set<int>): (r: seq<int>)
    ensures |r| <= |batch| && (|r| == |batch| ==> r == batch)
    ensures forall id :: id in r <==> id in batch && id !in ids
  {
    if batch == [] then []
    else if batch[|batch| - 1] !in ids then Others(batch[..|batch| - 1], ids) + [batch[|batch| - 1]]
    else Others(batch[..|batch| - 1], ids)
  }

  function All(ids: seq<int>, verdict: Verdict): (r: seq<Attempt>)
    ensures |r| == |ids| && forall i :: 0 <= i < |ids| ==> r[i] == Attempt(ids[i], verdict)
  {
    seq(|ids|, i requires 0 <= i < |ids| => Attempt(ids[i], verdict))
  }

  function Zipped(ids: seq<int>): (r: seq<Attempt>)
    ensures |r| == |ids| && forall i :: 0 <= i < |ids| ==> r[i] == Attempt(ids[i], Answered(i))
  {
    seq(|ids|, i requires 0 <= i < |ids| => Attempt(ids[i], Answered(i)))
  }

  /** What `_execute` does with a batch: `late` are the members past their deadline at the first
      reading of the clock and `later` at the second; `results` is how many results the runner
      gave, if it did not raise. */
  function Attempts(batch: seq<int>, late: set<int>, later: set<int>, results: Option<nat>): seq<Attempt> {
    var live := Others(batch, late);
    var expired := if |live| != |batch| then All(Those(batch, later), Expired) else [];
    expired + (if live == [] then [] else if results == Some(|live|) then Zipped(live) else All(live, Failed))
  }

  /** However the batch goes, every member gets a call of `_complete`, and only members do.
      Lateness is never taken back, so a member live at neither reading is expired at both. */
  lemma EveryMemberAttempted(batch: seq<int>, late: set<int>, later: set<int>, results: Option<nat>)
    requires late <= later
    ensures forall id :: id in batch <==> exists k :: 0 <= k < |Attempts(batch, late, later, results)| &&
                                                      Attempts(batch, late, later, results)[k].id == id
  {
    var live := Others(batch, late);
    var attempts := Attempts(batch, late, later, results);
    var expired := if |live| != |batch| then All(Those(batch, later), Expired) else [];
    forall id | id in batch ensures exists k :: 0 <= k < |attempts| && attempts[k].id == id {
      if id in late {
        assert id in Those(batch, later);
        var i :| 0 <= i < |Those(batch, later)| && Those(batch, later)[i] == id;
        assert attempts[i].id == id;
      } else {
        var i :| 0 <= i < |live| && live[i] == id;
        assert attempts[|expired| + i].id == id;
      }
    }
    forall k | 0 <= k < |attempts| ensures attempts[k].id in batch {
      if k < |expired| {
        assert Those(batch, later)[k] in batch;
      } else {
        assert live[k - |expired|] in batch;
      }
    }
  }

  /** The last calls are for the live members, in order: each is told its own result if the runner
      gave one for every one of them, and that it failed otherwise. */
  lemma LiveAreAnswered(batch: seq<int>, late: set<int>, later: set<int>, results: Option<nat>, i: nat)
    requires i < |Others(batch, late)|
    ensures var todo, live := Attempts(batch, late, later, results), Others(batch, late);
      && |todo| >= |live|
      && todo[|todo| - |live| + i].id == live[i]
      && (results == Some(|live|) <==> todo[|todo| - |live| + i].verdict == Answered(i))
      && (results != Some(|live|) <==> todo[|todo| - |live| + i].verdict == Failed)
  {
    hide Those, Others;
  }

  /** Whoever is called before them is told that it expired, and there are such calls only when
      somebody was late at the first reading. */
  lemma LateAreExpired(batch: seq<int>, late: set<int>, later: set<int>, results: Option<nat>, k: nat)
    requires k + |Others(batch, late)| < |Attempts(batch, late, later, results)|
    ensures var call := Attempts(batch, late, later, results)[k];
      call.verdict == Expired && call.id in batch && call.id in later
    ensures exists other :: other in batch && other in late
  {
    SomeLate(batch, late);
    hide Others;
    var those := Those(batch, later);
    assert those[k] in those;
  }

  /** Whom the calls are for, in order. */
  function IdsOf(attempts: seq<Attempt>): (r: seq<int>)
    ensures |r| == |attempts|
  {
    seq(|attempts|, k requires 0 <= k < |attempts| => attempts[k].id)
  }

  lemma {:induction false} ThoseDistinct(batch: seq<int>, ids: set<int>)
    requires Distinct(batch)
    ensures Distinct(Those(batch, ids)) && Distinct(Others(batch, ids))
  {
    if batch == [] {
    } else {
      ThoseDistinct(batch[..|batch| - 1], ids);
    }
  }

  lemma {:induction false} DistinctCount(s: seq<int>, id: int)
    requires Distinct(s)
    ensures multiset(s)[id] == if id in s then 1 else 0
  {
    if s == [] {
    } else {
      var n := |s| - 1;
      DistinctCount(s[..n], id);
      assert s == s[..n] + [s[n]];
      assert id in s <==> id in s[..n] || id == s[n];
    }
  }

  lemma {:induction false} SomeLate(batch: seq<int>, late: set<int>)
    ensures |Others(batch, late)| != |batch| <==> exists other :: other in batch && other in late
  {
    if batch == [] {
    } else {
      var rest, last := batch[..|batch| - 1], batch[|batch| - 1];
      SomeLate(rest, late);
      assert forall other :: other in batch <==> other in rest || other == last;
      if last in late {
        assert last in batch && |Others(batch, late)| <= |rest|;
      }
    }
  }

  lemma AttemptIds(batch: seq<int>, late: set<int>, later: set<int>, results: Option<nat>)
    ensures IdsOf(Attempts(batch, late, later, results)) ==
      (if |Others(batch, late)| != |batch| then Those(batch, later) else []) + Others(batch, late)
  {
    hide Those, Others;
  }

  lemma CountJoin(a: seq<int>, b: seq<int>, id: int)
    ensures multiset(a + b)[id] == multiset(a)[id] + multiset(b)[id]
  {
  }

  /** A member gets one call of `_complete`, or two exactly when it was live at the first reading
      of the clock and late at the second while some other member was late at the first. */
  lemma CalledTwice(batch: seq<int>, late: set<int>, later: set<int>, results: Option<nat>, id: int)
    requires late <= later && Distinct(batch) && id in batch
    ensures multiset(IdsOf(Attempts(batch, late, later, results)))[id] ==
      if id !in late && id in later && exists other :: other in batch && other in late then 2 else 1
  {
    hide Attempts, Distinct;
    var live := Others(batch, late);
    var those := if |live| != |batch| then Those(batch, later) else [];
    AttemptIds(batch, late, later, results);
    ThoseDistinct(batch, late);
    ThoseDistinct(batch, later);
    SomeLate(batch, late);
    hide Those, Others;
    assert Distinct([]) by { NoneDistinct(); }
    DistinctCount(live, id);
    DistinctCount(those, id);
    CountJoin(those, live, id);
  }

  /** Of two requests one is late already, and the other becomes so between the two looks: it is
      told twice, that it expired and what the runner made of it. */
  lemma ToldTwice(a: int, b: int)
    requires a != b
    ensures Attempts([a, b], {a}, {a, b}, Some(1)) ==
      [Attempt(a, Expired), Attempt(b, Expired), Attempt(b, Answered(0))]
    ensures multiset(IdsOf(Attempts([a, b], {a}, {a, b}, Some(1))))[b] == 2
  {
    OneOfTwo(a, b);
    CalledTwice([a, b], {a}, {a, b}, Some(1), b);
    hide Those, Others, IdsOf;
    assert All([a, b], Expired) == [Attempt(a, Expired), Attempt(b, Expired)];
    assert Zipped([b]) == [Attempt(b, Answered(0))];
  }

  lemma OneOfTwo(a: int, b: int)
    requires a != b
    ensures Those([a, b], {a, b}) == [a, b] && Others([a, b], {a}) == [b] && Distinct([a, b])
  {
    var batch, one := [a, b], [a];
    assert batch[..1] == one && one[..0] == [];
    assert Those(one, {a, b}) == one && Others(one, {a}) == [];
  }

  lemma NoneDistinct()
    ensures Distinct([])
  {
  }

  // The steps.

  function Move(s: State, t: int, pc: Pc): State {
    s.(threads := s.threads[t := pc])
  }

  function DoneIds(done: seq<Attempt>): set<int> {
    set i | 0 <= i < |done| :: done[i].id
  }

  /** A future already set stays as it is. */
  function Set(done: seq<Attempt>, a: Attempt): seq<Attempt> {
    if a.id in DoneIds(done) then done else done + [a]
  }

  predicate Enabled(s: State, a: Action) {
    && a.t in s.threads
    && var pc := s.threads[a.t];
       match a
       case Submit(_) => pc.Free?
       case Register(_) => pc.Checked?
       case Offer(_) => pc.Registered?
       case Enqueue(_, _) => pc.Passed?
       case Withdraw(_) => pc.Refused?
       case Take(_, picked, late, later, _) => pc.Free? && Those(s.queue, picked) != [] && late <= later
       case Claim(_) => pc.Working? && pc.todo != []
       case Settle(_) => pc.Owing?
       case Finish(_) => pc.Working? && pc.todo == []
       case Lose(_) => pc.Working?
       case Shutdown(_) => pc.Free?
       case SetClosed(_) => pc.Closing?
       case TestStopping(_) => pc.Draining?
       case SetStopping(_) => pc.Halting?
       case Sweep(_) => pc.Drained?
       case Abandon(_, id) => pc.Abandoning? && id in pc.rest
       case Leave(_) => pc.Abandoning? && pc.rest == {}
  }

  function Apply(s: State, a: Action): State
    requires Enabled(s, a)
  {
    var pc := s.threads[a.t];
    match a
    case Submit(t) =>
      if s.closed then Move(s, t, Free(Refusal)) else Move(s.(next := s.next + 1), t, Checked(s.next))
    case Register(t) => Move(s.(futures := s.futures + {pc.id}, known := s.known + {pc.id}), t, Registered(pc.id))
    case Offer(t) => Move(s, t, if s.stopping then Refused(pc.id) else Passed(pc.id))
    case Enqueue(t, room) =>
      if room then Move(s.(queue := s.queue + [pc.id], returned := s.returned + {pc.id}), t, Free(Handed(pc.id)))
      else Move(s, t, Refused(pc.id))
    case Withdraw(t) =>
      Move(s.(futures := s.futures - {pc.id}, dropped := s.dropped + s.futures * {pc.id}), t, Free(Refusal))
    case Take(t, picked, late, later, results) =>
      Move(s.(queue := Others(s.queue, picked)), t, Working(Attempts(Those(s.queue, picked), late, later, results)))
    case Claim(t) =>
      if pc.todo[0].id in s.futures
      then Move(s.(futures := s.futures - {pc.todo[0].id}), t, Owing(pc.todo[0], pc.todo[1..]))
      else Move(s, t, Working(pc.todo[1..]))
    case Settle(t) => Move(s.(done := Set(s.done, pc.attempt)), t, Working(pc.todo))
    case Finish(t) => Move(s, t, Free(Nothing))
    case Lose(t) => Move(s, t, Free(Nothing))
    case Shutdown(t) => Move(s, t, if s.closed then Free(Nothing) else Closing)
    case SetClosed(t) => Move(s.(closed := true), t, Draining)
    case TestStopping(t) => Move(s, t, if s.stopping then Drained else Halting)
    case SetStopping(t) => Move(s.(stopping := true), t, Drained)
    case Sweep(t) => Move(s.(futures := {}, swept := true), t, Abandoning(s.futures))
    case Abandon(t, id) => Move(s.(done := Set(s.done, Attempt(id, Abandoned))), t, Abandoning(pc.rest - {id}))
    case Leave(t) => Move(s, t, Free(Nothing))
  }

  // The invariant.

  /** Futures out of the map that the thread has yet to set. */
  function Owed(pc: Pc): set<int> {
    if pc.Owing? then {pc.attempt.id} else if pc.Abandoning? then pc.rest else {}
  }

  /** The request a `submit` is in the middle of. */
  predicate Submitting(pc: Pc) {
    pc.Checked? || pc.Registered? || pc.Passed? || pc.Refused?
  }

  function TodoIds(pc: Pc): set<int> {
    if pc.Working? || pc.Owing? then DoneIds(pc.todo) else {}
  }

  /** No future is owed by two threads. */
  ghost predicate OwedOnce(s: State) {
    forall t, u :: t in s.threads && u in s.threads && t != u ==> Owed(s.threads[t]) !! Owed(s.threads[u])
  }

  /** A future out of the map is owed, or set, or taken back by its own submitter; and set once. */
  ghost predicate OnePlace(s: State) {
    && (forall t :: t in s.threads ==>
          && Owed(s.threads[t]) <= s.known && Owed(s.threads[t]) !! s.futures
          && Owed(s.threads[t]) !! DoneIds(s.done) && Owed(s.threads[t]) !! s.dropped)
    && s.futures <= s.known && DoneIds(s.done) <= s.known && s.dropped <= s.known
    && s.futures !! DoneIds(s.done) && s.futures !! s.dropped && DoneIds(s.done) !! s.dropped
    && forall i, j :: 0 <= i < j < |s.done| ==> s.done[i].id != s.done[j].id
  }

  /** And no future is lost. */
  ghost predicate Somewhere(s: State, id: int) {
    || id in s.futures || id in DoneIds(s.done) || id in s.dropped
    || exists t :: t in s.threads && id in Owed(s.threads[t])
  }

  ghost predicate NoneLost(s: State) {
    forall id :: id in s.known ==> Somewhere(s, id)
  }

  /** Ids are fresh, and a request belongs to one submitter until its future is handed out. */
  ghost predicate OneSubmitter(s: State) {
    && (forall id :: id in s.known ==> id < s.next)
    && s.returned <= s.known && s.dropped <= s.known && s.returned !! s.dropped
    && forall t :: t in s.threads && Submitting(s.threads[t]) ==>
         && s.threads[t].id < s.next && s.threads[t].id !in s.returned && s.threads[t].id !in s.dropped
         && (s.threads[t].id in s.known <==> !s.threads[t].Checked?)
  }

  ghost predicate IdsApart(s: State) {
    forall t, u ::
      t in s.threads && u in s.threads && t != u && Submitting(s.threads[t]) && Submitting(s.threads[u]) ==>
        s.threads[t].id != s.threads[u].id
  }

  /** Workers only ever see requests whose future has been handed out. */
  ghost predicate WorkersBehind(s: State) {
    && (forall id :: id in s.queue ==> id in s.returned)
    && forall t :: t in s.threads ==> TodoIds(s.threads[t]) <= s.returned
  }

  /** Nobody sweeps before `_stopping` is set, and after a sweep the map holds only futures
      of submitters that are going to be refused. */
  ghost predicate Gate(s: State) {
    && (forall t :: t in s.threads && (s.threads[t].Drained? || s.threads[t].Abandoning?) ==> s.stopping)
    && (s.swept ==> s.stopping)
    && (s.swept ==> forall id :: id in s.futures ==> id !in s.returned)
    && (s.swept ==> forall t :: t in s.threads && s.threads[t].Passed? ==> s.threads[t].id !in s.futures)
  }

  ghost predicate Sound(s: State) {
    OwedOnce(s) && OnePlace(s) && NoneLost(s) && IdsApart(s) && OneSubmitter(s) && WorkersBehind(s) && Gate(s)
  }

  ghost predicate Init(s: State) {
    && !s.closed && !s.stopping && !s.swept && s.futures == s.known == s.returned == s.dropped == {}
    && s.queue == [] && s.done == [] && forall t :: t in s.threads ==> s.threads[t] == Free(Nothing)
  }

  lemma SetAdds(done: seq<Attempt>, a: Attempt)
    ensures DoneIds(Set(done, a)) == DoneIds(done) + {a.id}
  {
    if a.id !in DoneIds(done) {
      var longer := done + [a];
      assert forall i :: 0 <= i < |done| ==> longer[i] == done[i];
      assert longer[|done|] == a;
    }
  }

  lemma OwedOnceKept(s: State, a: Action)
    requires OwedOnce(s) && OnePlace(s) && Enabled(s, a)
    ensures OwedOnce(Apply(s, a))
  {
    hide DoneIds, Attempts, Set;
    var r := Apply(s, a);
    forall t, u | t in r.threads && u in r.threads && t != u ensures Owed(r.threads[t]) !! Owed(r.threads[u]) {
      assert Owed(s.threads[t]) !! Owed(s.threads[u]);
    }
  }

  lemma PlaceKept(s: State, a: Action)
    requires OwedOnce(s) && OnePlace(s) && OneSubmitter(s) && Enabled(s, a)
    ensures OnePlace(Apply(s, a))
  {
    hide OnePlace, OwedOnce, OneSubmitter;
    if a.Settle? || a.Abandon? {
      PlaceSet(s, a);
    } else {
      PlaceMoved(s, a);
    }
  }

  lemma PlaceMoved(s: State, a: Action)
    requires OwedOnce(s) && OnePlace(s) && OneSubmitter(s) && Enabled(s, a) && !a.Settle? && !a.Abandon?
    ensures OnePlace(Apply(s, a))
  {
    SameThreads(s, a);
    PlaceSetsMoved(s, a);
    hide DoneIds, Attempts, Set, Those, Others, Apply, Enabled, OwedOnce, OneSubmitter;
    var r := Apply(s, a);
    forall t | t in r.threads
      ensures Owed(r.threads[t]) <= r.known && Owed(r.threads[t]) !! r.futures
      ensures Owed(r.threads[t]) !! DoneIds(r.done) && Owed(r.threads[t]) !! r.dropped
    {
      OwedMoved(s, a, t);
    }
  }

  /** The sets themselves stay apart. */
  lemma PlaceSetsMoved(s: State, a: Action)
    requires OnePlace(s) && OneSubmitter(s) && Enabled(s, a) && !a.Settle? && !a.Abandon?
    ensures var r := Apply(s, a);
      && r.futures <= r.known && DoneIds(r.done) <= r.known && r.dropped <= r.known
      && r.futures !! DoneIds(r.done) && r.futures !! r.dropped && DoneIds(r.done) !! r.dropped && r.done == s.done
  {
    hide DoneIds, Attempts, Set, Those, Others, Owed;
  }

  /** What a thread owes stays apart from them. */
  lemma OwedMoved(s: State, a: Action, t: int)
    requires OnePlace(s) && OneSubmitter(s) && Enabled(s, a) && !a.Settle? && !a.Abandon? && t in s.threads
    ensures var r := Apply(s, a);
      && t in r.threads && Owed(r.threads[t]) <= r.known && Owed(r.threads[t]) !! r.futures
      && Owed(r.threads[t]) !! DoneIds(r.done) && Owed(r.threads[t]) !! r.dropped
  {
    SameThreads(s, a);
    OwedFrom(s, a, t);
    SetsFrom(s, a);
    hide DoneIds, Apply, Enabled, Owed, OneSubmitter;
  }

  /** A thread owes what it owed, or what it just took out of the map. */
  lemma OwedFrom(s: State, a: Action, t: int)
    requires Enabled(s, a) && t in s.threads
    ensures var owed := Owed(Apply(s, a).threads[t]);
      || owed <= Owed(s.threads[t])
      || (owed <= s.futures && owed !! Apply(s, a).futures && Apply(s, a).dropped == s.dropped)
  {
    hide DoneIds, Attempts, Set, Those, Others;
  }

  lemma SetsFrom(s: State, a: Action)
    requires OneSubmitter(s) && Enabled(s, a) && !a.Settle? && !a.Abandon?
    ensures var r := Apply(s, a);
      && r.done == s.done && s.known <= r.known
      && (forall id :: id in r.futures ==> id in s.futures || id !in s.known)
      && forall id :: id in r.dropped ==> id in s.dropped || id in s.futures
  {
    hide DoneIds, Attempts, Set, Those, Others, Owed;
  }

  lemma PlaceSet(s: State, a: Action)
    requires OwedOnce(s) && OnePlace(s) && Enabled(s, a) && (a.Settle? || a.Abandon?)
    ensures OnePlace(Apply(s, a))
  {
    var attempt := if a.Settle? then s.threads[a.t].attempt else Attempt(a.id, Abandoned);
    SetAdds(s.done, attempt);
    SetOnce(s.done, attempt);
    hide Set, DoneIds;
    var r := Apply(s, a);
    forall t | t in r.threads
      ensures Owed(r.threads[t]) <= r.known && Owed(r.threads[t]) !! r.futures
      ensures Owed(r.threads[t]) !! DoneIds(r.done) && Owed(r.threads[t]) !! r.dropped
    {
      assert t != a.t ==> Owed(s.threads[t]) !! Owed(s.threads[a.t]);
    }
  }

  lemma SetOnce(done: seq<Attempt>, a: Attempt)
    requires forall i, j :: 0 <= i < j < |done| ==> done[i].id != done[j].id
    ensures forall i, j :: 0 <= i < j < |Set(done, a)| ==> Set(done, a)[i].id != Set(done, a)[j].id
  {
  }

  lemma NoneLostKept(s: State, a: Action)
    requires NoneLost(s) && Enabled(s, a)
    ensures NoneLost(Apply(s, a))
  {
    hide DoneIds, Attempts;
    var r := Apply(s, a);
    if a.Settle? {
      SetAdds(s.done, s.threads[a.t].attempt);
    } else if a.Abandon? {
      SetAdds(s.done, Attempt(a.id, Abandoned));
    }
    forall id | id in r.known ensures Somewhere(r, id) {
      if id in s.known && Somewhere(s, id) {
        if t :| t in s.threads && id in Owed(s.threads[t]) {
          assert t != a.t ==> r.threads[t] == s.threads[t];
        }
      }
      assert a.t in r.threads;
    }
  }

  /** A submitter either starts, under the next id, or goes on under its own. */
  lemma SubmittingOn(s: State, a: Action, t: int)
    requires Enabled(s, a) && t in s.threads && Submitting(Apply(s, a).threads[t])
    ensures if a.Submit? && t == a.t then Apply(s, a).threads[t] == Checked(s.next)
            else Submitting(s.threads[t]) && s.threads[t].id == Apply(s, a).threads[t].id
  {
    hide DoneIds, Attempts, Set, Those, Others;
  }

  lemma SameThreads(s: State, a: Action)
    requires Enabled(s, a)
    ensures Apply(s, a).threads.Keys == s.threads.Keys
  {
    hide DoneIds, Attempts, Set, Those, Others;
  }

  lemma IdsApartKept(s: State, a: Action)
    requires IdsApart(s) && OneSubmitter(s) && Enabled(s, a)
    ensures IdsApart(Apply(s, a))
  {
    SameThreads(s, a);
    hide Apply, Enabled, Submitting;
    var r := Apply(s, a);
    forall t, u | t in r.threads && u in r.threads && t != u && Submitting(r.threads[t]) && Submitting(r.threads[u])
      ensures r.threads[t].id != r.threads[u].id
    {
      SubmittingOn(s, a, t);
      SubmittingOn(s, a, u);
    }
  }

  lemma SubmitterKept(s: State, a: Action)
    requires IdsApart(s) && OneSubmitter(s) && Enabled(s, a)
    ensures OneSubmitter(Apply(s, a))
  {
    SameThreads(s, a);
    HistoryKept(s, a);
    hide Apply, Enabled, IdsApart;
    var r := Apply(s, a);
    forall t | t in r.threads && Submitting(r.threads[t])
      ensures r.threads[t].id < r.next && r.threads[t].id !in r.returned && r.threads[t].id !in r.dropped
      ensures r.threads[t].id in r.known <==> !r.threads[t].Checked?
    {
      SubmitterOn(s, a, t);
    }
  }

  lemma HistoryKept(s: State, a: Action)
    requires OneSubmitter(s) && Enabled(s, a)
    ensures var r := Apply(s, a);
      && (forall id :: id in r.known ==> id < r.next)
      && r.returned <= r.known && r.dropped <= r.known && r.returned !! r.dropped
  {
    hide DoneIds, Attempts, Set, Those, Others;
    assert Submitting(s.threads[a.t]) ==> s.threads[a.t].id < s.next;
  }

  lemma SubmitterOn(s: State, a: Action, t: int)
    requires IdsApart(s) && OneSubmitter(s) && Enabled(s, a) && t in s.threads && Submitting(Apply(s, a).threads[t])
    ensures var r := Apply(s, a);
      && r.threads[t].id < r.next && r.threads[t].id !in r.returned && r.threads[t].id !in r.dropped
      && (r.threads[t].id in r.known <==> !r.threads[t].Checked?)
  {
    SubmittingOn(s, a, t);
    hide DoneIds, Attempts, Set, Those, Others;
  }

  lemma BehindKept(s: State, a: Action)
    requires WorkersBehind(s) && Enabled(s, a)
    ensures WorkersBehind(Apply(s, a))
  {
    hide Attempts, Set;
    var r := Apply(s, a);
    if a.Take? {
      EveryMemberAttempted(Those(s.queue, a.picked), a.late, a.later, a.results);
    }
    forall t | t in r.threads ensures TodoIds(r.threads[t]) <= r.returned {
      assert TodoIds(s.threads[t]) <= s.returned;
    }
  }

  lemma GateKept(s: State, a: Action)
    requires Gate(s) && IdsApart(s) && OneSubmitter(s) && Enabled(s, a)
    ensures Gate(Apply(s, a))
  {
    hide DoneIds, Attempts, Set;
  }

  lemma StepSound(s: State, a: Action)
    requires Sound(s) && Enabled(s, a)
    ensures Sound(Apply(s, a))
  {
    hide OwedOnce, OnePlace, NoneLost, IdsApart, OneSubmitter, WorkersBehind, Gate, Apply, Enabled;
    OwedOnceKept(s, a);
    PlaceKept(s, a);
    IdsApartKept(s, a);
    NoneLostKept(s, a);
    SubmitterKept(s, a);
    BehindKept(s, a);
    GateKept(s, a);
  }

  // Runs.

  ghost predicate Run(states: seq<State>, actions: seq<Action>) {
    && |states| == |actions| + 1 && Init(states[0])
    && forall i :: 0 <= i < |actions| ==>
         Enabled(states[i], actions[i]) && states[i + 1] == Apply(states[i], actions[i])
  }

  lemma InitSound(s: State)
    requires Init(s)
    ensures Sound(s)
  {
  }

  lemma {:induction false} RunSound(states: seq<State>, actions: seq<Action>, k: nat)
    requires Run(states, actions) && k < |states|
    ensures Sound(states[k])
  {
    hide Sound, Init, Apply, Enabled;
    if k == 0 {
      InitSound(states[0]);
    } else {
      RunSound(states, actions, k - 1);
      StepSound(states[k - 1], actions[k - 1]);
    }
  }

  /** In every interleaving a future is set at most once, by whoever took it out of the map;
      so the `done()` guard never saves anyone. */
  lemma SetAtMostOnce(states: seq<State>, actions: seq<Action>, k: nat)
    requires Run(states, actions) && k < |states|
    ensures forall i, j :: 0 <= i < j < |states[k].done| ==> states[k].done[i].id != states[k].done[j].id
    ensures forall t, u :: t in states[k].threads && u in states[k].threads && t != u ==>
      Owed(states[k].threads[t]) !! Owed(states[k].threads[u])
    ensures k < |actions| && actions[k].Settle? ==>
      states[k + 1].done == states[k].done + [states[k].threads[actions[k].t].attempt]
    ensures k < |actions| && actions[k].Abandon? ==>
      states[k + 1].done == states[k].done + [Attempt(actions[k].id, Abandoned)]
  {
    RunSound(states, actions, k);
    hide DoneIds, NoneLost, OneSubmitter, WorkersBehind, Gate, IdsApart;
    var s := states[k];
    if k < |actions| && (actions[k].Settle? || actions[k].Abandon?) {
      assert Owed(s.threads[actions[k].t]) !! DoneIds(s.done);
    }
  }

  /** A verdict is final. */
  lemma {:induction false} VerdictFinal(states: seq<State>, actions: seq<Action>, j: nat, k: nat)
    requires Run(states, actions) && j <= k < |states|
    ensures states[j].done <= states[k].done
  {
    if j == k {
    } else {
      hide Attempts, DoneIds, Init;
      VerdictFinal(states, actions, j, k - 1);
    }
  }

  /** A future leaves the map once: whoever took it is the only one who ever will. */
  lemma {:induction false} ClaimedOnce(states: seq<State>, actions: seq<Action>, j: nat, k: nat, id: int)
    requires Run(states, actions) && j <= k < |states| && id in states[j].known && id !in states[j].futures
    ensures id in states[k].known && id !in states[k].futures
  {
    if j == k {
    } else {
      ClaimedOnce(states, actions, j, k - 1, id);
      RunSound(states, actions, k - 1);
      hide Sound, Init, Apply, Enabled;
      StaysClaimed(states[k - 1], actions[k - 1], id);
    }
  }

  lemma StaysClaimed(s: State, a: Action, id: int)
    requires Sound(s) && Enabled(s, a) && id in s.known && id !in s.futures
    ensures id in Apply(s, a).known && id !in Apply(s, a).futures
  {
    hide Attempts, DoneIds, Set, Those, Others, OwedOnce, OnePlace, NoneLost, IdsApart, WorkersBehind, Gate;
    assert Submitting(s.threads[a.t]) ==> (s.threads[a.t].id in s.known <==> !s.threads[a.t].Checked?);
  }

  /** Once a shutdown has swept, every future `submit` has handed out by then, or hands out
      later, has been claimed: it is set, or some thread has it in hand to set. */
  lemma SweptMeansClaimed(states: seq<State>, actions: seq<Action>, k: nat, id: int)
    requires Run(states, actions) && k < |states| && states[k].swept && id in states[k].returned
    ensures id !in states[k].futures
    ensures id in DoneIds(states[k].done) || exists t :: t in states[k].threads && id in Owed(states[k].threads[t])
  {
    RunSound(states, actions, k);
    hide DoneIds, OwedOnce, OnePlace, IdsApart, WorkersBehind;
    assert Somewhere(states[k], id);
  }

  /** Nobody is left waiting: after a sweep, with no setter in mid-step, every future handed out is set. */
  lemma NobodyHangs(states: seq<State>, actions: seq<Action>, k: nat, id: int)
    requires Run(states, actions) && k < |states| && states[k].swept && id in states[k].returned
    requires forall t :: t in states[k].threads ==> Owed(states[k].threads[t]) == {}
    ensures exists i :: 0 <= i < |states[k].done| && states[k].done[i].id == id
  {
    SweptMeansClaimed(states, actions, k, id);
  }

  /** A worker that takes a batch and is not stopped has, at any later point, claimed each
      member or still has it to do; when its list is empty every member has been claimed. */
  lemma {:induction false} BatchHandled(states: seq<State>, actions: seq<Action>, j: nat, k: nat, id: int)
    requires Run(states, actions) && j < k < |states| && actions[j].Take?
    requires id in states[j].queue && id in actions[j].picked
    requires forall i :: j < i < k && actions[i].t == actions[j].t ==> actions[i].Claim? || actions[i].Settle?
    ensures actions[j].t in states[k].threads && id in states[k].known
    ensures states[k].threads[actions[j].t].Working? || states[k].threads[actions[j].t].Owing?
    ensures id !in states[k].futures || id in TodoIds(states[k].threads[actions[j].t])
  {
    var s, a := states[k - 1], actions[k - 1];
    RunSound(states, actions, k - 1);
    hide Apply, Enabled, Init, OwedOnce, OnePlace, NoneLost, IdsApart, OneSubmitter, WorkersBehind, Gate, TodoIds;
    if k == j + 1 {
      JustTaken(s, a, id);
    } else {
      BatchHandled(states, actions, j, k - 1, id);
      StillToDo(s, a, actions[j].t, id);
    }
  }

  lemma JustTaken(s: State, a: Action, id: int)
    requires Enabled(s, a) && OneSubmitter(s) && WorkersBehind(s) && a.Take?
    requires id in s.queue && id in a.picked
    ensures a.t in Apply(s, a).threads && Apply(s, a).threads[a.t].Working?
    ensures id in Apply(s, a).known && id in TodoIds(Apply(s, a).threads[a.t])
  {
    EveryMemberAttempted(Those(s.queue, a.picked), a.late, a.later, a.results);
    hide Attempts;
  }

  lemma StillToDo(s: State, a: Action, t: int, id: int)
    requires Enabled(s, a) && OneSubmitter(s) && t in s.threads && id in s.known
    requires s.threads[t].Working? || s.threads[t].Owing?
    requires id !in s.futures || id in TodoIds(s.threads[t])
    requires a.t == t ==> a.Claim? || a.Settle?
    ensures var r := Apply(s, a);
      && t in r.threads && id in r.known && (r.threads[t].Working? || r.threads[t].Owing?)
      && (id !in r.futures || id in TodoIds(r.threads[t]))
  {
    hide Attempts;
    assert Submitting(s.threads[a.t]) ==> (s.threads[a.t].id in s.known <==> !s.threads[a.t].Checked?);
    if a.t == t && a.Claim? && id in TodoIds(s.threads[t]) {
      var todo := s.threads[t].todo;
      var i :| 0 <= i < |todo| && todo[i].id == id;
      assert i > 0 ==> todo[1..][i - 1].id == id;
    }
  }

  class Engine {
    var closed: bool
    var stopping: bool
    var futures: set<int>
    var queue: seq<int>
    var next: int
    var done: seq<Attempt>
    var threads: map<int, Pc>
    ghost var known: set<int>
    ghost var returned: set<int>
    ghost var dropped: set<int>
    ghost var swept: bool

    ghost function Now(): State
      reads this
    {
      State(closed, stopping, futures, queue, next, done, threads, known, returned, dropped, swept)
    }

    ghost predicate Valid()
      reads this
    {
      Sound(Now())
    }

    constructor (users: set<int>)
      ensures Valid() && Init(Now()) && threads.Keys == users
    {
      closed, stopping, futures, queue, next, done := false, false, {}, [], 0, [];
      threads := map t | t in users :: Free(Nothing);
      known, returned, dropped, swept := {}, {}, {}, false;
      new;
      InitSound(Now());
    }

    method Submit(t: int)
      requires Valid() && t in threads && threads[t].Free?
      modifies this
      ensures Valid() && Now() == Apply(old(Now()), Action.Submit(t))
    {
      hide Sound;
      StepSound(Now(), Action.Submit(t));
      if closed {
        threads := threads[t := Free(Refusal)];
        return;
      }
      threads := threads[t := Checked(next)];
      next := next + 1;
    }

    /** The future enters the map ahead of the `put`, so that no worker can miss it. */
    method Register(t: int)
      requires Valid() && t in threads && threads[t].Checked?
      modifies this
      ensures Valid() && Now() == Apply(old(Now()), Action.Register(t))
    {
      hide Sound;
      StepSound(Now(), Action.Register(t));
      var id := threads[t].id;
      futures := futures + {id};
      known := known + {id};
      threads := threads[t := Registered(id)];
    }

    /** The batcher's test of its stopping flag, and then its `put`. */
    method Offer(t: int)
      requires Valid() && t in threads && threads[t].Registered?
      modifies this
      ensures Valid() && Now() == Apply(old(Now()), Action.Offer(t))
    {
      hide Sound;
      StepSound(Now(), Action.Offer(t));
      var id := threads[t].id;
      threads := threads[t := if stopping then Refused(id) else Passed(id)];
    }

    method Enqueue(t: int, room: bool)
      requires Valid() && t in threads && threads[t].Passed?
      modifies this
      ensures Valid() && Now() == Apply(old(Now()), Action.Enqueue(t, room))
    {
      hide Sound;
      StepSound(Now(), Action.Enqueue(t, room));
      var id := threads[t].id;
      if !room {
        threads := threads[t := Refused(id)];
        return;
      }
      queue := queue + [id];
      returned := returned + {id};
      threads := threads[t := Free(Handed(id))];
    }

    method Withdraw(t: int)
      requires Valid() && t in threads && threads[t].Refused?
      modifies this
      ensures Valid() && Now() == Apply(old(Now()), Action.Withdraw(t))
    {
      hide Sound;
      StepSound(Now(), Action.Withdraw(t));
      var id := threads[t].id;
      dropped := dropped + futures * {id};
      futures := futures - {id};
      threads := threads[t := Free(Refusal)];
    }

    /** The members still worth running. */
    method Live(batch: seq<int>, late: set<int>) returns (live: seq<int>)
      ensures live == Others(batch, late)
    {
      live := [];
      for i := 0 to |batch|
        invariant live == Others(batch[..i], late)
      {
        assert batch[..i + 1][..i] == batch[..i];
        if batch[i] !in late {
          live := live + [batch[i]];
        }
      }
      assert batch[..|batch|] == batch;
    }

    lemma NoneToExpire(batch: seq<int>, later: set<int>)
      ensures All(Those(batch[..0], later), Expired) == []
    {
    }

    lemma ThoseMore(batch: seq<int>, i: nat, later: set<int>)
      requires i < |batch|
      ensures All(Those(batch[..i + 1], later), Expired) ==
        All(Those(batch[..i], later), Expired) + if batch[i] in later then [Attempt(batch[i], Expired)] else []
    {
      assert batch[..i + 1][..i] == batch[..i];
    }

    /** The calls of `_expire` for the members found late at a second look. */
    method Expire(batch: seq<int>, later: set<int>) returns (todo: seq<Attempt>)
      ensures todo == All(Those(batch, later), Expired)
    {
      hide Those, All;
      todo := [];
      NoneToExpire(batch, later);
      for i := 0 to |batch|
        invariant todo == All(Those(batch[..i], later), Expired)
      {
        ThoseMore(batch, i, later);
        if batch[i] in later {
          todo := todo + [Attempt(batch[i], Expired)];
        }
      }
      assert batch[..|batch|] == batch;
    }

    /** `_execute`, up to the calls of `_complete` it is going to make. */
    method Execute(batch: seq<int>, late: set<int>, later: set<int>, results: Option<nat>) returns (todo: seq<Attempt>)
      ensures todo == Attempts(batch, late, later, results)
    {
      hide Those, Others;
      var live := Live(batch, late);
      todo := [];
      if |live| != |batch| {
        todo := Expire(batch, later);
      }
      if live == [] {
        return;
      }
      ghost var expired := todo;
      ghost var settled := if results == Some(|live|) then Zipped(live) else All(live, Failed);
      for i := 0 to |live|
        invariant todo == expired + settled[..i]
      {
        todo := todo + [Attempt(live[i], if results == Some(|live|) then Answered(i) else Failed)];
      }
    }

    /** A batch leaves the queue for a worker: any of what is queued, in its order. So the batcher may
        pass over requests it dropped, and hand those to `_expire` one at a time. */
    method Take(t: int, picked: set<int>, late: set<int>, later: set<int>, results: Option<nat>)
      requires Valid() && Enabled(Now(), Action.Take(t, picked, late, later, results))
      modifies this
      ensures Valid() && Now() == Apply(old(Now()), Action.Take(t, picked, late, later, results))
    {
      hide Sound, Attempts, Those, Others;
      StepSound(Now(), Action.Take(t, picked, late, later, results));
      var batch := Those(queue, picked);
      queue := Others(queue, picked);
      var todo := Execute(batch, late, later, results);
      threads := threads[t := Working(todo)];
    }

    /** `_complete` under the lock. */
    method Claim(t: int)
      requires Valid() && t in threads && threads[t].Working? && threads[t].todo != []
      modifies this
      ensures Valid() && Now() == Apply(old(Now()), Action.Claim(t))
    {
      hide Sound;
      StepSound(Now(), Action.Claim(t));
      var todo := threads[t].todo;
      if todo[0].id in futures {
        futures := futures - {todo[0].id};
        threads := threads[t := Owing(todo[0], todo[1..])];
      } else {
        threads := threads[t := Working(todo[1..])];
      }
    }

    /** And outside it. */
    method Settle(t: int)
      requires Valid() && t in threads && threads[t].Owing?
      modifies this
      ensures Valid() && Now() == Apply(old(Now()), Action.Settle(t))
    {
      hide Sound;
      StepSound(Now(), Action.Settle(t));
      var pc := threads[t];
      if pc.attempt.id !in DoneIds(done) {
        done := done + [pc.attempt];
      }
      threads := threads[t := Working(pc.todo)];
    }

    method Shutdown(t: int)
      requires Valid() && t in threads && threads[t].Free?
      modifies this
      ensures Valid() && Now() == Apply(old(Now()), Action.Shutdown(t))
    {
      hide Sound;
      StepSound(Now(), Action.Shutdown(t));
      threads := threads[t := if closed then Free(Nothing) else Closing];
    }

    method SetClosed(t: int)
      requires Valid() && t in threads && threads[t].Closing?
      modifies this
      ensures Valid() && Now() == Apply(old(Now()), Action.SetClosed(t))
    {
      hide Sound;
      StepSound(Now(), Action.SetClosed(t));
      closed := true;
      threads := threads[t := Draining];
    }

    /** The batcher's own shutdown, idempotent in the same way. */
    method TestStopping(t: int)
      requires Valid() && t in threads && threads[t].Draining?
      modifies this
      ensures Valid() && Now() == Apply(old(Now()), Action.TestStopping(t))
    {
      hide Sound;
      StepSound(Now(), Action.TestStopping(t));
      threads := threads[t := if stopping then Drained else Halting];
    }

    method SetStopping(t: int)
      requires Valid() && t in threads && threads[t].Halting?
      modifies this
      ensures Valid() && Now() == Apply(old(Now()), Action.SetStopping(t))
    {
      hide Sound;
      StepSound(Now(), Action.SetStopping(t));
      stopping := true;
      threads := threads[t := Drained];
    }

    method Sweep(t: int)
      requires Valid() && t in threads && threads[t].Drained?
      modifies this
      ensures Valid() && Now() == Apply(old(Now()), Action.Sweep(t))
    {
      hide Sound;
      StepSound(Now(), Action.Sweep(t));
      threads := threads[t := Abandoning(futures)];
      futures := {};
      swept := true;
    }

    method Abandon(t: int, id: int)
      requires Valid() && t in threads && threads[t].Abandoning? && id in threads[t].rest
      modifies this
      ensures Valid() && Now() == Apply(old(Now()), Action.Abandon(t, id))
    {
      hide Sound;
      StepSound(Now(), Action.Abandon(t, id));
      if id !in DoneIds(done) {
        done := done + [Attempt(id, Abandoned)];
      }
      threads := threads[t := Abandoning(threads[t].rest - {id})];
    }
  }
}
