/** The bounded queue under one mutex and two condition variables. A step is what a
    thread does between taking the mutex and giving it up or parking, or one
    notification, which happens after the mutex is released. */
module QueueMonitor {
  import opened Common

  datatype Cv = NotEmpty | NotFull

  /** How a call ended. */
  datatype Outcome<T> = Idle | Pushed | Popped(item: T) | Timeout | Closed | Full | Empty

  /** Where a thread is. `Tell` and `Shout` stand between the mutex and the notification still owed. */
  datatype Pc<T> =
    | Rest(outcome: Outcome<T>)
    | WantsRoom(value: T, woken: bool)
    | WantsItem(timed: bool, woken: bool, late: bool)
    | Tell(cv: Cv, outcome: Outcome<T>)
    | Shout(cv: Cv)

  datatype Kind = Resting | Parked(cv: Cv) | Woken(cv: Cv) | Telling(cv: Cv) | Shouting(cv: Cv)

  function KindOf<T>(pc: Pc<T>): Kind {
    match pc
    case Rest(_) => Resting
    case WantsRoom(_, woken) => if woken then Woken(NotFull) else Parked(NotFull)
    case WantsItem(_, woken, _) => if woken then Woken(NotEmpty) else Parked(NotEmpty)
    case Tell(cv, _) => Telling(cv)
    case Shout(cv) => Shouting(cv)
  }

  /** `pushed` and `popped` are what ever went in and came out, in order. */
  datatype State<T> = State(capacity: nat, buffer: seq<T>, closed: bool, threads: map<int, Pc<T>>,
                            pushed: seq<T>, popped: seq<T>)

  datatype Action<T> =
    | Push(t: int, value: T)
    | TryPush(t: int, value: T)
    | Pop(t: int, timed: bool)
    | TryPop(t: int)
    | Shutdown(t: int)
    | Resume(t: int)             // a woken thread has the mutex back and looks again
    | NotifyOne(t: int, to: int) // `to` is whichever waiter the system picks
    | NotifyAll(t: int)
    | Spurious(t: int)
    | Expire(t: int)             // a timed wait runs out

  ghost predicate Waits<T>(s: State<T>, t: int, cv: Cv) {
    t in s.threads && KindOf(s.threads[t]) == Parked(cv)
  }

  ghost predicate Enabled<T>(s: State<T>, a: Action<T>) {
    && a.t in s.threads
    && var pc := s.threads[a.t];
       match a
       case Resume(_) => KindOf(pc).Woken?
       case NotifyOne(_, to) => pc.Tell? && ((exists u :: Waits(s, u, pc.cv)) ==> Waits(s, to, pc.cv))
       case NotifyAll(_) => pc.Shout?
       case Spurious(_) => KindOf(pc).Parked?
       case Expire(_) => pc.WantsItem? && pc.timed && !pc.woken
       case _ => pc.Rest?
  }

  function Move<T>(s: State<T>, t: int, pc: Pc<T>): State<T> {
    s.(threads := s.threads[t := pc])
  }

  function Inserted<T>(s: State<T>, t: int, value: T): State<T> {
    Move(s.(buffer := s.buffer + [value], pushed := s.pushed + [value]), t, Tell(NotEmpty, Pushed))
  }

  function Extracted<T>(s: State<T>, t: int): State<T>
    requires s.buffer != []
  {
    Move(s.(buffer := s.buffer[1..], popped := s.popped + [s.buffer[0]]), t, Tell(NotFull, Popped(s.buffer[0])))
  }

  /** A producer with the mutex: the predicate of `not_full_.wait`, then the push. */
  function PushTurn<T>(s: State<T>, t: int, value: T): State<T> {
    if s.closed then Move(s, t, Rest(Closed))
    else if |s.buffer| < s.capacity then Inserted(s, t, value)
    else Move(s, t, WantsRoom(value, false))
  }

  /** A consumer with the mutex: the predicate of `not_empty_.wait`, then the pop. */
  function PopTurn<T>(s: State<T>, t: int, timed: bool, late: bool): State<T> {
    if s.buffer != [] then Extracted(s, t)
    else if s.closed then Move(s, t, Rest(Closed))
    else if late then Move(s, t, Rest(Timeout))
    else Move(s, t, WantsItem(timed, false, false))
  }

  function Wake<T>(pc: Pc<T>, late: bool): Pc<T> {
    match pc
    case WantsRoom(value, _) => WantsRoom(value, true)
    case WantsItem(timed, _, _) => WantsItem(timed, true, late)
    case _ => pc
  }

  /** Everyone parked on `cv` becomes runnable. */
  function WakeAll<T>(threads: map<int, Pc<T>>, cv: Cv): map<int, Pc<T>> {
    map t | t in threads :: if KindOf(threads[t]) == Parked(cv) then Wake(threads[t], false) else threads[t]
  }

  function Apply<T>(s: State<T>, a: Action<T>): State<T>
    requires Enabled(s, a)
  {
    match a
    case Push(t, value) => PushTurn(s, t, value)
    case TryPush(t, value) =>
      if s.closed then Move(s, t, Rest(Closed))
      else if |s.buffer| >= s.capacity then Move(s, t, Rest(Full))
      else Inserted(s, t, value)
    case Pop(t, timed) => PopTurn(s, t, timed, false)
    case TryPop(t) =>
      if s.buffer == [] then Move(s, t, Rest(if s.closed then Closed else Empty)) else Extracted(s, t)
    case Shutdown(t) => if s.closed then Move(s, t, Rest(Idle)) else Move(s.(closed := true), t, Shout(NotEmpty))
    case Resume(t) =>
      var pc := s.threads[t];
      if pc.WantsRoom? then PushTurn(s, t, pc.value) else PopTurn(s, t, pc.timed, pc.late)
    case NotifyOne(t, to) =>
      var pc := s.threads[t];
      var told := Move(s, t, Rest(pc.outcome));
      if to in s.threads && KindOf(s.threads[to]) == Parked(pc.cv) then Move(told, to, Wake(s.threads[to], false))
      else told
    case NotifyAll(t) =>
      var cv := s.threads[t].cv;
      Move(s.(threads := WakeAll(s.threads, cv)), t, if cv == NotEmpty then Shout(NotFull) else Rest(Idle))
    case Spurious(t) => Move(s, t, Wake(s.threads[t], false))
    case Expire(t) => Move(s, t, Wake(s.threads[t], true))
  }

  // Counting threads.

  ghost function Who<T>(threads: map<int, Pc<T>>, kind: Kind): set<int> {
    set t | t in threads && KindOf(threads[t]) == kind
  }

  ghost function Count<T>(threads: map<int, Pc<T>>, kind: Kind): nat {
    |Who(threads, kind)|
  }

  lemma Without(s: set<int>, t: int)
    ensures |s| == |s - {t}| + if t in s then 1 else 0
  {
    if t in s {
      assert s == s - {t} + {t};
    } else {
      assert s == s - {t};
    }
  }

  lemma Recount<T>(threads: map<int, Pc<T>>, t: int, pc: Pc<T>, kind: Kind)
    requires t in threads
    ensures Count(threads[t := pc], kind) ==
      Count(threads, kind) - (if KindOf(threads[t]) == kind then 1 else 0) + (if KindOf(pc) == kind then 1 else 0)
  {
    var before, after := Who(threads, kind), Who(threads[t := pc], kind);
    assert before - {t} == after - {t};
    assert |before| == |before - {t}| + (if t in before then 1 else 0) by { Without(before, t); }
    assert |after| == |after - {t}| + (if t in after then 1 else 0) by { Without(after, t); }
  }

  lemma RecountAll<T>(threads: map<int, Pc<T>>, cv: Cv, kind: Kind)
    ensures Count(WakeAll(threads, cv), kind) ==
      if kind == Parked(cv) then 0
      else if kind == Woken(cv) then Count(threads, kind) + Count(threads, Parked(cv))
      else Count(threads, kind)
  {
    var woken := WakeAll(threads, cv);
    assert woken.Keys == threads.Keys;
    forall t | t in threads
      ensures KindOf(woken[t]) == if KindOf(threads[t]) == Parked(cv) then Woken(cv) else KindOf(threads[t])
    {
    }
    forall t ensures t in Who(woken, kind) <==> t in threads && KindOf(woken[t]) == kind {
    }
    if kind == Parked(cv) {
      assert Who(woken, kind) == {};
    } else if kind == Woken(cv) {
      assert Who(woken, kind) == Who(threads, kind) + Who(threads, Parked(cv));
      assert Who(threads, kind) !! Who(threads, Parked(cv));
    } else {
      assert Who(woken, kind) == Who(threads, kind);
    }
  }

  lemma Someone<T>(threads: map<int, Pc<T>>, kind: Kind)
    ensures Count(threads, kind) > 0 <==> exists t :: t in threads && KindOf(threads[t]) == kind
  {
    var who := Who(threads, kind);
    if t :| t in threads && KindOf(threads[t]) == kind {
      assert t in who;
    } else {
      forall t | t in threads.Keys ensures t !in who {
        assert KindOf(threads[t]) != kind;
      }
      assert who <= threads.Keys;
      assert who == {};
    }
  }

  // The invariant.

  /** What a waiter on `cv` could use right now: items, or free slots. */
  function Usable<T>(s: State<T>, cv: Cv): int {
    if cv == NotEmpty then |s.buffer| else s.capacity - |s.buffer|
  }

  /** While anyone is parked on `cv`, each usable item or slot is matched by a
      notification still owed or a woken thread that has not looked yet. */
  ghost predicate Covered<T>(s: State<T>, cv: Cv) {
    !s.closed && Count(s.threads, Parked(cv)) > 0 ==>
      Usable(s, cv) <= Count(s.threads, Telling(cv)) + Count(s.threads, Woken(cv))
  }

  /** After closing, nobody is parked on `cv` unless its broadcast is still owed. */
  ghost predicate Released<T>(s: State<T>, cv: Cv) {
    s.closed && Count(s.threads, Parked(cv)) > 0 ==>
      Count(s.threads, Shouting(NotEmpty)) + (if cv == NotFull then Count(s.threads, Shouting(NotFull)) else 0) > 0
  }

  ghost predicate Sound<T>(s: State<T>) {
    && s.capacity > 0 && |s.buffer| <= s.capacity && s.pushed == s.popped + s.buffer
    && Covered(s, NotEmpty) && Covered(s, NotFull) && Released(s, NotEmpty) && Released(s, NotFull)
  }

  /** Every thread at rest in an empty open queue. */
  ghost predicate Init<T>(s: State<T>) {
    && s.capacity > 0 && s.buffer == s.pushed == s.popped == [] && !s.closed
    && forall t :: t in s.threads ==> s.threads[t].Rest?
  }

  lemma InitSound<T>(s: State<T>)
    requires Init(s)
    ensures Sound(s)
  {
    forall cv: Cv ensures Count(s.threads, Parked(cv)) == 0 {
      Someone(s.threads, Parked(cv));
    }
  }

  /** Only the thread `t` moved, and the queue with it. */
  lemma OneMoved<T>(s: State<T>, r: State<T>, t: int)
    requires t in s.threads && t in r.threads && r.threads == s.threads[t := r.threads[t]]
    ensures forall kind: Kind ::
      Count(r.threads, kind) ==
      Count(s.threads, kind) - (if KindOf(s.threads[t]) == kind then 1 else 0)
      + (if KindOf(r.threads[t]) == kind then 1 else 0)
    ensures |r.threads| == |s.threads|
  {
    forall kind: Kind
      ensures Count(r.threads, kind) ==
        Count(s.threads, kind) - (if KindOf(s.threads[t]) == kind then 1 else 0)
        + (if KindOf(r.threads[t]) == kind then 1 else 0)
    {
      Recount(s.threads, t, r.threads[t], kind);
    }
    assert r.threads.Keys == s.threads.Keys;
  }

  /** A broadcast: everyone parked on `cv` is runnable, nobody else moved. */
  lemma AllMoved<T>(threads: map<int, Pc<T>>, cv: Cv)
    ensures forall kind: Kind ::
      Count(WakeAll(threads, cv), kind) ==
      if kind == Parked(cv) then 0
      else if kind == Woken(cv) then Count(threads, kind) + Count(threads, Parked(cv))
      else Count(threads, kind)
    ensures |WakeAll(threads, cv)| == |threads| >= Count(threads, Parked(cv))
  {
    forall kind: Kind
      ensures Count(WakeAll(threads, cv), kind) ==
        if kind == Parked(cv) then 0
        else if kind == Woken(cv) then Count(threads, kind) + Count(threads, Parked(cv))
        else Count(threads, kind)
    {
      RecountAll(threads, cv, kind);
    }
    assert WakeAll(threads, cv).Keys == threads.Keys;
    var parked := Who(threads, Parked(cv));
    SubsetSize(parked, threads.Keys);
  }

  lemma TurnCovers<T>(s: State<T>, a: Action<T>, cv: Cv)
    requires Sound(s) && Enabled(s, a) && !a.NotifyOne? && !a.NotifyAll?
    ensures Covered(Apply(s, a), cv) && Released(Apply(s, a), cv)
  {
    hide Count;
    OneMoved(s, Apply(s, a), a.t);
  }

  lemma NotifyCovers<T>(s: State<T>, a: Action<T>, cv: Cv)
    requires Sound(s) && Enabled(s, a) && a.NotifyOne?
    ensures Covered(Apply(s, a), cv) && Released(Apply(s, a), cv)
  {
    hide Count;
    var told := Move(s, a.t, Rest(s.threads[a.t].outcome));
    var r := Apply(s, a);
    OneMoved(s, told, a.t);
    if Waits(s, a.to, s.threads[a.t].cv) {
      OneMoved(told, r, a.to);
    } else if Count(s.threads, Parked(cv)) > 0 {
      Someone(s.threads, Parked(cv));
      var u :| u in s.threads && KindOf(s.threads[u]) == Parked(cv);
      assert Waits(s, u, cv);
    }
  }

  lemma BroadcastCovers<T>(s: State<T>, a: Action<T>, cv: Cv)
    requires Sound(s) && Enabled(s, a) && a.NotifyAll?
    ensures Covered(Apply(s, a), cv) && Released(Apply(s, a), cv)
  {
    hide Count;
    var woken := s.(threads := WakeAll(s.threads, s.threads[a.t].cv));
    OneMoved(woken, Apply(s, a), a.t);
    AllMoved(s.threads, s.threads[a.t].cv);
  }

  lemma StepSound<T>(s: State<T>, a: Action<T>)
    requires Sound(s) && Enabled(s, a)
    ensures Sound(Apply(s, a))
  {
    hide Covered, Released;
    forall cv: Cv ensures Covered(Apply(s, a), cv) && Released(Apply(s, a), cv) {
      if a.NotifyOne? {
        NotifyCovers(s, a, cv);
      } else if a.NotifyAll? {
        BroadcastCovers(s, a, cv);
      } else {
        TurnCovers(s, a, cv);
      }
    }
  }

  // Runs.

  ghost predicate Run<T>(states: seq<State<T>>, actions: seq<Action<T>>) {
    && |states| == |actions| + 1
    && forall i :: 0 <= i < |actions| ==>
         Enabled(states[i], actions[i]) && states[i + 1] == Apply(states[i], actions[i])
  }

  lemma {:induction false} RunSound<T>(states: seq<State<T>>, actions: seq<Action<T>>, k: nat)
    requires Run(states, actions) && Init(states[0]) && k < |states|
    ensures Sound(states[k])
  {
    if k == 0 {
      InitSound(states[0]);
    } else {
      RunSound(states, actions, k - 1);
      StepSound(states[k - 1], actions[k - 1]);
    }
  }

  /** No notification is owed and no woken thread has yet to look. */
  ghost predicate Quiet<T>(s: State<T>) {
    forall t :: t in s.threads ==> var kind := KindOf(s.threads[t]); kind.Resting? || kind.Parked?
  }

  /** In every interleaving, spurious wake-ups and timeouts included: once nothing is in
      flight, a consumer is parked only on an empty open queue, a producer only on a full
      open one; and what came out is a prefix of what went in, never more than fits apart. */
  lemma NoLostWakeUp<T>(states: seq<State<T>>, actions: seq<Action<T>>, k: nat)
    requires Run(states, actions) && Init(states[0]) && k < |states|
    ensures var s := states[k]; s.popped <= s.pushed && |s.pushed| - |s.popped| <= s.capacity
    ensures Quiet(states[k]) ==>
      forall t :: Waits(states[k], t, NotEmpty) ==> !states[k].closed && states[k].buffer == []
    ensures Quiet(states[k]) ==>
      forall t :: Waits(states[k], t, NotFull) ==> !states[k].closed && |states[k].buffer| == states[k].capacity
  {
    var s := states[k];
    RunSound(states, actions, k);
    if Quiet(s) {
      forall t, cv | Waits(s, t, cv) ensures !s.closed && Usable(s, cv) <= 0 {
        hide Count;
        Someone(s.threads, Parked(cv));
        Someone(s.threads, Woken(cv));
        Someone(s.threads, Telling(cv));
        Someone(s.threads, Shouting(NotEmpty));
        Someone(s.threads, Shouting(NotFull));
      }
      assert Usable(s, NotEmpty) == |s.buffer| && Usable(s, NotFull) == s.capacity - |s.buffer|;
    }
  }

  /** The n-th pop to succeed hands its caller the n-th value pushed; no other step takes anything out. */
  lemma PopsInPushOrder<T>(states: seq<State<T>>, actions: seq<Action<T>>, k: nat)
    requires Run(states, actions) && Init(states[0]) && k < |actions|
    ensures states[k + 1].popped == states[k].popped ||
      (&& |states[k].popped| < |states[k].pushed|
       && var x := states[k].pushed[|states[k].popped|];
          states[k + 1].popped == states[k].popped + [x]
          && states[k + 1].threads[actions[k].t] == Tell(NotFull, Popped(x)))
    ensures (states[k + 1].threads[actions[k].t].Tell? && states[k + 1].threads[actions[k].t].outcome.Popped?) ==>
      states[k + 1].popped == states[k].popped + [states[k + 1].threads[actions[k].t].outcome.item]
  {
    RunSound(states, actions, k);
    var s, a := states[k], actions[k];
    var r := Apply(s, a);
    if r.popped != s.popped {
      var x := s.buffer[0];
      assert r.popped == s.popped + [x] && r.threads[a.t] == Tell(NotFull, Popped(x));
    }
  }

  /** The value that a step would put in. */
  function Brought<T>(s: State<T>, a: Action<T>): Option<T> {
    if a.Push? || a.TryPush? then Some(a.value)
    else if a.Resume? && a.t in s.threads && s.threads[a.t].WantsRoom? then Some(s.threads[a.t].value)
    else None
  }

  /** A value goes in at the back exactly when the thread that brought it is to be told so, with
      room for it and before the queue is closed; no other step puts anything in. */
  lemma PushesAreTold<T>(s: State<T>, a: Action<T>)
    requires Enabled(s, a)
    ensures var r := Apply(s, a);
      r.threads[a.t] == Tell(NotEmpty, Pushed) <==> Brought(s, a).Some? && !s.closed && |s.buffer| < s.capacity
    ensures var r := Apply(s, a);
      if r.threads[a.t] == Tell(NotEmpty, Pushed) then
        && r.pushed == s.pushed + [Brought(s, a).value] && r.buffer == s.buffer + [Brought(s, a).value]
        && r.popped == s.popped
      else r.pushed == s.pushed
  {
  }

  /** `shutdown` is what closes the queue, and the first one owes both broadcasts before it returns. */
  lemma ShutdownCloses<T>(s: State<T>, a: Action<T>)
    requires Enabled(s, a)
    ensures Apply(s, a).closed <==> s.closed || a.Shutdown?
    ensures a.Shutdown? && !s.closed ==> Apply(s, a).threads[a.t] == Shout(NotEmpty)
    ensures a.NotifyAll? ==>
      Apply(s, a).threads[a.t] == if s.threads[a.t].cv == NotEmpty then Shout(NotFull) else Rest(Idle)
  {
  }

  /** A timed wait that runs out ends the call at the thread's next look: with the front item if
      there is one, as closed or else as a timeout. */
  lemma WaitRunsOut<T>(s: State<T>, a: Action<T>, r: State<T>)
    requires Enabled(s, a) && a.Expire? && a.t in r.threads && r.threads[a.t] == Apply(s, a).threads[a.t]
    ensures Enabled(r, Resume(a.t))
    ensures Apply(r, Resume(a.t)).threads[a.t] ==
      if r.buffer != [] then Tell(NotFull, Popped(r.buffer[0]))
      else if r.closed then Rest(Closed)
      else Rest(Timeout)
  {
  }

  /** Closing is final: nothing goes in afterwards, and what was buffered can still come out. */
  lemma {:induction false} ClosedForGood<T>(states: seq<State<T>>, actions: seq<Action<T>>, j: nat, k: nat)
    requires Run(states, actions) && j <= k < |states| && states[j].closed
    ensures states[k].closed && states[k].pushed == states[j].pushed
  {
    if j == k {
    } else {
      ClosedForGood(states, actions, j, k - 1);
    }
  }

  /** What each refusal means at the moment it is decided. The buffer is untouched by all of them. */
  lemma Refusals<T>(s: State<T>, a: Action<T>)
    requires Sound(s) && Enabled(s, a) && !a.NotifyOne? && !a.NotifyAll?
    ensures var r := Apply(s, a); r.threads[a.t].Rest? ==>
      && r.buffer == s.buffer && r.pushed == s.pushed && r.popped == s.popped
      && match r.threads[a.t].outcome
         case Closed =>
           s.closed && (a.Push? || a.TryPush? || (a.Resume? && s.threads[a.t].WantsRoom?) || s.buffer == [])
         case Timeout => !s.closed && s.buffer == [] && a.Resume? && s.threads[a.t].WantsItem? && s.threads[a.t].late
         case Full => a.TryPush? && !s.closed && |s.buffer| == s.capacity
         case Empty => a.TryPop? && !s.closed && s.buffer == []
         case Idle => a.Shutdown? && s.closed
         case _ => false
  {
  }

  // Calls.

  predicate IsCall<T>(a: Action<T>) {
    a.Push? || a.TryPush? || a.Pop? || a.TryPop? || a.Shutdown?
  }

  /** What a step added. */
  function Added<T>(before: seq<T>, after: seq<T>): seq<T> {
    if |before| <= |after| then after[|before|..] else []
  }

  /** What the steps of thread `t` put into the queue from state `j` to state `k`. */
  ghost function PutBy<T>(states: seq<State<T>>, actions: seq<Action<T>>, t: int, j: nat, k: nat): seq<T>
    requires |states| == |actions| + 1 && j <= k <= |actions|
    decreases k
  {
    if j == k then []
    else
      PutBy(states, actions, t, j, k - 1)
      + if actions[k - 1].t == t then Added(states[k - 1].pushed, states[k].pushed) else []
  }

  /** And what they took out of it. */
  ghost function GotBy<T>(states: seq<State<T>>, actions: seq<Action<T>>, t: int, j: nat, k: nat): seq<T>
    requires |states| == |actions| + 1 && j <= k <= |actions|
    decreases k
  {
    if j == k then []
    else
      GotBy(states, actions, t, j, k - 1)
      + if actions[k - 1].t == t then Added(states[k - 1].popped, states[k].popped) else []
  }

  /** A thread in the middle of `call`, or back from it, has put in and got out what it says. */
  ghost predicate Says<T>(call: Action<T>, pc: Pc<T>, closed: bool, put: seq<T>, got: seq<T>) {
    var none := put == [] && got == [];
    match call
    case Push(_, value) =>
      (match pc
       case WantsRoom(x, _) => x == value && none
       case Tell(cv, outcome) => cv == NotEmpty && outcome == Pushed && put == [value] && got == []
       case Rest(outcome) => (outcome == Pushed && put == [value] && got == []) || (outcome == Closed && closed && none)
       case _ => false)
    case TryPush(_, value) =>
      (match pc
       case Tell(cv, outcome) => cv == NotEmpty && outcome == Pushed && put == [value] && got == []
       case Rest(outcome) =>
         (outcome == Pushed && put == [value] && got == []) || (outcome == Closed && closed && none)
         || (outcome == Full && none)
       case _ => false)
    case Pop(_, timed) =>
      (match pc
       case WantsItem(x, _, late) => x == timed && (late ==> timed) && none
       case Tell(cv, outcome) => cv == NotFull && outcome.Popped? && got == [outcome.item] && put == []
       case Rest(outcome) =>
         (outcome.Popped? && got == [outcome.item] && put == []) || (outcome == Closed && closed && none)
         || (outcome == Timeout && timed && none)
       case _ => false)
    case TryPop(_) =>
      (match pc
       case Tell(cv, outcome) => cv == NotFull && outcome.Popped? && got == [outcome.item] && put == []
       case Rest(outcome) =>
         (outcome.Popped? && got == [outcome.item] && put == []) || (outcome == Closed && closed && none)
         || (outcome == Empty && none)
       case _ => false)
    case _ => (pc.Shout? || pc == Rest(Idle)) && none
  }

  lemma CallStarts<T>(s: State<T>, call: Action<T>)
    requires Enabled(s, call) && IsCall(call)
    ensures var r := Apply(s, call);
      && call.t in r.threads
      && Says(call, r.threads[call.t], r.closed, Added(s.pushed, r.pushed), Added(s.popped, r.popped))
  {
  }

  /** A step of its own brings a thread further in its call, with a true account. */
  lemma CallGoesOn<T>(s: State<T>, a: Action<T>, call: Action<T>, put: seq<T>, got: seq<T>)
    requires Enabled(s, a) && IsCall(call) && a.t == call.t && !s.threads[call.t].Rest?
    requires Says(call, s.threads[call.t], s.closed, put, got)
    ensures var r := Apply(s, a);
      && call.t in r.threads
      && Says(call, r.threads[call.t], r.closed, put + Added(s.pushed, r.pushed), got + Added(s.popped, r.popped))
  {
  }

  /** A step of another thread may wake it, and no more. */
  lemma CallWaits<T>(s: State<T>, a: Action<T>, call: Action<T>, put: seq<T>, got: seq<T>)
    requires Enabled(s, a) && IsCall(call) && a.t != call.t && call.t in s.threads && !s.threads[call.t].Rest?
    requires Says(call, s.threads[call.t], s.closed, put, got)
    ensures var r := Apply(s, a);
      call.t in r.threads && Says(call, r.threads[call.t], r.closed, put, got)
  {
  }

  /** Whoever is told that a push succeeded has put in its own value, once; whoever is told that
      a pop succeeded has got that item out, once; and whoever is told anything else has changed
      nothing, however long the call waited and whatever the others did meanwhile. */
  lemma {:induction false} CallsTellTheTruth<T>(states: seq<State<T>>, actions: seq<Action<T>>, j: nat, k: nat)
    requires Run(states, actions) && j < k <= |actions| && IsCall(actions[j])
    requires forall i :: j < i < k ==> actions[j].t in states[i].threads && !states[i].threads[actions[j].t].Rest?
    ensures var t := actions[j].t;
      && t in states[k].threads
      && Says(actions[j], states[k].threads[t], states[k].closed, PutBy(states, actions, t, j, k),
              GotBy(states, actions, t, j, k))
    decreases k
  {
    hide Says, Apply, Added, Enabled;
    var t := actions[j].t;
    assert Enabled(states[k - 1], actions[k - 1]) && states[k] == Apply(states[k - 1], actions[k - 1]);
    if k == j + 1 {
      CallStarts(states[j], actions[j]);
      var put, got := Added(states[j].pushed, states[k].pushed), Added(states[j].popped, states[k].popped);
      assert [] + put == put && [] + got == got;
    } else {
      CallsTellTheTruth(states, actions, j, k - 1);
      var put, got := PutBy(states, actions, t, j, k - 1), GotBy(states, actions, t, j, k - 1);
      if actions[k - 1].t == t {
        CallGoesOn(states[k - 1], actions[k - 1], actions[j], put, got);
      } else {
        CallWaits(states[k - 1], actions[k - 1], actions[j], put, got);
        assert put + [] == put && got + [] == got;
      }
    }
  }

  // Settling.

  /** The steps that need neither a new call, nor a clock, nor luck. */
  predicate Internal<T>(a: Action<T>) {
    a.Resume? || a.NotifyOne? || a.NotifyAll?
  }

  /** What a thread of this kind still has to do on the `cv` side. */
  function Weight(kind: Kind, cv: Cv): nat {
    if kind == Parked(cv) || kind == Telling(cv) then 2 else if kind == Woken(cv) then 3 else 0
  }

  ghost function Lane<T>(threads: map<int, Pc<T>>, cv: Cv): nat {
    2 * Count(threads, Parked(cv)) + 3 * Count(threads, Woken(cv)) + 2 * Count(threads, Telling(cv))
  }

  ghost function Work<T>(s: State<T>): nat {
    var n := |s.threads| + 1;
    Lane(s.threads, NotEmpty) + Lane(s.threads, NotFull)
    + Times(2 * n, Count(s.threads, Shouting(NotEmpty))) + Times(n, Count(s.threads, Shouting(NotFull)))
  }

  lemma LaneMoved<T>(s: State<T>, r: State<T>, t: int)
    requires t in s.threads && t in r.threads && r.threads == s.threads[t := r.threads[t]]
    ensures forall cv: Cv ::
      Lane(r.threads, cv) == Lane(s.threads, cv) - Weight(KindOf(s.threads[t]), cv) + Weight(KindOf(r.threads[t]), cv)
  {
    hide Count;
    OneMoved(s, r, t);
  }

  lemma LaneBroadcast<T>(threads: map<int, Pc<T>>, cv: Cv)
    ensures Lane(WakeAll(threads, cv), cv) <= Lane(threads, cv) + |threads|
    ensures forall other: Cv :: other != cv ==> Lane(WakeAll(threads, cv), other) == Lane(threads, other)
  {
    hide Count;
    AllMoved(threads, cv);
  }

  function Times(a: nat, b: nat): nat {
    a * b
  }

  lemma TimesLess(a: nat, b: nat)
    requires b > 0
    ensures Times(a, b - 1) + a == Times(a, b)
  {
    assert a * (b - 1) + a == a * b;
  }

  lemma CountIn<T>(threads: map<int, Pc<T>>, t: int)
    requires t in threads
    ensures Count(threads, KindOf(threads[t])) > 0
  {
    Someone(threads, KindOf(threads[t]));
  }

  /** Every internal step uses up work. */
  lemma WorkDrops<T>(s: State<T>, a: Action<T>)
    requires Enabled(s, a) && Internal(a)
    ensures Work(Apply(s, a)) < Work(s)
  {
    match a
    case Resume(_) => WorkResumed(s, a);
    case NotifyOne(_, _) => WorkNotified(s, a);
    case NotifyAll(_) => WorkBroadcast(s, a);
  }

  lemma WorkResumed<T>(s: State<T>, a: Action<T>)
    requires Enabled(s, a) && a.Resume?
    ensures Work(Apply(s, a)) < Work(s)
  {
    hide Count, Times, Lane;
    OneMoved(s, Apply(s, a), a.t);
    LaneMoved(s, Apply(s, a), a.t);
  }

  lemma WorkNotified<T>(s: State<T>, a: Action<T>)
    requires Enabled(s, a) && a.NotifyOne?
    ensures Work(Apply(s, a)) < Work(s)
  {
    hide Count, Times, Lane;
    var told := Move(s, a.t, Rest(s.threads[a.t].outcome));
    OneMoved(s, told, a.t);
    LaneMoved(s, told, a.t);
    assert s.threads[a.t].cv == NotEmpty || s.threads[a.t].cv == NotFull;
    assert Work(told) == Work(s) - 2;
    if Waits(s, a.to, s.threads[a.t].cv) {
      OneMoved(told, Apply(s, a), a.to);
      LaneMoved(told, Apply(s, a), a.to);
    }
  }

  lemma WorkBroadcast<T>(s: State<T>, a: Action<T>)
    requires Enabled(s, a) && a.NotifyAll?
    ensures Work(Apply(s, a)) < Work(s)
  {
    hide Count, Times, Lane;
    CountIn(s.threads, a.t);
    var r, cv := Apply(s, a), s.threads[a.t].cv;
    var woken := s.(threads := WakeAll(s.threads, cv));
    AllMoved(s.threads, cv);
    LaneBroadcast(s.threads, cv);
    OneMoved(woken, r, a.t);
    LaneMoved(woken, r, a.t);
    var n := |s.threads| + 1;
    if cv == NotEmpty {
      TimesLess(2 * n, Count(s.threads, Shouting(NotEmpty)));
      TimesLess(n, Count(r.threads, Shouting(NotFull)));
    } else {
      TimesLess(n, Count(s.threads, Shouting(NotFull)));
    }
  }

  lemma {:induction false} Settles<T>(states: seq<State<T>>, actions: seq<Action<T>>, k: nat)
    requires Run(states, actions) && k <= |actions|
    requires forall i :: k <= i < |actions| ==> Internal(actions[i])
    ensures |actions| - k + Work(states[|actions|]) <= Work(states[k])
    decreases |actions| - k
  {
    if k < |actions| {
      hide Work;
      WorkDrops(states[k], actions[k]);
      Settles(states, actions, k + 1);
    }
  }

  /** A state is quiet exactly when no internal step is enabled. */
  lemma QuietMeansDone<T>(s: State<T>)
    ensures Quiet(s) <==> forall a: Action<T> :: Internal(a) ==> !Enabled(s, a)
  {
    if !Quiet(s) {
      var t :| t in s.threads && !KindOf(s.threads[t]).Resting? && !KindOf(s.threads[t]).Parked?;
      var pc := s.threads[t];
      if pc.Tell? {
        if u :| Waits(s, u, pc.cv) {
          assert Enabled(s, NotifyOne(t, u));
        } else {
          assert Enabled(s, NotifyOne(t, t));
        }
      } else if pc.Shout? {
        assert Enabled(s, NotifyAll(t));
      } else {
        assert Enabled(s, Resume(t));
      }
    }
  }

  /** Left to itself from any reachable state, the queue runs out of internal steps within
      `Work` of them, and then nobody sleeps beside something it could use. */
  lemma EveryoneServed<T>(states: seq<State<T>>, actions: seq<Action<T>>, k: nat)
    requires Run(states, actions) && Init(states[0]) && k <= |actions|
    requires forall i :: k <= i < |actions| ==> Internal(actions[i])
    requires forall a: Action<T> :: Internal(a) ==> !Enabled(states[|actions|], a)
    ensures |actions| - k <= Work(states[k])
    ensures forall t :: Waits(states[|actions|], t, NotEmpty) ==>
      !states[|actions|].closed && states[|actions|].buffer == []
    ensures forall t :: Waits(states[|actions|], t, NotFull) ==>
      !states[|actions|].closed && |states[|actions|].buffer| == states[|actions|].capacity
  {
    Settles(states, actions, k);
    QuietMeansDone(states[|actions|]);
    NoLostWakeUp(states, actions, |actions|);
  }

  class ConcurrentQueue<T> {
    const capacity: nat
    var buffer: seq<T>
    var closed: bool
    /** The threads that use the queue, and where each one is. */
    var threads: map<int, Pc<T>>
    ghost var pushed: seq<T>
    ghost var popped: seq<T>

    ghost function Now(): State<T>
      reads this
    {
      State(capacity, buffer, closed, threads, pushed, popped)
    }

    ghost predicate Valid()
      reads this
    {
      Sound(Now())
    }

    constructor Sized(capacity: nat, users: set<int>)
      requires capacity > 0
      ensures Valid() && Init(Now()) && this.capacity == capacity && threads.Keys == users
    {
      this.capacity, buffer, closed := capacity, [], false;
      threads := map t | t in users :: Rest(Idle);
      pushed, popped := [], [];
      new;
      InitSound(Now());
    }

    /** A capacity of zero is refused. */
    static method Make(capacity: nat, users: set<int>) returns (queue: Option<ConcurrentQueue<T>>)
      ensures queue.Some? <==> capacity > 0
      ensures queue.Some? ==> fresh(queue.value) && queue.value.Valid() && Init(queue.value.Now())
      ensures queue.Some? ==> queue.value.capacity == capacity && queue.value.threads.Keys == users
    {
      if capacity == 0 {
        return None;
      }
      var made := new ConcurrentQueue<T>.Sized(capacity, users);
      return Some(made);
    }

    method Insert(t: int, value: T)
      modifies this
      ensures Now() == Inserted(old(Now()), t, value)
    {
      buffer := buffer + [value];
      pushed := pushed + [value];
      threads := threads[t := Tell(NotEmpty, Pushed)];
    }

    method Extract(t: int)
      requires buffer != []
      modifies this
      ensures Now() == Extracted(old(Now()), t)
    {
      var out := buffer[0];
      buffer := buffer[1..];
      popped := popped + [out];
      threads := threads[t := Tell(NotFull, Popped(out))];
    }

    /** The body of `push` under the mutex, once per look at the predicate. */
    method PushSection(t: int, value: T)
      modifies this
      ensures Now() == PushTurn(old(Now()), t, value)
    {
      if !(closed || |buffer| < capacity) {
        threads := threads[t := WantsRoom(value, false)];
        return;
      }
      if closed {
        threads := threads[t := Rest(Closed)];
        return;
      }
      Insert(t, value);
    }

    /** The body of `pop` and `pop_for` under the mutex. */
    method PopSection(t: int, timed: bool, late: bool)
      modifies this
      ensures Now() == PopTurn(old(Now()), t, timed, late)
    {
      if !(closed || buffer != []) {
        threads := threads[t := if late then Rest(Timeout) else WantsItem(timed, false, false)];
        return;
      }
      if buffer == [] {
        threads := threads[t := Rest(Closed)];
        return;
      }
      Extract(t);
    }

    method Push(t: int, value: T)
      requires Valid() && t in threads && threads[t].Rest?
      modifies this
      ensures Valid() && Now() == Apply(old(Now()), Action.Push(t, value))
    {
      StepSound(Now(), Action.Push(t, value));
      PushSection(t, value);
    }

    method TryPush(t: int, value: T)
      requires Valid() && t in threads && threads[t].Rest?
      modifies this
      ensures Valid() && Now() == Apply(old(Now()), Action.TryPush(t, value))
    {
      StepSound(Now(), Action.TryPush(t, value));
      if closed {
        threads := threads[t := Rest(Closed)];
        return;
      }
      if |buffer| >= capacity {
        threads := threads[t := Rest(Full)];
        return;
      }
      Insert(t, value);
    }

    /** `pop`, or `pop_for` when `timed`. */
    method Pop(t: int, timed: bool)
      requires Valid() && t in threads && threads[t].Rest?
      modifies this
      ensures Valid() && Now() == Apply(old(Now()), Action.Pop(t, timed))
    {
      StepSound(Now(), Action.Pop(t, timed));
      PopSection(t, timed, false);
    }

    method TryPop(t: int)
      requires Valid() && t in threads && threads[t].Rest?
      modifies this
      ensures Valid() && Now() == Apply(old(Now()), Action.TryPop(t))
    {
      StepSound(Now(), Action.TryPop(t));
      if buffer == [] {
        threads := threads[t := Rest(if closed then Closed else Empty)];
        return;
      }
      Extract(t);
    }

    method Shutdown(t: int)
      requires Valid() && t in threads && threads[t].Rest?
      modifies this
      ensures Valid() && Now() == Apply(old(Now()), Action.Shutdown(t))
    {
      StepSound(Now(), Action.Shutdown(t));
      if closed {
        threads := threads[t := Rest(Idle)];
        return;
      }
      closed := true;
      threads := threads[t := Shout(NotEmpty)];
    }

    /** A woken thread has the mutex again and goes round the wait loop. */
    method Resume(t: int)
      requires Valid() && t in threads && KindOf(threads[t]).Woken?
      modifies this
      ensures Valid() && Now() == Apply(old(Now()), Action.Resume(t))
    {
      StepSound(Now(), Action.Resume(t));
      var pc := threads[t];
      if pc.WantsRoom? {
        PushSection(t, pc.value);
      } else {
        PopSection(t, pc.timed, pc.late);
      }
    }

    /** The notification owed after a push or a pop; it reaches one waiter if there is any. */
    method NotifyOne(t: int, to: int)
      requires Valid() && Enabled(Now(), Action.NotifyOne(t, to))
      modifies this
      ensures Valid() && Now() == Apply(old(Now()), Action.NotifyOne(t, to))
    {
      StepSound(Now(), Action.NotifyOne(t, to));
      var pc := threads[t];
      threads := threads[t := Rest(pc.outcome)];
      if to in threads && KindOf(threads[to]) == Parked(pc.cv) {
        threads := threads[to := Wake(threads[to], false)];
      }
    }

    /** One of the two broadcasts of `shutdown`. */
    method NotifyAll(t: int)
      requires Valid() && t in threads && threads[t].Shout?
      modifies this
      ensures Valid() && Now() == Apply(old(Now()), Action.NotifyAll(t))
    {
      StepSound(Now(), Action.NotifyAll(t));
      var cv := threads[t].cv;
      threads := WakeAll(threads, cv);
      threads := threads[t := if cv == NotEmpty then Shout(NotFull) else Rest(Idle)];
    }
  }
}
