/** What one consumer of the bounded queue sees of it: between two of its own takings the
    buffer only grows at the back, and the queue may close. */
module QueueHistory {
  import opened QueueMonitor

  /** What has come out, what is buffered, and whether the queue is closed. */
  datatype Line<T> = Line(popped: seq<T>, buffer: seq<T>, closed: bool)

  function LineOf<T>(s: State<T>): Line<T> {
    Line(s.popped, s.buffer, s.closed)
  }

  /** Others pushed, or closed the queue; once it is closed nothing more comes. */
  predicate Elapsed<T(==)>(a: Line<T>, b: Line<T>) {
    && b.popped == a.popped && a.buffer <= b.buffer
    && (a.closed ==> b.closed && b.buffer == a.buffer)
  }

  /** The front item came out. */
  predicate Took<T(==)>(a: Line<T>, b: Line<T>, item: T) {
    a.buffer != [] && a.buffer[0] == item && b == Line(a.popped + [item], a.buffer[1..], a.closed)
  }

  lemma ElapsedOn<T>(a: Line<T>, b: Line<T>, c: Line<T>)
    requires Elapsed(a, b) && Elapsed(b, c)
    ensures Elapsed(a, c)
  {
  }

  /** Nobody but `t` takes anything out. */
  ghost predicate OneConsumer<T>(states: seq<State<T>>, actions: seq<Action<T>>, t: int)
    requires Run(states, actions)
  {
    forall i :: 0 <= i < |actions| && actions[i].t != t ==> states[i + 1].popped == states[i].popped
  }

  /** A step on behalf of a pop. */
  ghost predicate Popping<T>(s: State<T>, a: Action<T>)
    requires Enabled(s, a)
  {
    a.Pop? || a.TryPop? || (a.Resume? && s.threads[a.t].WantsItem?)
  }

  /** Each step of a run is one the consumer can describe: time passed, or it took the front item
      and is about to return it. A pop that ends otherwise found the buffer empty. */
  lemma StepOfHistory<T>(states: seq<State<T>>, actions: seq<Action<T>>, t: int, k: nat)
    requires Run(states, actions) && Init(states[0]) && OneConsumer(states, actions, t) && k < |actions|
    ensures var a, b := LineOf(states[k]), LineOf(states[k + 1]);
      if b.popped == a.popped then Elapsed(a, b)
      else
        && actions[k].t == t && a.buffer != [] && Took(a, b, a.buffer[0])
        && states[k + 1].threads[t] == Tell(NotFull, Popped(a.buffer[0]))
    ensures var s, r := states[k], states[k + 1];
      Popping(s, actions[k]) && r.threads[actions[k].t].Rest? ==>
        && LineOf(r) == LineOf(s) && s.buffer == []
        && (r.threads[actions[k].t].outcome == Closed <==> s.closed)
  {
    RunSound(states, actions, k);
    var s, a := states[k], actions[k];
    if Apply(s, a).popped != s.popped {
      assert Apply(s, a).popped == s.popped + [s.buffer[0]];
    }
  }

  /** However many steps others take between two takings, the consumer sees one passing of time. */
  lemma {:induction false} TimePasses<T>(states: seq<State<T>>, actions: seq<Action<T>>, t: int, j: nat, k: nat)
    requires Run(states, actions) && Init(states[0]) && OneConsumer(states, actions, t) && j <= k < |states|
    requires forall i :: j <= i < k ==> states[i + 1].popped == states[i].popped
    ensures Elapsed(LineOf(states[j]), LineOf(states[k]))
  {
    hide Init, OneConsumer, Apply, Enabled, Sound, Popping;
    if j == k {
    } else {
      TimePasses(states, actions, t, j, k - 1);
      StepOfHistory(states, actions, t, k - 1);
      ElapsedOn(LineOf(states[j]), LineOf(states[k - 1]), LineOf(states[k]));
    }
  }

  /** A pop told that the queue is closed means that everything ever pushed has come out. */
  lemma ClosedMeansDrained<T>(states: seq<State<T>>, actions: seq<Action<T>>, t: int, k: nat)
    requires Run(states, actions) && Init(states[0]) && OneConsumer(states, actions, t) && k < |actions|
    requires Popping(states[k], actions[k]) && states[k + 1].threads[actions[k].t] == Rest(Closed)
    ensures states[k].popped == states[|actions|].pushed
  {
    StepOfHistory(states, actions, t, k);
    RunSound(states, actions, k);
    ClosedForGood(states, actions, k, |actions|);
  }
}
