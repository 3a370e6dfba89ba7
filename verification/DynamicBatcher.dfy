/** The C++ batcher thread: it drains the shared queue into batches that close on size,
    on the age of their first member, or on shutdown. */
module DynamicBatching {
  import opened QueueHistory

  datatype Request = Request(id: nat, deadline: int)

  /** A request off the queue: when it was stamped, and when its deadline was looked at. */
  datatype Taken = Taken(request: Request, dequeued: int, checked: int) {
    /** A deadline of zero is no deadline. */
    predicate Expired() {
      request.deadline != 0 && checked >= request.deadline
    }
  }

  datatype Trigger = MaxSize | Timeout | Shutdown

  /** A timed wait on the queue: when it was computed, and for how long. */
  datatype Wait = Wait(start: int, asked: int)

  datatype Batch = Batch(requests: seq<Taken>, trigger: Trigger, formed: int, waits: seq<Wait>)

  datatype Status = Popped(request: Request) | TimedOut | Closed

  function Joined<T>(parts: seq<seq<T>>): seq<T> {
    if parts == [] then [] else Joined(parts[..|parts| - 1]) + parts[|parts| - 1]
  }

  lemma JoinedMore<T>(parts: seq<seq<T>>, part: seq<T>)
    ensures Joined(parts + [part]) == Joined(parts) + part
  {
    assert (parts + [part])[..|parts|] == parts;
  }

  function Live(taken: seq<Taken>): seq<Taken> {
    if taken == [] then []
    else
      var rest, last := Live(taken[..|taken| - 1]), taken[|taken| - 1];
      if last.Expired() then rest else rest + [last]
  }

  function Dead(taken: seq<Taken>): seq<Taken> {
    if taken == [] then []
    else
      var rest, last := Dead(taken[..|taken| - 1]), taken[|taken| - 1];
      if last.Expired() then rest + [last] else rest
  }

  function RequestsOf(taken: seq<Taken>): (r: seq<Request>)
    ensures |r| == |taken| && forall i :: 0 <= i < |taken| ==> r[i] == taken[i].request
  {
    seq(|taken|, i requires 0 <= i < |taken| => taken[i].request)
  }

  lemma TakenMore(taken: seq<Taken>, t: Taken)
    ensures Live(taken + [t]) == if t.Expired() then Live(taken) else Live(taken) + [t]
    ensures Dead(taken + [t]) == if t.Expired() then Dead(taken) + [t] else Dead(taken)
    ensures RequestsOf(taken + [t]) == RequestsOf(taken) + [t.request]
  {
    assert (taken + [t])[..|taken|] == taken;
  }

  /** Each request is in exactly one of the two: among the live if it has no deadline, or if the
      clock had not reached it at its check, and among the dead otherwise. */
  lemma {:induction false} LiveOrDead(taken: seq<Taken>)
    ensures multiset(taken) == multiset(Live(taken)) + multiset(Dead(taken))
    ensures forall t :: t in Live(taken) <==> t in taken && (t.request.deadline == 0 || t.checked < t.request.deadline)
    ensures forall t :: t in Dead(taken) <==> t in taken && t.request.deadline != 0 && t.request.deadline <= t.checked
  {
    if taken == [] {
    } else {
      var rest, last := taken[..|taken| - 1], taken[|taken| - 1];
      LiveOrDead(rest);
      assert taken == rest + [last];
      assert multiset(taken) == multiset(rest) + multiset{last};
      assert forall t :: t in taken <==> t in rest || t == last;
    }
  }

  /** Both keep the order in which the requests were taken. */
  lemma {:induction false} LiveInOrder(taken: seq<Taken>, k: nat)
    requires k <= |taken|
    ensures Live(taken[..k]) <= Live(taken) && Dead(taken[..k]) <= Dead(taken)
  {
    if k == |taken| {
      assert taken[..k] == taken;
    } else {
      var rest := taken[..|taken| - 1];
      LiveInOrder(rest, k);
      assert rest[..k] == taken[..k];
    }
  }

  /** The queue as its one consumer meets it: each step is one that any run of the bounded queue
      allows between or at this thread's takings. Whatever other threads push, and the moment they
      close it, falls between two of its own steps; `times` is the clock there. */
  class SharedQueue {
    const arrivals: seq<seq<Request>>
    const times: nat -> int
    var ticks: nat
    var buffer: seq<Request>
    var closed: bool
    ghost var popped: seq<Request>

    constructor (arrivals: seq<seq<Request>>, times: nat -> int)
      requires forall i, j :: 0 <= i <= j ==> times(i) <= times(j)
      ensures Valid() && this.arrivals == arrivals && this.times == times && popped == []
    {
      this.arrivals, this.times := arrivals, times;
      ticks, buffer, closed, popped := 0, [], false, [];
      new;
      assert arrivals[..0] == [];
    }

    /** Every request `submit` ever accepted, in push order. */
    function Accepted(): seq<Request> {
      Joined(arrivals)
    }

    ghost function Seen(): Line<Request>
      reads this
    {
      Line(popped, buffer, closed)
    }

    function Sofar(): nat
      reads this`ticks
    {
      if ticks < |arrivals| then ticks else |arrivals|
    }

    /** First in, first out, and closed once nothing more is coming. */
    ghost predicate Valid()
      reads this
    {
      && popped + buffer == Joined(arrivals[..Sofar()])
      && (closed <==> ticks > |arrivals|)
      && forall i, j :: 0 <= i <= j ==> times(i) <= times(j)
    }

    ghost function Left(): nat
      reads this`ticks
    {
      if ticks > |arrivals| then 0 else |arrivals| + 1 - ticks
    }

    /** Other threads have run, and time has passed. */
    method Look() returns (now: int)
      requires Valid()
      modifies this`ticks, this`buffer, this`closed
      ensures Valid() && ticks == old(ticks) + 1 && now == times(ticks) && Elapsed(old(Seen()), Seen())
      ensures old(!closed) ==> Left() < old(Left())
      ensures Left() <= old(Left())
    {
      if ticks < |arrivals| {
        JoinedMore(arrivals[..ticks], arrivals[ticks]);
        assert arrivals[..ticks + 1] == arrivals[..ticks] + [arrivals[ticks]];
        buffer := buffer + arrivals[ticks];
      } else {
        closed := true;
      }
      ticks := ticks + 1;
      now := times(ticks);
    }

    method TakeFront() returns (request: Request)
      requires Valid() && buffer != []
      modifies this`buffer, this`popped
      ensures Valid() && Took(old(Seen()), Seen(), request)
    {
      request := buffer[0];
      assert popped + [request] + buffer[1..] == popped + buffer;
      buffer := buffer[1..];
      popped := popped + [request];
    }

    method Pop() returns (status: Status)
      requires Valid()
      modifies this
      ensures Valid() && old(ticks) <= ticks && (old(closed) ==> closed)
      ensures match status
              case Popped(request) => popped == old(popped) + [request]
              case TimedOut => false
              case Closed => popped == old(popped) && closed && buffer == []
    {
      var _ := Look();
      while !(closed || buffer != [])
        invariant Valid() && old(ticks) <= ticks && popped == old(popped) && (old(closed) ==> closed)
        decreases Left()
      {
        var _ := Look();
      }
      if buffer == [] {
        return Closed;
      }
      var request := TakeFront();
      return Popped(request);
    }

    /** The wait runs out at the first look with the clock at `until` or later and nothing to take. */
    method PopFor(until: int) returns (status: Status)
      requires Valid()
      modifies this
      ensures Valid() && old(ticks) <= ticks && (old(closed) ==> closed)
      ensures match status
              case Popped(request) => popped == old(popped) + [request]
              case TimedOut => popped == old(popped) && times(ticks) >= until
              case Closed => popped == old(popped) && closed && buffer == []
    {
      var now := Look();
      while !(closed || buffer != []) && now < until
        invariant Valid() && old(ticks) <= ticks && popped == old(popped) && now == times(ticks)
        invariant old(closed) ==> closed
        decreases Left()
      {
        now := Look();
      }
      if !(closed || buffer != []) {
        return TimedOut;
      }
      if buffer == [] {
        return Closed;
      }
      var request := TakeFront();
      return Popped(request);
    }

    /** `TimedOut` stands for the queue being open and merely empty. */
    method TryPop() returns (status: Status)
      requires Valid()
      modifies this
      ensures Valid() && old(ticks) <= ticks && (old(closed) ==> closed)
      ensures status.Popped? ==> popped == old(popped) + [status.request]
      ensures !status.Popped? ==> popped == old(popped) && (status == Closed <==> closed)
      ensures old(closed) && old(buffer) == [] ==> status == Closed && buffer == []
    {
      var _ := Look();
      if buffer == [] {
        return if closed then Closed else TimedOut;
      }
      var request := TakeFront();
      return Popped(request);
    }
  }

  /** What a batch handed on has to show. */
  predicate Proper(b: Batch, maxBatch: nat, maxWait: nat) {
    && 1 <= |b.requests| <= maxBatch
    && (b.trigger == MaxSize <==> |b.requests| == maxBatch)
    && (b.trigger == Timeout ==> b.formed >= b.requests[0].dequeued + maxWait)
    && Anchored(b.waits, b.requests[0].dequeued + maxWait)
  }

  /** Every timed wait starts before the deadline and asks for what is left until it. */
  predicate Anchored(waits: seq<Wait>, deadline: int) {
    forall i :: 0 <= i < |waits| ==> waits[i].start < deadline && waits[i].start + waits[i].asked == deadline
  }

  function Members(batches: seq<Batch>): seq<seq<Taken>> {
    seq(|batches|, i requires 0 <= i < |batches| => batches[i].requests)
  }

  lemma MembersMore(batches: seq<Batch>, batch: Batch)
    ensures Joined(Members(batches + [batch])) == Joined(Members(batches)) + batch.requests
  {
    assert Members(batches + [batch]) == Members(batches) + [batch.requests];
    JoinedMore(Members(batches), batch.requests);
  }

  lemma {:induction false} JoinedPrefix<T>(parts: seq<seq<T>>, k: nat)
    requires k <= |parts|
    ensures |Joined(parts[..k])| <= |Joined(parts)|
    decreases |parts|
  {
    if k < |parts| {
      JoinedPrefix(parts[..|parts| - 1], k);
      assert parts[..|parts| - 1][..k] == parts[..k];
    } else {
      assert parts[..k] == parts;
    }
  }

  class DynamicBatcher {
    const maxBatch: nat
    const maxWait: nat
    const queue: SharedQueue
    /** What the handler and the expiry callback were given, in order. */
    var batches: seq<Batch>
    var drops: seq<Taken>
    ghost var taken: seq<Taken>

    constructor (maxBatch: nat, maxWait: nat, queue: SharedQueue)
      requires maxBatch > 0 && queue.Valid() && queue.popped == []
      ensures Valid() && Handled([]) && this.maxBatch == maxBatch && this.maxWait == maxWait && this.queue == queue
      ensures batches == [] && drops == []
    {
      this.maxBatch, this.maxWait, this.queue := maxBatch, maxWait, queue;
      batches, drops, taken := [], [], [];
    }

    ghost predicate Valid()
      reads this, queue
    {
      && maxBatch > 0 && queue.Valid() && RequestsOf(taken) == queue.popped && drops == Dead(taken)
      && (forall i :: 0 <= i < |taken| ==> taken[i].dequeued <= taken[i].checked)
      && forall i :: 0 <= i < |batches| ==> Proper(batches[i], maxBatch, maxWait)
    }

    /** The members of the batches, and of the one being filled, are the live requests taken, in order. */
    ghost predicate Handled(filling: seq<Taken>)
      reads this
    {
      Live(taken) == Joined(Members(batches)) + filling
    }

    /** A popped request is stamped, and dropped if its deadline is past at a second look. */
    method StampAndCheck(request: Request, ghost filling: seq<Taken>) returns (stamped: Taken)
      requires queue.Valid() && RequestsOf(taken) + [request] == queue.popped && drops == Dead(taken) && maxBatch > 0
      requires forall i :: 0 <= i < |taken| ==> taken[i].dequeued <= taken[i].checked
      requires forall i :: 0 <= i < |batches| ==> Proper(batches[i], maxBatch, maxWait)
      requires Handled(filling)
      modifies this`drops, this`taken, queue`ticks, queue`buffer, queue`closed
      ensures Valid() && Handled(if stamped.Expired() then filling else filling + [stamped])
      ensures stamped.request == request && stamped.dequeued == queue.times(old(queue.ticks) + 1)
      ensures stamped.checked == queue.times(old(queue.ticks) + 2)
      ensures drops ==
        if request.deadline != 0 && stamped.checked >= request.deadline then old(drops) + [stamped] else old(drops)
      ensures queue.ticks == old(queue.ticks) + 2 && queue.popped == old(queue.popped)
      ensures (old(queue.closed) ==> queue.closed)
    {
      hide Live, Dead, Joined, Members, Proper, RequestsOf;
      var dequeued := queue.Look();
      var checked := queue.Look();
      stamped := Taken(request, dequeued, checked);
      TakenMore(taken, stamped);
      taken := taken + [stamped];
      if stamped.Expired() {
        drops := drops + [stamped];
      }
    }

    /** Pops until a live request turns up. */
    method First() returns (first: seq<Taken>)
      requires Valid() && Handled([])
      modifies this`drops, this`taken, queue
      ensures Valid() && Handled(first) && |first| <= 1
      ensures first == [] ==> queue.closed && queue.buffer == []
      ensures first != [] ==> first[0].dequeued <= queue.times(queue.ticks) && |queue.popped| > |old(queue.popped)|
    {
      while true
        invariant Valid() && Handled([]) && |old(queue.popped)| <= |queue.popped|
        decreases |queue.Accepted()| - |queue.popped|
      {
        var status := queue.Pop();
        if !status.Popped? {
          return [];
        }
        PoppedWithin();
        var stamped := StampAndCheck(status.request, []);
        if !stamped.Expired() {
          return [stamped];
        }
      }
    }

    /** No more comes out than was accepted. */
    lemma PoppedWithin()
      requires queue.Valid()
      ensures |queue.popped| <= |queue.Accepted()|
    {
      JoinedPrefix(queue.arrivals, queue.Sofar());
    }

    /** One turn of the filling loop: the batch is closed for a reason, or a request was looked at. */
    method FillOne(requests: seq<Taken>, waits: seq<Wait>, deadline: int)
      returns (filled: seq<Taken>, waited: seq<Wait>, stop: Trigger)
      requires Valid() && Handled(requests) && requests != [] && |requests| < maxBatch && Anchored(waits, deadline)
      modifies this`drops, this`taken, queue
      ensures Valid() && Handled(filled) && Anchored(waited, deadline)
      ensures (filled == requests || (stop == MaxSize && |filled| == |requests| + 1 && filled[0] == requests[0]))
      ensures stop == Timeout ==> queue.times(queue.ticks) >= deadline
      ensures stop == Shutdown ==> queue.closed && queue.buffer == []
      ensures |old(queue.popped)| <= |queue.popped| <= |queue.Accepted()|
      ensures stop == MaxSize ==> |old(queue.popped)| < |queue.popped|
    {
      hide Live, Dead, Joined, Members, Proper, RequestsOf, Handled;
      filled, waited, stop := requests, waits, MaxSize;
      PoppedWithin();
      var now := queue.Look();
      var remaining := deadline - now;
      if remaining <= 0 {
        stop := Timeout;
        return;
      }
      waited := waits + [Wait(now, remaining)];
      var status := queue.PopFor(now + remaining);
      if status == TimedOut {
        stop := Timeout;
        return;
      }
      if status == Closed {
        stop := Shutdown;
        Drain(requests);
        return;
      }
      PoppedWithin();
      var next := StampAndCheck(status.request, requests);
      if !next.Expired() {
        filled := requests + [next];
      }
    }

    /** One batch: a live request starts it, and size, age or shutdown ends it. Nothing is in it
        only when nothing more will come. */
    method CollectBatch() returns (batch: Batch)
      requires Valid() && Handled([])
      modifies this`drops, this`taken, queue
      ensures Valid() && Handled(batch.requests)
      ensures batch.requests == [] ==> queue.closed && queue.buffer == []
      ensures batch.requests != [] ==> Proper(batch, maxBatch, maxWait) && |queue.popped| > |old(queue.popped)|
      ensures batch.requests != [] && batch.trigger == Shutdown ==> queue.closed && queue.buffer == []
    {
      hide Valid, Handled, Anchored;
      Batches();
      batch := Batch([], MaxSize, 0, []);
      var requests := First();
      if requests == [] {
        return;
      }
      var deadline := requests[0].dequeued + maxWait;
      var stop := MaxSize;
      var waits: seq<Wait> := [];
      AnchoredNone(deadline);
      ghost var oldest, popped1 := requests[0], queue.popped;
      while |requests| < maxBatch && stop == MaxSize
        invariant Valid() && Handled(requests) && 1 <= |requests| <= maxBatch && requests[0] == oldest
        invariant Anchored(waits, deadline) && |popped1| <= |queue.popped|
        invariant stop != MaxSize ==> |requests| < maxBatch
        invariant stop == Timeout ==> queue.times(queue.ticks) >= deadline
        invariant stop == Shutdown ==> queue.closed && queue.buffer == []
        decreases |queue.Accepted()| - |queue.popped|, if stop == MaxSize then 1 else 0
      {
        requests, waits, stop := FillOne(requests, waits, deadline);
      }
      if |requests| >= maxBatch {
        stop := MaxSize;
      }
      var formed := Formed();
      return Batch(requests, stop, formed, waits);
    }

    lemma Batches()
      requires Valid()
      ensures maxBatch > 0
    {
    }

    lemma AnchoredNone(deadline: int)
      ensures Anchored([], deadline)
    {
    }

    /** The clock when the batch is handed on. */
    method Formed() returns (now: int)
      requires Valid()
      modifies queue
      ensures Valid() && queue.popped == old(queue.popped)
      ensures now == queue.times(queue.ticks) && now >= old(queue.times(queue.ticks))
      ensures old(queue.closed && queue.buffer == []) ==> queue.closed && queue.buffer == []
      ensures old(Live(taken)) == Live(taken)
    {
      hide Live, Dead, Joined, Proper;
      now := queue.Look();
    }

    /** The inner drain after `Closed`: a closed queue was seen empty, so it never takes anything. */
    method Drain(requests: seq<Taken>)
      requires Valid() && queue.closed && queue.buffer == []
      modifies queue
      ensures Valid() && queue.popped == old(queue.popped) && queue.closed && queue.buffer == []
    {
      if |requests| < maxBatch {
        // One test is all the loop makes: `try_pop` reports closure at once.
        var status := queue.TryPop();
        assert status == Closed;
      }
    }

    /** The batcher thread, to its end, when every accepted request has been taken in push
        order, into one batch or one expiry drop. */
    method Run()
      requires Valid() && Handled([])
      modifies this, queue
      ensures Valid() && RequestsOf(taken) == queue.Accepted() && queue.closed && queue.buffer == []
      ensures Joined(Members(batches)) == Live(taken) && drops == Dead(taken)
      ensures multiset(taken) == multiset(Joined(Members(batches))) + multiset(drops)
      ensures forall t :: t in Joined(Members(batches)) <==>
        t in taken && (t.request.deadline == 0 || t.checked < t.request.deadline)
      ensures forall i :: 0 <= i < |batches| ==> Proper(batches[i], maxBatch, maxWait)
    {
      while true
        invariant Valid() && Handled([])
        decreases |queue.Accepted()| - |queue.popped|
      {
        var batch := CollectBatch();
        PoppedWithin();
        if batch.requests == [] {
          assert queue.arrivals[..queue.Sofar()] == queue.arrivals;
          LiveOrDead(taken);
          return;
        }
        MembersMore(batches, batch);
        batches := batches + [batch];
      }
    }
  }
}
