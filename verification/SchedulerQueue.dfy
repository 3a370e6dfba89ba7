/** What the scheduler finds on its queue, and how far one admission pass gets with it. */
module SchedulerQueue {
  import opened BlockTables
  import opened Common
  import opened SchedulerBooks

  /** What the queue carries: a request, or the sentinel `shutdown` enqueues. */
  datatype Item = Submitted(request: Request) | Sentinel

  /** One attempt to take a request off the queue. */
  datatype Pulled = Nothing | Closing | Dropped(request: Request) | Live(request: Request)

  /** What a pass does next: end, look again, offer a request to the cache, or raise. */
  datatype Fetched = Enough | Again | Raises | Offer(request: Request)

  /** The attempt as a function of what is there and of the clock. */
  function Pull(items: seq<Item>, isLate: bool): Pulled {
    if items == [] then Nothing
    else if items[0] == Sentinel then Closing
    else if isLate then Dropped(items[0].request)
    else Live(items[0].request)
  }

  /** The requests among queue items. */
  function Requests(items: seq<Item>): seq<Request> {
    if items == [] then []
    else
      var rest, last := Requests(items[..|items| - 1]), items[|items| - 1];
      if last.Submitted? then rest + [last.request] else rest
  }

  lemma RequestsMore(items: seq<Item>, e: Item)
    ensures Requests(items + [e]) == if e.Submitted? then Requests(items) + [e.request] else Requests(items)
  {
    assert (items + [e])[..|items|] == items;
  }

  lemma {:induction false} RequestsJoin(a: seq<Item>, b: seq<Item>)
    ensures Requests(a + b) == Requests(a) + Requests(b)
  {
    if b == [] {
      assert a + b == a;
    } else {
      var n := |b| - 1;
      RequestsJoin(a, b[..n]);
      assert (a + b)[..|a + b| - 1] == a + b[..n];
    }
  }

  /** What arrives just before the `k`-th look at the queue, from zero. */
  function At(arrivals: seq<seq<Item>>, k: nat): seq<Item> {
    if k < |arrivals| then arrivals[k] else []
  }

  /** Everything that has arrived by the `k`-th look. */
  function Arrived(arrivals: seq<seq<Item>>, k: nat): seq<Item> {
    if k == 0 then [] else Arrived(arrivals, k - 1) + At(arrivals, k - 1)
  }

  lemma {:induction false} ArrivedAll(arrivals: seq<seq<Item>>, k: nat)
    requires k >= |arrivals|
    ensures Arrived(arrivals, k) == Arrived(arrivals, |arrivals|)
  {
    if k == |arrivals| {
    } else {
      ArrivedAll(arrivals, k - 1);
    }
  }

  lemma {:induction false} ArrivedMore(arrivals: seq<seq<Item>>, k: nat, n: nat)
    requires k <= n
    ensures Arrived(arrivals, k) <= Arrived(arrivals, n)
  {
    if k == n {
    } else {
      ArrivedMore(arrivals, k, n - 1);
    }
  }

  /** Configurations are validated where they are built: every budget is positive. */
  predicate Budgeted(items: seq<Item>) {
    forall i :: 0 <= i < |items| && items[i].Submitted? ==> items[i].request.maxNewTokens > 0
  }

  /** First in, first out: what was taken and what is queued is what has arrived, the requests
      among it were dequeued, and the queue is closed once its sentinel was taken. */
  ghost predicate Streamed(arrivals: seq<seq<Item>>, polls: nat, taken: seq<Item>, queue: seq<Item>,
                           dequeued: seq<Request>, closed: bool)
  {
    && taken + queue == Arrived(arrivals, polls) && dequeued == Requests(taken)
    && (closed <==> Sentinel in taken)
    && Budgeted(queue) && forall k :: 0 <= k < |arrivals| ==> Budgeted(arrivals[k])
  }

  lemma StreamedMore(arrivals: seq<seq<Item>>, polls: nat, taken: seq<Item>, queue: seq<Item>, dequeued: seq<Request>,
                     closed: bool)
    requires Streamed(arrivals, polls, taken, queue, dequeued, closed)
    ensures Streamed(arrivals, polls + 1, taken, queue + At(arrivals, polls), dequeued, closed)
  {
    hide Requests;
    assert taken + (queue + At(arrivals, polls)) == (taken + queue) + At(arrivals, polls);
  }

  lemma StreamedOn(arrivals: seq<seq<Item>>, polls: nat, taken: seq<Item>, queue: seq<Item>, dequeued: seq<Request>,
                   closed: bool)
    requires Streamed(arrivals, polls, taken, queue, dequeued, closed) && queue != []
    ensures queue[0].Submitted? ==>
      && queue[0].request.maxNewTokens > 0
      && Streamed(arrivals, polls, taken + [queue[0]], queue[1..], dequeued + [queue[0].request], closed)
    ensures queue[0] == Sentinel ==> Streamed(arrivals, polls, taken + [queue[0]], queue[1..], dequeued, true)
  {
    RequestsMore(taken, queue[0]);
    assert (taken + [queue[0]]) + queue[1..] == taken + queue;
    hide Arrived, Requests;
  }

  // ---------------------------------------------------------------------------
  // How much is still to come.
  // ---------------------------------------------------------------------------

  /** An item, and with a request its whole budget. */
  function ItemWeight(item: Item): nat {
    if item.Submitted? then 1 + item.request.maxNewTokens else 1
  }

  function Weight(items: seq<Item>): nat {
    if items == [] then 0 else ItemWeight(items[0]) + Weight(items[1..])
  }

  lemma {:induction false} WeightJoin(a: seq<Item>, b: seq<Item>)
    ensures Weight(a + b) == Weight(a) + Weight(b)
  {
    if a == [] {
      assert a + b == b;
    } else {
      WeightJoin(a[1..], b);
      assert (a + b)[1..] == a[1..] + b;
    }
  }

  /** Everything that arrives from the `k`-th look on, and the looks it takes. */
  function Ahead(arrivals: seq<seq<Item>>, k: nat): nat
    decreases |arrivals| - k
  {
    if k >= |arrivals| then 0 else 1 + Weight(arrivals[k]) + Ahead(arrivals, k + 1)
  }

  /** All a scheduler that has looked `polls` times may still have to take. */
  function Stream(arrivals: seq<seq<Item>>, queue: seq<Item>, polls: nat): nat {
    Weight(queue) + Ahead(arrivals, polls)
  }

  /** What one attempt uses up of the stream. */
  function Worth(pulled: Pulled): nat {
    match pulled
    case Nothing => 0
    case Closing => 1
    case Dropped(r) => 1 + r.maxNewTokens
    case Live(r) => 1 + r.maxNewTokens
  }

  /** A look uses up itself, and taking the front item uses up its weight. */
  lemma StreamFlows(arrivals: seq<seq<Item>>, queue: seq<Item>, polls: nat)
    ensures var items := queue + At(arrivals, polls);
      && Stream(arrivals, items, polls + 1) == Stream(arrivals, queue, polls) - (if polls < |arrivals| then 1 else 0)
      && (items != [] ==>
            Stream(arrivals, items[1..], polls + 1) == Stream(arrivals, items, polls + 1) - ItemWeight(items[0]))
  {
    WeightJoin(queue, At(arrivals, polls));
  }

  // ---------------------------------------------------------------------------
  // One admission pass with no cache to ask.
  // ---------------------------------------------------------------------------

  /** Live requests before the first look that finds nothing, or the sentinel. */
  function LiveAhead(arrivals: seq<seq<Item>>, late: nat -> bool, queue: seq<Item>, polls: nat): nat
    decreases Stream(arrivals, queue, polls)
  {
    StreamFlows(arrivals, queue, polls);
    var items := queue + At(arrivals, polls);
    match Pull(items, late(polls + 1))
    case Nothing => 0
    case Closing => 0
    case Dropped(_) => LiveAhead(arrivals, late, items[1..], polls + 1)
    case Live(_) => 1 + LiveAhead(arrivals, late, items[1..], polls + 1)
  }

  /** How many requests a pass admits: its test counts each admission in `running` and in `admitted`. */
  function PassAdmits(arrivals: seq<seq<Item>>, late: nat -> bool, queue: seq<Item>, polls: nat,
                      running: nat, admitted: nat, maxBatch: nat): nat
    decreases Stream(arrivals, queue, polls)
  {
    StreamFlows(arrivals, queue, polls);
    var items := queue + At(arrivals, polls);
    if running + admitted >= maxBatch then 0
    else
      match Pull(items, late(polls + 1))
      case Nothing => 0
      case Closing => 0
      case Dropped(_) => PassAdmits(arrivals, late, items[1..], polls + 1, running, admitted, maxBatch)
      case Live(_) => 1 + PassAdmits(arrivals, late, items[1..], polls + 1, running + 1, admitted + 1, maxBatch)
  }

  /** Which requests they are, in order. */
  function PassTakes(arrivals: seq<seq<Item>>, late: nat -> bool, queue: seq<Item>, polls: nat,
                     running: nat, admitted: nat, maxBatch: nat): (r: seq<Request>)
    ensures |r| == PassAdmits(arrivals, late, queue, polls, running, admitted, maxBatch)
    decreases Stream(arrivals, queue, polls)
  {
    StreamFlows(arrivals, queue, polls);
    var items := queue + At(arrivals, polls);
    if running + admitted >= maxBatch then []
    else
      match Pull(items, late(polls + 1))
      case Nothing => []
      case Closing => []
      case Dropped(_) => PassTakes(arrivals, late, items[1..], polls + 1, running, admitted, maxBatch)
      case Live(r) => [r] + PassTakes(arrivals, late, items[1..], polls + 1, running + 1, admitted + 1, maxBatch)
  }

  /** The queue, and how often it was looked at. */
  datatype Left = Left(queue: seq<Item>, polls: nat)

  /** What the pass leaves behind. */
  function PassLeaves(arrivals: seq<seq<Item>>, late: nat -> bool, queue: seq<Item>, polls: nat,
                      running: nat, admitted: nat, maxBatch: nat): Left
    decreases Stream(arrivals, queue, polls)
  {
    StreamFlows(arrivals, queue, polls);
    var items := queue + At(arrivals, polls);
    if running + admitted >= maxBatch then Left(queue, polls)
    else
      match Pull(items, late(polls + 1))
      case Nothing => Left([], polls + 1)
      case Closing => Left(items[1..], polls + 1)
      case Dropped(_) => PassLeaves(arrivals, late, items[1..], polls + 1, running, admitted, maxBatch)
      case Live(_) => PassLeaves(arrivals, late, items[1..], polls + 1, running + 1, admitted + 1, maxBatch)
  }

  /** Where one turn of the scheduler starts from: the counters, the callbacks made, how many items were
      taken, how many run and what they are owed, and what its admission pass will come to. */
  datatype Scene = Scene(stats: ContinuousStats, log: seq<Settlement>, seen: nat, width: nat, tail: nat,
                         easy: bool, admits: nat, leaves: Left)

  /** What it does: how many took its step, who was lost to it, and who was served with it. */
  datatype Round = Round(width: nat, lost: seq<Settlement>, served: seq<Settlement>)

  /** The blocks a request needs to start. */
  function Cost(backing: Backing, estimate: Estimate, r: Request): nat {
    if backing.Pooled? && backing.size > 0 then CeilDiv(estimate(r.prompt), backing.size) else 0
  }

  function Costs(backing: Backing, estimate: Estimate, requests: seq<Request>): nat {
    if requests == [] then 0 else Cost(backing, estimate, requests[0]) + Costs(backing, estimate, requests[1..])
  }

  /** All of them can start without anybody leaving. */
  ghost predicate Comfortable(backing: Backing, estimate: Estimate, requests: seq<Request>, room: nat) {
    && Costs(backing, estimate, requests) <= room
    && forall i :: 0 <= i < |requests| ==> !Unmeasured(backing, estimate, requests[i])
  }

  lemma ComfortableHead(backing: Backing, estimate: Estimate, r: Request, rest: seq<Request>, room: nat)
    requires Comfortable(backing, estimate, [r] + rest, room)
    ensures !Unmeasured(backing, estimate, r) && Cost(backing, estimate, r) <= room
    ensures Comfortable(backing, estimate, rest, room - Cost(backing, estimate, r))
  {
    assert ([r] + rest)[0] == r && ([r] + rest)[1..] == rest;
    hide Unmeasured, Cost;
    forall i | 0 <= i < |rest| ensures !Unmeasured(backing, estimate, rest[i]) {
      assert rest[i] == ([r] + rest)[i + 1];
    }
  }

  lemma {:induction false} NothingCosts(estimate: Estimate, requests: seq<Request>)
    ensures Comfortable(Unbounded, estimate, requests, 0)
  {
    if requests == [] {
    } else {
      NothingCosts(estimate, requests[1..]);
    }
  }

  function Gap(running: nat, admitted: nat, maxBatch: nat): nat {
    if running + admitted < maxBatch then maxBatch - running - admitted else 0
  }

  /** Half the gap its test sees, rounded up, or every live request ahead if there are fewer. */
  lemma {:induction false} PassFillsHalf(arrivals: seq<seq<Item>>, late: nat -> bool, queue: seq<Item>, polls: nat,
                                         running: nat, admitted: nat, maxBatch: nat)
    ensures PassAdmits(arrivals, late, queue, polls, running, admitted, maxBatch) ==
      Min(LiveAhead(arrivals, late, queue, polls), CeilDiv(Gap(running, admitted, maxBatch), 2))
    decreases Stream(arrivals, queue, polls)
  {
    StreamFlows(arrivals, queue, polls);
    var items := queue + At(arrivals, polls);
    if running + admitted >= maxBatch {
    } else {
      match Pull(items, late(polls + 1))
      case Nothing =>
      case Closing =>
      case Dropped(_) => PassFillsHalf(arrivals, late, items[1..], polls + 1, running, admitted, maxBatch);
      case Live(_) => PassFillsHalf(arrivals, late, items[1..], polls + 1, running + 1, admitted + 1, maxBatch);
    }
  }

  /** A pass fills half the batch at least, or leaves no live request behind. */
  lemma HalfFull(arrivals: seq<seq<Item>>, late: nat -> bool, queue: seq<Item>, polls: nat, running: nat,
                 maxBatch: nat)
    requires running <= maxBatch
    ensures var admits := PassAdmits(arrivals, late, queue, polls, running, 0, maxBatch);
      running + admits >= CeilDiv(maxBatch, 2) || admits == LiveAhead(arrivals, late, queue, polls)
  {
    PassFillsHalf(arrivals, late, queue, polls, running, 0, maxBatch);
  }

  // ---------------------------------------------------------------------------
  // A workload that is all there before the scheduler looks.
  // ---------------------------------------------------------------------------

  /** `submit` refuses whatever comes after the sentinel. */
  predicate Sealed(items: seq<Item>) {
    forall i :: 0 <= i < |items| - 1 ==> items[i].Submitted?
  }

  /** At its next look the scheduler has everything that ever arrives, and no deadline is missed. */
  ghost predicate Gathered(arrivals: seq<seq<Item>>, late: nat -> bool, queue: seq<Item>, polls: nat) {
    |arrivals| <= polls + 1 && Sealed(queue + At(arrivals, polls)) && forall k :: !late(k)
  }

  /** How many requests the next look finds. */
  function Backlog(arrivals: seq<seq<Item>>, queue: seq<Item>, polls: nat): nat {
    |Requests(queue + At(arrivals, polls))|
  }

  /** Taking the front item. */
  lemma FrontGathered(arrivals: seq<seq<Item>>, late: nat -> bool, queue: seq<Item>, polls: nat)
    requires Gathered(arrivals, late, queue, polls)
    ensures var items := queue + At(arrivals, polls);
      && Gathered(arrivals, late, items, polls + 1)
      && Backlog(arrivals, items, polls + 1) == Backlog(arrivals, queue, polls)
      && (items != [] ==>
            && Gathered(arrivals, late, items[1..], polls + 1)
            && Backlog(arrivals, queue, polls) ==
                 Backlog(arrivals, items[1..], polls + 1) + if items[0].Submitted? then 1 else 0)
      && (items != [] && items[0] == Sentinel ==> items[1..] == [] && Backlog(arrivals, queue, polls) == 0)
  {
    var items := queue + At(arrivals, polls);
    assert items + [] == items;
    if items != [] {
      RequestsJoin([items[0]], items[1..]);
      assert [items[0]] + items[1..] == items && items[1..] + [] == items[1..];
    }
  }

  lemma NeverLate(arrivals: seq<seq<Item>>, late: nat -> bool, queue: seq<Item>, polls: nat)
    requires Gathered(arrivals, late, queue, polls)
    ensures forall k :: !late(k)
    ensures queue + At(arrivals, polls) == [] ==> Backlog(arrivals, queue, polls) == 0
  {
  }

  /** A pass takes from the backlog what it admits, and nothing is lost. */
  lemma {:induction false} PassGathered(arrivals: seq<seq<Item>>, late: nat -> bool, queue: seq<Item>, polls: nat,
                                        running: nat, admitted: nat, maxBatch: nat)
    requires Gathered(arrivals, late, queue, polls)
    ensures var left := PassLeaves(arrivals, late, queue, polls, running, admitted, maxBatch);
      && Gathered(arrivals, late, left.queue, left.polls)
      && Backlog(arrivals, left.queue, left.polls)
         + PassAdmits(arrivals, late, queue, polls, running, admitted, maxBatch) == Backlog(arrivals, queue, polls)
    decreases Stream(arrivals, queue, polls)
  {
    StreamFlows(arrivals, queue, polls);
    FrontGathered(arrivals, late, queue, polls);
    var items := queue + At(arrivals, polls);
    if running + admitted < maxBatch {
      match Pull(items, late(polls + 1))
      case Nothing =>
      case Closing =>
      case Dropped(_) =>
      case Live(_) =>
        PassGathered(arrivals, late, items[1..], polls + 1, running + 1, admitted + 1, maxBatch);
    }
  }

  /** The live requests ahead are the backlog. */
  lemma {:induction false} AllLive(arrivals: seq<seq<Item>>, late: nat -> bool, queue: seq<Item>, polls: nat)
    requires Gathered(arrivals, late, queue, polls)
    ensures LiveAhead(arrivals, late, queue, polls) == Backlog(arrivals, queue, polls)
    decreases Stream(arrivals, queue, polls)
  {
    hide Gathered, Requests, Stream;
    NeverLate(arrivals, late, queue, polls);
    StreamFlows(arrivals, queue, polls);
    FrontGathered(arrivals, late, queue, polls);
    var items := queue + At(arrivals, polls);
    match Pull(items, late(polls + 1))
    case Nothing =>
    case Closing =>
    case Dropped(_) =>
    case Live(_) => AllLive(arrivals, late, items[1..], polls + 1);
  }

  /** Steps taken so far: `busy` of them at least half full, the others since nobody is waiting any more. */
  ghost predicate OnPace(busy: nat, steps: nat, occupied: nat, waiting: nat, tail: nat, longest: nat, half: nat) {
    && busy <= steps && Rows(busy, half) <= occupied
    && (if waiting > 0 then busy == steps else steps - busy + tail <= longest)
  }

  /** One more turn. */
  lemma PaceKept(busy: nat, steps: nat, occupied: nat, waiting: nat, tail: nat, longest: nat, half: nat,
                 width: nat, admits: nat, left: nat, after: nat)
    requires OnPace(busy, steps, occupied, waiting, tail, longest, half)
    requires left + admits == waiting && (width >= half || left == 0) && tail <= longest
    requires if width == 0 then after == 0 && half > 0 else after < longest && (admits == 0 ==> after < tail)
    ensures OnPace(if width >= half then busy + 1 else busy, steps + if width > 0 then 1 else 0, occupied + width,
                   left, after, longest, half)
  {
    RowsAdd(busy, 1, half);
    hide Rows;
  }

  lemma PaceTold(busy: nat, steps: nat, occupied: nat, waiting: nat, tail: nat, longest: nat, half: nat)
    requires OnPace(busy, steps, occupied, waiting, tail, longest, half)
    ensures steps <= longest || Rows(steps - longest, half) <= occupied
  {
    if steps > longest {
      RowsAdd(steps - longest, busy - (steps - longest), half);
    }
    hide Rows;
  }

  /** One pass refills every free row exactly when none is free, or one is and a live request
      is ahead; so with requests enough for all of them, exactly when at most one is free. */
  lemma RefilledInOnePass(arrivals: seq<seq<Item>>, late: nat -> bool, queue: seq<Item>, polls: nat,
                          running: nat, maxBatch: nat)
    requires running <= maxBatch
    ensures var free, live := maxBatch - running, LiveAhead(arrivals, late, queue, polls);
      && (running + PassAdmits(arrivals, late, queue, polls, running, 0, maxBatch) == maxBatch
          <==> free == 0 || (free == 1 && live > 0))
      && (live >= free ==>
            (running + PassAdmits(arrivals, late, queue, polls, running, 0, maxBatch) == maxBatch <==> free <= 1))
  {
    PassFillsHalf(arrivals, late, queue, polls, running, 0, maxBatch);
  }

  /** Four requests wait for four free rows, and one pass admits two. */
  lemma FourWaitTwoEnter(r: Request)
    ensures var four := [Submitted(r), Submitted(r), Submitted(r), Submitted(r)];
      LiveAhead([], _ => false, four, 0) == 4 && PassAdmits([], _ => false, four, 0, 0, 0, 4) == 2
  {
    var s := Submitted(r);
    var late: nat -> bool := _ => false;
    var four, three, two, one := [s, s, s, s], [s, s, s], [s, s], [s];
    assert four + [] == four && three + [] == three && two + [] == two && one + [] == one;
    assert four[1..] == three && three[1..] == two && two[1..] == one && one[1..] == [];
    assert LiveAhead([], late, [], 4) == 0;
    assert LiveAhead([], late, one, 3) == 1;
    assert LiveAhead([], late, two, 2) == 2;
    assert LiveAhead([], late, three, 1) == 3;
    PassFillsHalf([], late, four, 0, 0, 0, 4);
  }
}
