/** The paged KV cache manager: a reference-counted block pool, one block table
    per sequence, and admission, growth, preemption and release over them. The
    contracts are deterministic, so they describe the Python and the C++ manager
    alike.
 */
module KvCache {
  import opened BlockTables
  import opened Common

  datatype AdmissionResult = Admitted | PreemptedOthers | InsufficientCache

  /** What `admit` and `extend` report; `UnknownSequence` is the raised error. */
  datatype Outcome = UnknownSequence | Outcome(result: AdmissionResult, preempted: seq<int>)
  {
    predicate Ok() { Outcome? && result != InsufficientCache }
  }

  /** The pool: each block is on the free list once, or has referents. The list is a stack. */
  class BlockAllocator {
    const total: nat
    const blockSize: nat
    var free: seq<nat>
    var references: seq<nat>

    /** A block is on the free list, once, exactly when nothing refers to it. */
    ghost predicate Valid()
      reads this
    {
      && total > 0 && blockSize > 0 && |references| == total
      && (forall i :: 0 <= i < |free| ==> free[i] < total && references[free[i]] == 0)
      && (forall b: nat :: b < total ==> multiset(free)[b] == if references[b] == 0 then 1 else 0)
    }

    constructor (blockCount: nat, blockSize: nat)
      requires blockCount > 0 && blockSize > 0
      ensures Valid() && total == blockCount && this.blockSize == blockSize
      ensures multiset(free) == Pool(total) && |free| == total
      ensures forall i :: 0 <= i < total ==> free[i] == total - 1 - i
      ensures forall b :: 0 <= b < total ==> references[b] == 0
    {
      total := blockCount;
      this.blockSize := blockSize;
      free := seq(blockCount, i requires 0 <= i < blockCount => blockCount - 1 - i);
      references := seq(blockCount, i => 0);
      new;
      CountdownIsPool(free);
    }

    /** The top of the free list, with one referent, unless the list is empty. */
    method Allocate() returns (block: Option<nat>)
      requires Valid()
      modifies this
      ensures Valid()
      ensures old(free) == [] ==> block == None && free == old(free) && references == old(references)
      ensures old(free) != [] ==>
        && block == Some(old(free)[|old(free)| - 1])
        && free == old(free)[..|old(free)| - 1]
        && block.value < total && references == old(references)[block.value := 1]
    {
      if free == [] {
        return None;
      }
      var b := free[|free| - 1];
      assert free == free[..|free| - 1] + [b];
      free := free[..|free| - 1];
      references := references[b := 1];
      block := Some(b);
      assert forall i :: 0 <= i < |free| ==> free[i] in multiset(free);
    }

    /** Drops a reference; the block returns to the pool with its last one. */
    method Release(block: nat)
      requires Valid() && block < total
      modifies this
      ensures Valid()
      ensures |references| == total
      ensures old(references)[block] == 0 ==> free == old(free) && references == old(references)
      ensures old(references)[block] > 0 ==> references == old(references)[block := old(references)[block] - 1]
      ensures old(references)[block] == 1 ==> free == old(free) + [block]
      ensures old(references)[block] > 1 ==> free == old(free)
    {
      if references[block] == 0 {
        return;
      }
      references := references[block := references[block] - 1];
      if references[block] == 0 {
        assert block !in multiset(free);
        free := free + [block];
      }
    }

    /** Releases a table's blocks one after another. Each has exactly one referent,
        so none of these calls is a double free. */
    method ReleaseAll(blocks: seq<nat>)
      requires Valid() && |references| == total
      requires forall i :: 0 <= i < |blocks| ==> blocks[i] < total && references[blocks[i]] == 1
      requires forall i, j :: 0 <= i < j < |blocks| ==> blocks[i] != blocks[j]
      modifies this
      ensures Valid()
      ensures free == old(free) + blocks && |references| == total
      ensures forall b :: 0 <= b < total ==> references[b] == if b in blocks then 0 else old(references)[b]
    {
      hide Valid;
      for i := 0 to |blocks|
        invariant Valid() && |references| == total && free == old(free) + blocks[..i]
        invariant forall k :: 0 <= k < |blocks| ==> references[blocks[k]] == if k < i then 0 else 1
        invariant forall b :: 0 <= b < total && b !in blocks ==> references[b] == old(references)[b]
      {
        Release(blocks[i]);
      }
    }

    /** A fork shares the block. Unknown and free blocks are refused. */
    method AddReference(block: nat) returns (ok: bool)
      requires Valid()
      modifies this
      ensures Valid() && free == old(free)
      ensures ok <==> block < total && old(references)[block] > 0
      ensures references == if ok then old(references)[block := old(references)[block] + 1] else old(references)
    {
      ok := block < total && references[block] > 0;
      if ok {
        references := references[block := references[block] + 1];
      }
    }

    /** The C++ form of a release: an unknown block or a double free is reported, and changes nothing. */
    method CheckedRelease(block: nat) returns (ok: bool)
      requires Valid()
      modifies this
      ensures Valid()
      ensures ok <==> block < total && old(references)[block] > 0
      ensures !ok ==> free == old(free) && references == old(references)
      ensures ok ==> references == old(references)[block := old(references)[block] - 1]
      ensures ok ==> free == if old(references)[block] == 1 then old(free) + [block] else old(free)
    {
      if block >= total || references[block] == 0 {
        return false;
      }
      Release(block);
      return true;
    }
  }

  lemma {:induction false} CountdownIsPool(s: seq<nat>)
    requires forall i :: 0 <= i < |s| ==> s[i] == |s| - 1 - i
    ensures multiset(s) == Pool(|s|)
  {
    if s == [] {
    } else {
      assert s == [s[0]] + s[1..];
      CountdownIsPool(s[1..]);
    }
  }

  /** The blocks of one sequence, in token order, and how many tokens they hold. */
  class SequenceBlockTable {
    const sequenceId: int
    const blockSize: nat
    var tokens: nat
    var blocks: seq<nat>

    constructor (sequenceId: int, blockSize: nat)
      ensures this.sequenceId == sequenceId && this.blockSize == blockSize
      ensures tokens == 0 && blocks == []
    {
      this.sequenceId := sequenceId;
      this.blockSize := blockSize;
      tokens, blocks := 0, [];
    }

    function View(): Table
      reads this
    {
      Table(tokens, blocks)
    }

    method AppendBlock(block: nat)
      modifies this
      ensures tokens == old(tokens) && blocks == old(blocks) + [block]
    {
      blocks := blocks + [block];
    }

    /** All the tokens are added, or none. */
    method AddTokens(count: nat) returns (ok: bool)
      modifies this
      ensures blocks == old(blocks)
      ensures ok <==> old(tokens) + count <= |blocks| * blockSize
      ensures tokens == if ok then old(tokens) + count else old(tokens)
    {
      if tokens + count > |blocks| * blockSize {
        return false;
      }
      tokens := tokens + count;
      return true;
    }

    method Locate(tokenIndex: nat) returns (place: Option<(nat, nat)>)
      requires blockSize > 0 && tokens <= |blocks| * blockSize
      ensures place == if tokenIndex < tokens then Some(Place(View(), blockSize, tokenIndex)) else None
      ensures place.Some? ==> exists k: nat ::
        k < |blocks| && place.value.0 == blocks[k] && place.value.1 < blockSize
        && k * blockSize + place.value.1 == tokenIndex
    {
      if tokenIndex >= tokens {
        return None;
      }
      DivBelow(tokenIndex, blockSize, |blocks|);
      PlaceLives(View(), blockSize, tokenIndex);
      return Some((blocks[tokenIndex / blockSize], tokenIndex % blockSize));
    }
  }

  function BlocksOf(ts: Tables, s: int): seq<nat> {
    if s in ts then ts[s].blocks else []
  }

  /** The tables once `s` is known. */
  ghost function Registered(ts: Tables, s: int): Tables {
    if s in ts then ts else ts[s := EMPTY]
  }

  ghost function RegisteredOrder(order: seq<int>, ts: Tables, s: int): seq<int> {
    if s in ts then order else order + [s]
  }

  lemma AccountReleased(free: seq<nat>, references: seq<nat>, after: seq<nat>, order: seq<int>, ts: Tables, total: nat,
                        s: int)
    requires Accounted(free, references, order, ts, total) && s in ts && |after| == total
    requires forall b :: 0 <= b < total ==> after[b] == if b in ts[s].blocks then 0 else references[b]
    ensures Accounted(free + ts[s].blocks, after, Without(order, s), ts - {s}, total)
  {
    hide Owned, Without;
    AccountEmptied(free, references, after, order, ts, total, s);
    OwnedUpdate(order, ts, s, EMPTY);
    OwnedRelease(order, ts, s);
    assert Lists(Without(order, s), ts - {s});
  }

  lemma TightWithout(ts: Tables, s: int, size: nat)
    requires AllTight(ts, size)
    ensures AllTight(ts - {s}, size)
  {
  }

  /** The blocks allocation hands out next. */
  function Taken(free: seq<nat>, needed: nat): seq<nat>
    requires needed <= |free|
  {
    seq(needed, i requires 0 <= i < needed => free[|free| - 1 - i])
  }

  lemma TakenNone(blocks: seq<nat>, free: seq<nat>)
    ensures blocks + Taken(free, 0) == blocks && free[..|free| - 0] == free
  {
  }

  lemma TakenMore(free: seq<nat>, i: nat)
    requires i < |free|
    ensures Taken(free, i + 1) == Taken(free, i) + [free[|free| - 1 - i]]
    ensures free[..|free| - i][..|free| - i - 1] == free[..|free| - (i + 1)]
  {
  }

  function Grown(t: Table, tokens: nat, more: seq<nat>): Table {
    Table(t.tokens + tokens, t.blocks + more)
  }

  /** The outcome of asking for `tokens` more tokens of sequence `s`, which is known. */
  ghost predicate Reserved(size: nat, total: nat, policy: Policy, order: seq<int>, ts: Tables, before: Ledger, s: int,
                           tokens: nat, view: Tables, now: Ledger, outcome: Outcome)
    requires size > 0 && s in ts
  {
    var needed := Additional(ts[s], tokens, size);
    if CeilDiv(ts[s].tokens + tokens, size) > total then
      outcome == Outcome(InsufficientCache, []) && view == ts && now == before
    else
      && outcome.Outcome?
      && outcome.result == (if |before.free| < needed then PreemptedOthers else Admitted)
      && Served(policy, order, ts, before, s, needed, tokens, view, now, outcome.preempted)
  }

  /** `evicted` made room, and the requester took the next `needed` blocks. */
  ghost predicate Served(policy: Policy, order: seq<int>, ts: Tables, before: Ledger, s: int, needed: nat, tokens: nat,
                         view: Tables, now: Ledger, evicted: seq<int>)
    requires s in ts
  {
    Known(evicted, ts) && JustEnough(evicted, ts, needed - |before.free|) &&
    var free := before.free + Released(evicted, ts);
    && Evicting(policy, order, ts, s, needed, evicted, Emptied(ts, evicted), before,
                Ledger(free, now.preemptions, now.recomputed))
    && needed <= |free| && now.free == free[..|free| - needed]
    && view == Emptied(ts, evicted)[s := Grown(ts[s], tokens, Taken(free, needed))]
  }

  lemma AccountTaken(free: seq<nat>, references: seq<nat>, order: seq<int>, ts: Tables, total: nat, s: int)
    requires Accounted(free, references, order, ts, total) && s in ts && free != []
    ensures var b := free[|free| - 1];
      b < total &&
      Accounted(free[..|free| - 1], references[b := 1], order, ts[s := Table(ts[s].tokens, ts[s].blocks + [b])], total)
  {
    hide Owned;
    var n, b := |free| - 1, free[|free| - 1];
    var t := Table(ts[s].tokens, ts[s].blocks + [b]);
    assert free == free[..n] + [b];
    OwnedUpdate(order, ts, s, t);
    assert b in multiset(free);
    assert Pool(total)[b] >= 1;
  }

  lemma AccountTokens(free: seq<nat>, references: seq<nat>, order: seq<int>, ts: Tables, total: nat, s: int,
                      tokens: nat)
    requires Accounted(free, references, order, ts, total) && s in ts
    ensures Accounted(free, references, order, ts[s := Table(tokens, ts[s].blocks)], total)
  {
    hide Owned;
    OwnedUpdate(order, ts, s, Table(tokens, ts[s].blocks));
  }

  lemma AccountAdmitted(free: seq<nat>, references: seq<nat>, order: seq<int>, ts: Tables, total: nat, s: int)
    requires Accounted(free, references, order, ts, total) && s !in ts
    ensures Accounted(free, references, order + [s], ts[s := EMPTY], total)
  {
    hide Owned, Lists;
    OwnedAdmit(order, ts, s);
  }

  lemma GrownTight(ts: Tables, s: int, tokens: nat, size: nat, more: seq<nat>)
    requires AllTight(ts, size) && s in ts && |more| == Additional(ts[s], tokens, size)
    ensures AllTight(ts[s := Grown(ts[s], tokens, more)], size)
  {
    AdditionalIsExact(ts[s], tokens, size);
  }

  /** A request is within reach exactly when the grown sequence alone fits the pool. */
  lemma RequestSize(free: seq<nat>, references: seq<nat>, order: seq<int>, ts: Tables, total: nat, s: int,
                    tokens: nat, size: nat)
    requires Accounted(free, references, order, ts, total) && s in ts && size > 0 && Tight(ts[s], size)
    ensures Known(order, ts)
    ensures |free| + HeldByOthers(order, ts, s) >= Additional(ts[s], tokens, size)
       <==> CeilDiv(ts[s].tokens + tokens, size) <= total
    ensures Additional(ts[s], tokens, size) > total ==> CeilDiv(ts[s].tokens + tokens, size) > total
    ensures Additional(ts[s], tokens, size) <= |free| ==> CeilDiv(ts[s].tokens + tokens, size) <= total
  {
    hide Accounted, HeldByOthers, CeilDiv, Additional;
    AdditionalIsExact(ts[s], tokens, size);
    Reach(free, references, order, ts, total, s);
  }

  lemma RefusedIntact(policy: Policy, order: seq<int>, ts: Tables, requester: int, needed: nat, evicted: seq<int>,
                      view: Tables, before: Ledger, now: Ledger)
    requires Evicting(policy, order, ts, requester, needed, evicted, view, before, now) && evicted == []
    ensures view == ts && now == before
  {
  }

  lemma RequesterKept(policy: Policy, order: seq<int>, ts: Tables, requester: int, needed: nat, evicted: seq<int>,
                      view: Tables, before: Ledger, now: Ledger)
    requires Evicting(policy, order, ts, requester, needed, evicted, view, before, now) && requester in ts
    ensures requester in view && view[requester] == ts[requester] && requester !in evicted
    ensures Known(evicted, ts)
  {
    hide Released, TokensHeld, Held, Picked;
  }

  lemma ServedBy(policy: Policy, order: seq<int>, ts: Tables, s: int, needed: nat, tokens: nat, evicted: seq<int>,
                 middle: Tables, before: Ledger, books: Ledger, view: Tables, now: Ledger)
    requires Evicting(policy, order, ts, s, needed, evicted, middle, before, books) && s in ts && s in middle
    requires Known(evicted, ts) && JustEnough(evicted, ts, needed - |before.free|) && needed <= |books.free|
    requires now == books.(free := books.free[..|books.free| - needed])
    requires view == middle[s := Grown(middle[s], tokens, Taken(books.free, needed))]
    ensures Served(policy, order, ts, before, s, needed, tokens, view, now, evicted)
  {
    hide Released, TokensHeld, Held, Picked, JustEnough, Taken;
    RequesterKept(policy, order, ts, s, needed, evicted, middle, before, books);
  }

  ghost predicate AllTight(ts: Tables, size: nat) {
    size > 0 && forall s :: s in ts ==> Tight(ts[s], size)
  }

  lemma TightAt(ts: Tables, s: int, size: nat)
    requires AllTight(ts, size) && s in ts
    ensures size > 0 && Tight(ts[s], size)
  {
  }

  lemma EmptyTight(size: nat)
    requires size > 0
    ensures Tight(EMPTY, size)
  {
  }

  /** No block is in two slots, and every block's count is the number of slots naming it. */
  ghost predicate Accounted(free: seq<nat>, references: seq<nat>, order: seq<int>, ts: Tables, total: nat) {
    && Unshared(free, order, ts, total) && |references| == total
    && forall b: nat :: b < total ==> references[b] == Owned(order, ts)[b]
  }

  lemma OrderKnown(free: seq<nat>, references: seq<nat>, order: seq<int>, ts: Tables, total: nat)
    requires Accounted(free, references, order, ts, total)
    ensures Lists(order, ts) && Known(order, ts) && Distinct(order)
  {
  }

  /** The counters a manager keeps next to its tables. */
  datatype Ledger = Ledger(free: seq<nat>, preemptions: nat, recomputed: nat)

  /** From tables `ts` and ledger `before`, emptying `evicted` leads to `view` and `now`;
      the last eviction was still needed. */
  ghost predicate Evicting(policy: Policy, order: seq<int>, ts: Tables, requester: int, needed: nat, evicted: seq<int>,
                           view: Tables, before: Ledger, now: Ledger)
  {
    && Known(order, ts) && Known(evicted, ts) && requester !in evicted
    && Picked(policy, order, ts, requester, evicted)
    && view == Emptied(ts, evicted)
    && now.free == before.free + Released(evicted, ts)
    && now.preemptions == before.preemptions + |evicted|
    && now.recomputed == before.recomputed + TokensHeld(evicted, ts)
    && (evicted != [] ==> Held(evicted[..|evicted| - 1], ts) < needed - |before.free|)
  }

  lemma EvictedNone(policy: Policy, order: seq<int>, ts: Tables, requester: int, needed: nat, before: Ledger)
    requires Known(order, ts)
    ensures Evicting(policy, order, ts, requester, needed, [], ts, before, before)
    ensures Held([], ts) == 0
  {
  }

  lemma EvictedMore(policy: Policy, order: seq<int>, ts: Tables, requester: int, needed: nat, evicted: seq<int>,
                    view: Tables, before: Ledger, now: Ledger, v: int)
    requires Evicting(policy, order, ts, requester, needed, evicted, view, before, now) && |now.free| < needed
    requires Known(order, view) && Chosen(policy, order, view, requester, Some(v))
    ensures v in view && v !in evicted && view[v].blocks != []
    ensures Evicting(policy, order, ts, requester, needed, evicted + [v], view[v := EMPTY], before,
                     Ledger(now.free + view[v].blocks, now.preemptions + 1, now.recomputed + view[v].tokens))
  {
    hide Picked, Chosen, Emptied, Released, TokensHeld, Held;
    ReleasedSize(evicted, ts);
    PickedMore(policy, order, ts, requester, evicted, v);
  }

  lemma EvictedEnough(policy: Policy, order: seq<int>, ts: Tables, requester: int, needed: nat, evicted: seq<int>,
                      view: Tables, before: Ledger, now: Ledger)
    requires Evicting(policy, order, ts, requester, needed, evicted, view, before, now) && |now.free| >= needed
    ensures Known(evicted, ts) && JustEnough(evicted, ts, needed - |before.free|)
  {
    ReleasedSize(evicted, ts);
  }

  /** Free and held blocks always add up to the pool. */
  lemma Conservation(free: seq<nat>, references: seq<nat>, order: seq<int>, ts: Tables, total: nat)
    requires Accounted(free, references, order, ts, total)
    ensures Known(order, ts) && |free| + Held(order, ts) == total
  {
    OwnedSize(order, ts);
    assert |multiset(free) + Owned(order, ts)| == |multiset(free)| + |Owned(order, ts)|;
  }

  /** What a request can reach is the pool less what the requester itself holds. */
  lemma Reach(free: seq<nat>, references: seq<nat>, order: seq<int>, ts: Tables, total: nat, requester: int)
    requires Accounted(free, references, order, ts, total)
    ensures Known(order, ts)
    ensures |free| + HeldByOthers(order, ts, requester) == total - |BlocksOf(ts, requester)|
  {
    hide Owned, Held, HeldByOthers;
    Conservation(free, references, order, ts, total);
    OthersHold(order, ts, requester);
  }

  /** While the demand is unmet but within reach, the scan finds a victim. */
  lemma VictimExists(before: Ledger, references0: seq<nat>, now: Ledger, references: seq<nat>, policy: Policy,
                     order: seq<int>, ts: Tables, evicted: seq<int>, view: Tables, total: nat, requester: int,
                     needed: nat, victim: Option<int>)
    requires Accounted(before.free, references0, order, ts, total)
    requires Accounted(now.free, references, order, view, total)
    requires Evicting(policy, order, ts, requester, needed, evicted, view, before, now) && |now.free| < needed
    requires Known(order, ts) && |before.free| + HeldByOthers(order, ts, requester) >= needed
    requires Known(order, view) && Chosen(policy, order, view, requester, victim)
    ensures victim != None
  {
    hide Accounted, HeldByOthers, Eligible;
    Reach(before.free, references0, order, ts, total, requester);
    Reach(now.free, references, order, view, total, requester);
    if victim == None {
      NothingToReclaim(order, view, requester);
    }
  }

  /** The scan for the largest victim has seen the first `i` sequences. */
  ghost predicate LargestSoFar(order: seq<int>, ts: Tables, requester: int, i: nat, l: nat, v: int, most: nat) {
    && l < i <= |order| && order[l] == v && MayEvict(ts, requester, v) && most == |ts[v].blocks|
    && forall j :: 0 <= j < i && MayEvict(ts, requester, order[j]) ==>
         |ts[order[j]].blocks| <= most && (j < l ==> |ts[order[j]].blocks| < most)
  }

  lemma LargestFound(order: seq<int>, ts: Tables, requester: int, l: nat, v: int, most: nat)
    requires Known(order, ts) && LargestSoFar(order, ts, requester, |order|, l, v, most)
    ensures Chosen(Largest, order, ts, requester, Some(v))
  {
    assert order[l] in order;
    assert v in Eligible(order, ts, requester);
  }

  lemma BlocksAccounted(free: seq<nat>, references: seq<nat>, order: seq<int>, ts: Tables, total: nat, s: int)
    requires Accounted(free, references, order, ts, total) && s in ts
    ensures forall i :: 0 <= i < |ts[s].blocks| ==> ts[s].blocks[i] < total && references[ts[s].blocks[i]] == 1
    ensures forall i, j :: 0 <= i < j < |ts[s].blocks| ==> ts[s].blocks[i] != ts[s].blocks[j]
  {
    var blocks: seq<nat> := ts[s].blocks;
    OwnedUpdate(order, ts, s, EMPTY);
    forall i | 0 <= i < |blocks| ensures blocks[i] < total && references[blocks[i]] == 1 {
      assert blocks[i] in multiset(blocks);
      assert Pool(total)[blocks[i]] >= 1;
    }
    forall i, j | 0 <= i < j < |blocks| ensures blocks[i] != blocks[j] {
      if blocks[i] == blocks[j] {
        SlotsDiffer(free, order, ts, total, s, i, s, j);
      }
    }
  }

  lemma AccountEmptied(free: seq<nat>, references: seq<nat>, after: seq<nat>, order: seq<int>, ts: Tables, total: nat,
                       s: int)
    requires Accounted(free, references, order, ts, total) && s in ts && |after| == total
    requires forall b :: 0 <= b < total ==> after[b] == if b in ts[s].blocks then 0 else references[b]
    ensures Accounted(free + ts[s].blocks, after, order, ts[s := EMPTY], total)
  {
    hide Owned, Distinct;
    var blocks: seq<nat> := ts[s].blocks;
    OwnedUpdate(order, ts, s, EMPTY);
    assert multiset(free + blocks) == multiset(free) + multiset(blocks);
    forall b: nat | b < total ensures after[b] == Owned(order, ts[s := EMPTY])[b] {
      if b in blocks {
        assert b in multiset(blocks);
        assert Pool(total)[b] == 1;
      } else {
        assert multiset(blocks)[b] == 0;
      }
    }
  }

  class KVCacheManager {
    const allocator: BlockAllocator
    const blockSize: nat
    const policy: Policy
    var tables: map<int, SequenceBlockTable>
    var admissionOrder: seq<int>
    var preemptions: nat
    var recomputedTokens: nat

    function View(): Tables
      reads this, tables.Values
    {
      map s | s in tables :: tables[s].View()
    }

    ghost function Books(): Ledger
      reads this, allocator
    {
      Ledger(allocator.free, preemptions, recomputedTokens)
    }

    /** The objects involved are the manager's own, one table object per sequence. */
    ghost predicate Separate()
      reads this
    {
      && (forall s :: s in tables ==> tables[s].blockSize == blockSize && tables[s].sequenceId == s)
      && (forall s, t :: s in tables && t in tables && s != t ==> tables[s] != tables[t])
    }

    /** No block is lost, shared or miscounted. */
    ghost predicate Sound()
      reads this, allocator, tables.Values
    {
      && Separate() && allocator.Valid() && allocator.blockSize == blockSize
      && Accounted(allocator.free, allocator.references, admissionOrder, View(), allocator.total)
    }

    ghost predicate Valid()
      reads this, allocator, tables.Values
    {
      Sound() && AllTight(View(), blockSize)
    }

    constructor (blockCount: nat, blockSize: nat, policy: Policy)
      requires blockCount > 0 && blockSize > 0
      ensures Valid() && fresh(allocator)
      ensures View() == map[] && admissionOrder == [] && allocator.total == blockCount && this.blockSize == blockSize
      ensures preemptions == 0 && recomputedTokens == 0 && this.policy == policy
      ensures |allocator.free| == blockCount
      ensures forall i :: 0 <= i < blockCount ==> allocator.free[i] == blockCount - 1 - i
    {
      this.blockSize := blockSize;
      this.policy := policy;
      allocator := new BlockAllocator(blockCount, blockSize);
      tables := map[];
      admissionOrder := [];
      preemptions, recomputedTokens := 0, 0;
    }

    method ChooseVictim(requester: int) returns (victim: Option<int>)
      requires Valid()
      ensures Chosen(policy, admissionOrder, View(), requester, victim)
    {
      hide Accounted, Tight, Owned, Eligible;
      OrderKnown(allocator.free, allocator.references, admissionOrder, View(), allocator.total);
      if policy == Newest {
        for i := |admissionOrder| downto 0
          invariant forall j :: i <= j < |admissionOrder| ==> !MayEvict(View(), requester, admissionOrder[j])
        {
          var candidate := admissionOrder[i];
          if candidate != requester && tables[candidate].blocks != [] {
            NewestFound(admissionOrder, View(), requester, i);
            return Some(candidate);
          }
        }
        NoneEligible(admissionOrder, View(), requester);
        return None;
      }

      victim := None;
      var most: nat := 0;
      ghost var l := 0;
      for i := 0 to |admissionOrder|
        invariant victim == None ==>
          most == 0 && forall j :: 0 <= j < i ==> !MayEvict(View(), requester, admissionOrder[j])
        invariant victim != None ==> LargestSoFar(admissionOrder, View(), requester, i, l, victim.value, most)
      {
        var candidate := admissionOrder[i];
        if candidate != requester {
          if |tables[candidate].blocks| > most {
            most := |tables[candidate].blocks|;
            victim := Some(candidate);
            l := i;
          }
        }
      }
      if victim == None {
        NoneEligible(admissionOrder, View(), requester);
      } else {
        LargestFound(admissionOrder, View(), requester, l, victim.value, most);
      }
    }

    method ReclaimableBlocks(requester: int) returns (count: nat)
      requires Valid()
      ensures Known(admissionOrder, View())
      ensures count == HeldByOthers(admissionOrder, View(), requester)
    {
      hide Accounted, Tight, Owned;
      OrderKnown(allocator.free, allocator.references, admissionOrder, View(), allocator.total);
      count := 0;
      for i := 0 to |admissionOrder|
        invariant count + HeldByOthers(admissionOrder[i..], View(), requester) ==
          HeldByOthers(admissionOrder, View(), requester)
      {
        var sequence := admissionOrder[i];
        assert admissionOrder[i..][1..] == admissionOrder[i + 1..];
        if sequence != requester {
          count := count + |tables[sequence].blocks|;
        }
      }
    }

    /** Gives a sequence's blocks back and starts it over with an empty table. */
    method Empty(s: int)
      requires Valid() && s in tables
      modifies this, allocator
      ensures Valid()
      ensures tables.Keys == old(tables.Keys) && fresh(tables[s])
      ensures forall x :: x in tables && x != s ==> tables[x] == old(tables[x])
      ensures View() == old(View())[s := EMPTY]
      ensures allocator.free == old(allocator.free) + old(View())[s].blocks
      ensures admissionOrder == old(admissionOrder)
      ensures preemptions == old(preemptions) + 1
      ensures recomputedTokens == old(recomputedTokens) + old(View())[s].tokens
    {
      hide Accounted, Tight;
      var table := tables[s];
      BlocksAccounted(allocator.free, allocator.references, admissionOrder, View(), allocator.total, s);
      allocator.ReleaseAll(table.blocks);
      AccountEmptied(old(allocator.free), old(allocator.references), allocator.references, admissionOrder,
                     View(), allocator.total, s);
      recomputedTokens := recomputedTokens + table.tokens;
      preemptions := preemptions + 1;
      var blank := new SequenceBlockTable(s, blockSize);
      tables := tables[s := blank];
      EmptyTight(blockSize);
      assert View() == old(View())[s := EMPTY];
    }

    /** Makes room for `needed` blocks at the cost of just enough others, or of nobody
        when even all of them would not do. */
    method EvictUntil(needed: nat, requester: int) returns (evicted: seq<int>)
      requires Valid()
      modifies this, allocator
      ensures Valid() && admissionOrder == old(admissionOrder) && tables.Keys == old(tables.Keys)
      ensures forall x :: x in tables ==> if x in evicted then fresh(tables[x]) else tables[x] == old(tables[x])
      ensures Evicting(policy, old(admissionOrder), old(View()), requester, needed, evicted, View(), old(Books()),
                       Books())
      ensures Known(admissionOrder, old(View())) && Known(evicted, old(View()))
      ensures var reachable := |old(allocator.free)| + HeldByOthers(admissionOrder, old(View()), requester);
        if reachable < needed then evicted == [] && Books() == old(Books())
        else |allocator.free| >= needed && JustEnough(evicted, old(View()), needed - |old(allocator.free)|)
    {
      hide Accounted, AllTight, Evicting, Chosen, HeldByOthers;
      ghost var ts, before := View(), Books();
      OrderKnown(allocator.free, allocator.references, admissionOrder, View(), allocator.total);
      evicted := [];
      EvictedNone(policy, admissionOrder, ts, requester, needed, before);
      var reclaimable := ReclaimableBlocks(requester);
      if |allocator.free| + reclaimable < needed {
        return;
      }
      while |allocator.free| < needed
        invariant Valid() && admissionOrder == old(admissionOrder) && tables.Keys == old(tables.Keys)
        invariant forall x :: x in tables ==> if x in evicted then fresh(tables[x]) else tables[x] == old(tables[x])
        invariant Evicting(policy, admissionOrder, ts, requester, needed, evicted, View(), before, Books())
        decreases needed - |allocator.free|
      {
        var victim := ChooseVictim(requester);
        OrderKnown(allocator.free, allocator.references, admissionOrder, View(), allocator.total);
        VictimExists(before, old(allocator.references), Books(), allocator.references, policy, admissionOrder, ts,
                     evicted, View(), allocator.total, requester, needed, victim);
        EvictedMore(policy, admissionOrder, ts, requester, needed, evicted, View(), before, Books(), victim.value);
        Empty(victim.value);
        evicted := evicted + [victim.value];
      }
      EvictedEnough(policy, admissionOrder, ts, requester, needed, evicted, View(), before, Books());
    }

    /** Takes `needed` free blocks into a sequence's table. */
    method TakeBlocks(s: int, needed: nat)
      requires Sound() && s in tables && |allocator.free| >= needed
      modifies allocator, tables[s]
      ensures Sound()
      ensures allocator.free == old(allocator.free)[..|old(allocator.free)| - needed]
      ensures View() ==
        old(View())[s := Table(old(View())[s].tokens, old(View())[s].blocks + Taken(old(allocator.free), needed))]
    {
      hide Accounted, BlockAllocator.Valid, Taken, Sound;
      ghost var ts, free := View(), allocator.free;
      TakenNone(ts[s].blocks, free);
      for i := 0 to needed
        invariant Sound() && s in tables && |allocator.free| >= needed - i && tables == old(tables)
        invariant allocator.free == free[..|free| - i]
        invariant View() == ts[s := Table(ts[s].tokens, ts[s].blocks + Taken(free, i))]
      {
        TakenMore(free, i);
        ghost var top := allocator.free[|allocator.free| - 1];
        assert (ts[s].blocks + Taken(free, i)) + [top] == ts[s].blocks + Taken(free, i + 1);
        TakeOne(s);
      }
    }

    /** One block more for a sequence, the top of the free list. */
    method TakeOne(s: int)
      requires Sound() && s in tables && allocator.free != []
      modifies allocator, tables[s]
      ensures Sound() && allocator.free == old(allocator.free)[..|old(allocator.free)| - 1]
      ensures var top := old(allocator.free)[|old(allocator.free)| - 1];
        View() == old(View())[s := Table(old(View())[s].tokens, old(View())[s].blocks + [top])]
    {
      hide Accounted, BlockAllocator.Valid;
      ghost var now := View();
      var table := tables[s];
      AccountTaken(allocator.free, allocator.references, admissionOrder, now, allocator.total, s);
      var block := allocator.Allocate();
      assert block != None;
      table.AppendBlock(block.value);
      assert forall x :: x in tables && x != s ==> tables[x] != tables[s] && tables[x].View() == now[x];
      assert View() == now[s := Table(now[s].tokens, now[s].blocks + [block.value])];
    }

    /** Grows a sequence by tokens its blocks, with the free ones, can hold. */
    method Grow(s: int, needed: nat, tokens: nat)
      requires Valid() && s in tables && |allocator.free| >= needed
      requires needed == Additional(View()[s], tokens, blockSize)
      modifies allocator, tables[s]
      ensures Valid()
      ensures Books() == old(Books()).(free := old(allocator.free)[..|old(allocator.free)| - needed])
      ensures View() == old(View())[s := Grown(old(View())[s], tokens, Taken(old(allocator.free), needed))]
    {
      hide Accounted, Owned, Lists, Additional, Tight, AllTight;
      ghost var ts := View();
      TightAt(ts, s, blockSize);
      AdditionalIsExact(ts[s], tokens, blockSize);
      TakeBlocks(s, needed);
      ghost var now := View();
      GrownTight(ts, s, tokens, blockSize, Taken(old(allocator.free), needed));
      AccountTokens(allocator.free, allocator.references, admissionOrder, now, allocator.total, s,
                    ts[s].tokens + tokens);
      var ok := tables[s].AddTokens(tokens);
      assert ok;
      assert forall x :: x in tables && x != s ==> tables[x] != tables[s] && tables[x].View() == now[x];
      assert View() == now[s := Table(ts[s].tokens + tokens, now[s].blocks)];
      assert View() == ts[s := Grown(ts[s], tokens, Taken(old(allocator.free), needed))];
    }

    /** Makes a sequence known, with an empty table. */
    method Register(s: int)
      requires Valid() && s !in tables
      modifies this
      ensures Valid() && Books() == old(Books())
      ensures s in tables && fresh(tables[s]) && tables == old(tables)[s := tables[s]]
      ensures View() == old(View())[s := EMPTY] && admissionOrder == old(admissionOrder) + [s]
    {
      hide Accounted, Owned, Lists, Tight;
      AccountAdmitted(allocator.free, allocator.references, admissionOrder, View(), allocator.total, s);
      EmptyTight(blockSize);
      var blank := new SequenceBlockTable(s, blockSize);
      tables := tables[s := blank];
      admissionOrder := admissionOrder + [s];
      assert View() == old(View())[s := EMPTY];
    }

    /** Reserves room for `tokens` more tokens of a known sequence. */
    method ReserveKnown(s: int, tokens: nat) returns (outcome: Outcome)
      requires Valid() && s in tables
      modifies this, allocator, tables[s]
      ensures Valid() && admissionOrder == old(admissionOrder) && tables.Keys == old(tables.Keys)
      ensures forall x :: x in tables ==>
        if outcome.Outcome? && x in outcome.preempted then fresh(tables[x]) else tables[x] == old(tables[x])
      ensures Reserved(blockSize, allocator.total, policy, admissionOrder, old(View()), old(Books()), s, tokens,
                       View(), Books(), outcome)
    {
      hide Accounted, Owned, Lists, Tight, AllTight, Taken, Additional, CeilDiv, Evicting, Emptied, JustEnough,
           HeldByOthers, Served;
      ghost var ts, before, total := View(), Books(), allocator.total;
      var table := tables[s];
      TightAt(ts, s, blockSize);
      RequestSize(allocator.free, allocator.references, admissionOrder, ts, total, s, tokens, blockSize);
      var needed := Additional(table.View(), tokens, blockSize);
      if needed > allocator.total {
        return Outcome(InsufficientCache, []);
      }
      var result, preempted := Admitted, [];
      if |allocator.free| < needed {
        preempted := EvictUntil(needed, s);
        if |allocator.free| < needed {
          RefusedIntact(policy, admissionOrder, ts, s, needed, preempted, View(), before, Books());
          return Outcome(InsufficientCache, preempted);
        }
        result := PreemptedOthers;
        EvictedEnough(policy, admissionOrder, ts, s, needed, preempted, View(), before, Books());
      } else {
        EvictedNone(policy, admissionOrder, ts, s, needed, before);
        EvictedEnough(policy, admissionOrder, ts, s, needed, [], ts, before, before);
      }
      ghost var middle, books := View(), Books();
      RequesterKept(policy, admissionOrder, ts, s, needed, preempted, middle, before, books);
      Grow(s, needed, tokens);
      outcome := Outcome(result, preempted);
      ServedBy(policy, admissionOrder, ts, s, needed, tokens, preempted, middle, before, books, View(), Books());
    }

    /** `tokens` is asked for; `creating` admits an unknown sequence first. A refused
        admission leaves the sequence known, with an empty table. */
    method Reserve(s: int, tokens: nat, creating: bool) returns (outcome: Outcome)
      requires Valid()
      modifies this, allocator, if s in tables then {tables[s]} else {}
      ensures Valid()
      ensures forall x :: x in tables ==> fresh(tables[x]) || (x in old(tables) && tables[x] == old(tables[x]))
      ensures forall x :: x in old(tables) && !(outcome.Outcome? && x in outcome.preempted) ==>
        x in tables && tables[x] == old(tables[x])
      ensures tokens == 0 ==> outcome == Outcome(Admitted, [])
      ensures tokens > 0 && !creating && s !in old(tables) ==> outcome == UnknownSequence
      ensures if tokens == 0 || (!creating && s !in old(tables))
        then View() == old(View()) && Books() == old(Books()) && admissionOrder == old(admissionOrder)
        else var ts, order := Registered(old(View()), s), RegisteredOrder(old(admissionOrder), old(View()), s);
          && admissionOrder == order
          && Reserved(blockSize, allocator.total, policy, order, ts, old(Books()), s, tokens, View(), Books(), outcome)
    {
      hide Accounted, AllTight, Reserved;
      if tokens == 0 {
        return Outcome(Admitted, []);
      }
      if creating && s !in tables {
        Register(s);
      }
      if s !in tables {
        return UnknownSequence;
      }
      outcome := ReserveKnown(s, tokens);
    }

    method Admit(s: int, tokens: nat) returns (outcome: Outcome)
      requires Valid()
      modifies this, allocator, if s in tables then {tables[s]} else {}
      ensures Valid()
      ensures forall x :: x in tables ==> fresh(tables[x]) || (x in old(tables) && tables[x] == old(tables[x]))
      ensures forall x :: x in old(tables) && !(outcome.Outcome? && x in outcome.preempted) ==>
        x in tables && tables[x] == old(tables[x])
      ensures tokens == 0 ==>
        && outcome == Outcome(Admitted, [])
        && View() == old(View()) && Books() == old(Books()) && admissionOrder == old(admissionOrder)
      ensures tokens > 0 ==>
        var ts, order := Registered(old(View()), s), RegisteredOrder(old(admissionOrder), old(View()), s);
        && admissionOrder == order
        && Reserved(blockSize, allocator.total, policy, order, ts, old(Books()), s, tokens, View(), Books(), outcome)
    {
      hide Accounted, AllTight, Reserved;
      outcome := Reserve(s, tokens, true);
    }

    method Extend(s: int, tokens: nat) returns (outcome: Outcome)
      requires Valid()
      modifies this, allocator, if s in tables then {tables[s]} else {}
      ensures Valid() && admissionOrder == old(admissionOrder)
      ensures forall x :: x in tables ==> fresh(tables[x]) || (x in old(tables) && tables[x] == old(tables[x]))
      ensures forall x :: x in old(tables) && !(outcome.Outcome? && x in outcome.preempted) ==>
        x in tables && tables[x] == old(tables[x])
      ensures tokens == 0 ==> outcome == Outcome(Admitted, []) && View() == old(View()) && Books() == old(Books())
      ensures tokens > 0 && s !in old(tables) ==>
        outcome == UnknownSequence && View() == old(View()) && Books() == old(Books())
      ensures tokens > 0 && s in old(tables) ==>
        Reserved(blockSize, allocator.total, policy, admissionOrder, old(View()), old(Books()), s, tokens,
                 View(), Books(), outcome)
    {
      hide Accounted, AllTight, Reserved;
      outcome := Reserve(s, tokens, false);
    }

    /** The sequence loses its blocks and keeps its place in the admission order. */
    method Preempt(s: int) returns (reclaimed: nat)
      requires Valid()
      modifies this, allocator
      ensures Valid() && admissionOrder == old(admissionOrder)
      ensures forall x :: x in tables ==> fresh(tables[x]) || (x in old(tables) && tables[x] == old(tables[x]))
      ensures reclaimed == |BlocksOf(old(View()), s)|
      ensures reclaimed == 0 ==> View() == old(View()) && Books() == old(Books())
      ensures reclaimed > 0 ==>
        && View() == old(View())[s := EMPTY]
        && Books() == Ledger(old(allocator.free) + old(View())[s].blocks, old(preemptions) + 1,
                             old(recomputedTokens) + old(View())[s].tokens)
    {
      hide Accounted, AllTight;
      if s !in tables || tables[s].blocks == [] {
        return 0;
      }
      reclaimed := |tables[s].blocks|;
      Empty(s);
    }

    /** The sequence is forgotten, and its blocks are free. */
    method Release(s: int)
      requires Valid()
      modifies this, allocator
      ensures Valid()
      ensures tables == old(tables) - {s}
      ensures View() == old(View()) - {s}
      ensures admissionOrder == if s in old(tables) then Without(old(admissionOrder), s) else old(admissionOrder)
      ensures Books() == old(Books()).(free := old(allocator.free) + BlocksOf(old(View()), s))
    {
      hide Accounted, AllTight, Without;
      if s !in tables {
        assert tables == tables - {s} && View() == View() - {s};
        assert allocator.free == allocator.free + [];
        return;
      }
      var table := tables[s];
      BlocksAccounted(allocator.free, allocator.references, admissionOrder, View(), allocator.total, s);
      allocator.ReleaseAll(table.blocks);
      AccountReleased(old(allocator.free), old(allocator.references), allocator.references, admissionOrder,
                      View(), allocator.total, s);
      TightWithout(View(), s, blockSize);
      tables := tables - {s};
      admissionOrder := Without(admissionOrder, s);
      assert View() == old(View()) - {s};
    }

    /** Where a token lives; nothing for an unknown sequence or a token it does not hold. */
    method Locate(s: int, tokenIndex: nat) returns (place: Option<(nat, nat)>)
      requires Valid()
      ensures place != None <==> s in View() && tokenIndex < View()[s].tokens
      ensures place != None ==> View()[s].tokens <= |View()[s].blocks| * blockSize
      ensures place != None ==> place.value == Place(View()[s], blockSize, tokenIndex)
      ensures place != None ==> Lives(View()[s], blockSize, tokenIndex, place.value)
    {
      if s !in tables {
        return None;
      }
      TightAt(View(), s, blockSize);
      AdditionalIsExact(View()[s], 0, blockSize);
      place := tables[s].Locate(tokenIndex);
    }
  }
}
