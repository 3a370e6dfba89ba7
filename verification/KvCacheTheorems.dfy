/** What the cache manager's contracts add up to. */
module KvCacheTheorems {
  import opened BlockTables
  import opened Common
  import opened KvCache

  /** Exact admission: a request is granted exactly when the grown sequence alone
      fits the pool. A grant grows the requester by exactly the ask, in place,
      empties exactly the listed victims, never the requester, and leaves everyone
      else alone; a refusal changes nothing. */
  lemma AdmissionIsExact(size: nat, total: nat, policy: Policy, order: seq<int>, ts: Tables, before: Ledger, s: int,
                         tokens: nat, view: Tables, now: Ledger, outcome: Outcome)
    requires size > 0 && s in ts && AllTight(ts, size)
    requires Reserved(size, total, policy, order, ts, before, s, tokens, view, now, outcome)
    ensures outcome.Ok() <==> CeilDiv(ts[s].tokens + tokens, size) <= total
    ensures !outcome.Ok() ==> view == ts && now == before && outcome.preempted == []
    ensures outcome.Ok() ==> view.Keys == ts.Keys && view[s].tokens == ts[s].tokens + tokens
    ensures outcome.Ok() ==> ts[s].blocks <= view[s].blocks && |view[s].blocks| == CeilDiv(view[s].tokens, size)
    ensures outcome.Ok() ==> s !in outcome.preempted && Known(outcome.preempted, ts)
    ensures outcome.Ok() ==> forall x :: x in outcome.preempted ==> MayEvict(ts, s, x)
    ensures outcome.Ok() ==> forall x :: x in ts && x != s ==>
      view[x] == if x in outcome.preempted then EMPTY else ts[x]
    ensures outcome.Ok() ==> (outcome.result == PreemptedOthers <==> outcome.preempted != [])
    ensures outcome.Ok() ==>
      && now.preemptions == before.preemptions + |outcome.preempted|
      && now.recomputed == before.recomputed + TokensHeld(outcome.preempted, ts)
  {
    hide CeilDiv, Additional, TokensHeld, Served, Tight, AllTight;
    TightAt(ts, s, size);
    AdditionalIsExact(ts[s], tokens, size);
    if CeilDiv(ts[s].tokens + tokens, size) <= total {
      ServedExactly(policy, order, ts, before, s, Additional(ts[s], tokens, size), tokens, view, now, outcome.preempted);
    }
  }

  /** What a grant does. */
  lemma ServedExactly(policy: Policy, order: seq<int>, ts: Tables, before: Ledger, s: int, needed: nat, tokens: nat,
                      view: Tables, now: Ledger, evicted: seq<int>)
    requires s in ts && Served(policy, order, ts, before, s, needed, tokens, view, now, evicted)
    ensures view.Keys == ts.Keys && view[s].tokens == ts[s].tokens + tokens
    ensures ts[s].blocks <= view[s].blocks && |view[s].blocks| == |ts[s].blocks| + needed
    ensures forall x :: x in ts && x != s ==> view[x] == if x in evicted then EMPTY else ts[x]
    ensures s !in evicted && Known(evicted, ts) && forall x :: x in evicted ==> MayEvict(ts, s, x)
    ensures |before.free| < needed <==> evicted != []
    ensures now.preemptions == before.preemptions + |evicted|
    ensures now.recomputed == before.recomputed + TokensHeld(evicted, ts)
  {
    hide Released, TokensHeld, Held, Taken, Picked;
    TakenSize(before.free + Released(evicted, ts), needed);
    PickedEligible(policy, order, ts, s, evicted);
    if |before.free| >= needed {
      NothingMissing(evicted, ts, needed - |before.free|);
    } else {
      NobodyReleased(ts);
    }
  }

  /** Whatever the outcome, a sequence that was not evicted has no token moved. */
  lemma TokensNeverMove(size: nat, total: nat, policy: Policy, order: seq<int>, ts: Tables, before: Ledger, s: int,
                        tokens: nat, view: Tables, now: Ledger, outcome: Outcome, x: int, token: nat)
    requires size > 0 && s in ts && AllTight(ts, size) && outcome.Outcome?
    requires Reserved(size, total, policy, order, ts, before, s, tokens, view, now, outcome)
    requires x in ts && x !in outcome.preempted && token < ts[x].tokens
    ensures ts[x].tokens <= |ts[x].blocks| * size
    ensures x in view && token < view[x].tokens <= |view[x].blocks| * size
    ensures Place(view[x], size, token) == Place(ts[x], size, token)
  {
    hide CeilDiv, Reserved, Place, Tight;
    AdmissionIsExact(size, total, policy, order, ts, before, s, tokens, view, now, outcome);
    TightAt(ts, x, size);
    AdditionalIsExact(ts[x], 0, size);
    if outcome.Ok() && x == s {
      CeilDivBounds(view[x].tokens, size);
    }
    PlaceStable(ts[x], view[x], size, token);
  }

  lemma TakenSize(free: seq<nat>, needed: nat)
    requires needed <= |free|
    ensures |Taken(free, needed)| == needed
  {
  }

  lemma NothingMissing(victims: seq<int>, ts: Tables, deficit: int)
    requires Known(victims, ts) && JustEnough(victims, ts, deficit) && deficit <= 0
    ensures victims == []
  {
  }

  lemma NobodyReleased(ts: Tables)
    ensures Known([], ts) && Released([], ts) == []
  {
  }

  /** Largest-first disturbs the fewest sequences that any choice of victims could. */
  lemma LargestEvictsFewest(size: nat, total: nat, order: seq<int>, ts: Tables, before: Ledger, s: int, tokens: nat,
                            view: Tables, now: Ledger, outcome: Outcome, choice: seq<int>)
    requires size > 0 && s in ts && outcome.Ok()
    requires Reserved(size, total, Largest, order, ts, before, s, tokens, view, now, outcome)
    requires Known(order, ts) && Distinct(choice) && Known(choice, ts) && Among(choice, Eligible(order, ts, s))
    requires |before.free| + Held(choice, ts) >= Additional(ts[s], tokens, size)
    ensures |outcome.preempted| <= |choice|
  {
    hide CeilDiv, Additional, Released, TokensHeld, Held, Taken, Picked, Eligible;
    var deficit := Additional(ts[s], tokens, size) - |before.free|;
    LargestIsFewest(order, ts, s, outcome.preempted, deficit, choice);
  }

  /** Newest-first evicts the shortest suffix, in admission order, of the other
      block-holding sequences that covers the deficit. */
  lemma NewestEvictsShortestSuffix(size: nat, total: nat, order: seq<int>, ts: Tables, before: Ledger, s: int,
                                   tokens: nat, view: Tables, now: Ledger, outcome: Outcome, k: nat)
    requires size > 0 && s in ts && outcome.Outcome?
    requires Reserved(size, total, Newest, order, ts, before, s, tokens, view, now, outcome)
    requires Distinct(order) && outcome.result == PreemptedOthers
    requires Known(order, ts) && k <= |Eligible(order, ts, s)|
    ensures Known(Eligible(order, ts, s), ts)
    ensures var e := Eligible(order, ts, s);
      && NewestFirst(e, outcome.preempted)
      && (|before.free| + Held(e[k..], ts) >= Additional(ts[s], tokens, size) <==> k <= |e| - |outcome.preempted|)
  {
    hide CeilDiv, Additional, Released, TokensHeld, Held, Taken, Picked, Eligible;
    var deficit := Additional(ts[s], tokens, size) - |before.free|;
    EligibleKnown(order, ts, s);
    NewestIsShortestSuffix(order, ts, s, outcome.preempted, deficit, k);
  }

  /** Exactly who pays for a granted request, under either policy: a holder is evicted if and only if
      the free blocks and those of the holders that go before it fall short of what is needed. */
  lemma EvictedExactly(size: nat, total: nat, policy: Policy, order: seq<int>, ts: Tables, before: Ledger, s: int,
                       tokens: nat, view: Tables, now: Ledger, outcome: Outcome, x: int)
    requires size > 0 && s in ts && outcome.Ok() && Known(order, ts) && Distinct(order)
    requires Reserved(size, total, policy, order, ts, before, s, tokens, view, now, outcome)
    requires x in order && x != s && ts[x].blocks != []
    ensures x in ts && Known(Eligible(order, ts, s), ts)
    ensures var ahead := AheadOf(policy, order, ts, Eligible(order, ts, s), x);
      x in outcome.preempted <==> |before.free| + Held(ahead, ts) < Additional(ts[s], tokens, size)
  {
    EligibleKnown(order, ts, s);
    assert x in Eligible(order, ts, s);
    hide CeilDiv, Additional, Released, TokensHeld, Held, Taken, Picked, Eligible, AheadOf, Distinct, JustEnough;
    VictimsRanked(policy, order, ts, s, outcome.preempted, Additional(ts[s], tokens, size) - |before.free|, x);
  }

  /** In every state a manager can be in, two tokens never share a physical slot. */
  lemma PagingNeverAliases(m: KVCacheManager, s: int, i: nat, t: int, j: nat)
    requires m.Valid()
    requires s in m.View() && i < m.View()[s].tokens
    requires t in m.View() && j < m.View()[t].tokens
    ensures m.View()[s].tokens <= |m.View()[s].blocks| * m.blockSize
    ensures m.View()[t].tokens <= |m.View()[t].blocks| * m.blockSize
    ensures Place(m.View()[s], m.blockSize, i) == Place(m.View()[t], m.blockSize, j) ==> s == t && i == j
  {
    hide Unshared, Tight, CeilDiv;
    TightAt(m.View(), s, m.blockSize);
    TightAt(m.View(), t, m.blockSize);
    AdditionalIsExact(m.View()[s], 0, m.blockSize);
    AdditionalIsExact(m.View()[t], 0, m.blockSize);
    if Place(m.View()[s], m.blockSize, i) == Place(m.View()[t], m.blockSize, j) {
      PlacesDiffer(m.allocator.free, m.admissionOrder, m.View(), m.allocator.total, m.blockSize, s, i, t, j);
    }
  }

  /** No block is ever lost: what is free and what the tables hold is the whole pool. */
  lemma NoBlockLost(m: KVCacheManager, b: nat)
    requires m.Valid() && b < m.allocator.total
    ensures Known(m.admissionOrder, m.View())
    ensures |m.allocator.free| + Held(m.admissionOrder, m.View()) == m.allocator.total
    ensures b in m.allocator.free <==> forall s :: s in m.View() ==> b !in m.View()[s].blocks
  {
    var free: seq<nat>, order, ts, total := m.allocator.free, m.admissionOrder, m.View(), m.allocator.total;
    Conservation(free, m.allocator.references, order, ts, total);
    hide Held;
    assert (multiset(free) + Owned(order, ts))[b] == 1;
    OwnedIffHeld(order, ts, b);
  }

  lemma {:induction false} OwnedIffHeld(order: seq<int>, ts: Tables, b: nat)
    requires Known(order, ts)
    ensures b in Owned(order, ts) <==> exists i :: 0 <= i < |order| && b in ts[order[i]].blocks
  {
    if order == [] {
    } else {
      OwnedIffHeld(order[1..], ts, b);
      if exists i :: 0 <= i < |order| && b in ts[order[i]].blocks {
        var i :| 0 <= i < |order| && b in ts[order[i]].blocks;
        assert i == 0 || order[1..][i - 1] == order[i];
      }
      if exists i :: 0 <= i < |order[1..]| && b in ts[order[1..][i]].blocks {
        var i :| 0 <= i < |order[1..]| && b in ts[order[1..][i]].blocks;
        assert order[i + 1] == order[1..][i];
      }
    }
  }
}
