/** A whole pass of extensions: when it loses nobody, and whom it can lose. */
module SchedulerGrowth {
  import opened BlockTables
  import opened Common
  import opened KvCache
  import opened KvCacheTheorems

  /** The cache as one call meets it: its tables and its counters. */
  datatype Cache = Cache(tables: Tables, books: Ledger)

  /** The pool a manager is built on. */
  datatype PoolShape = PoolShape(size: nat, total: nat, policy: Policy)

  /** Who a call on behalf of `s` costs: its victims, or `s` itself when refused. */
  function Lost(s: int, outcome: Outcome): seq<int> {
    if outcome.Ok() then outcome.preempted else [s]
  }

  ghost predicate Extended(pool: PoolShape, order: seq<int>, before: Cache, s: int, after: Cache, outcome: Outcome) {
    && pool.size > 0 && s in before.tables
    && Reserved(pool.size, pool.total, pool.policy, order, before.tables, before.books, s, 1, after.tables, after.books,
                outcome)
  }

  /** One more token for each of `ids` in turn, whoever the earlier calls evicted included. */
  ghost predicate GrowthPass(pool: PoolShape, order: seq<int>, before: Cache, ids: seq<int>, casualties: seq<int>,
                             after: Cache)
    decreases |ids|
  {
    if ids == [] then casualties == [] && after == before
    else
      var k := |ids| - 1;
      exists earlier: seq<int>, middle: Cache, outcome: Outcome ::
        && GrowthPass(pool, order, before, ids[..k], earlier, middle)
        && Extended(pool, order, middle, ids[k], after, outcome)
        && casualties == earlier + Lost(ids[k], outcome)
  }

  lemma PassMore(pool: PoolShape, order: seq<int>, before: Cache, ids: seq<int>, casualties: seq<int>, middle: Cache,
                  s: int, after: Cache, outcome: Outcome)
    requires GrowthPass(pool, order, before, ids, casualties, middle) && Extended(pool, order, middle, s, after,
                                                                                  outcome)
    ensures GrowthPass(pool, order, before, ids + [s], casualties + Lost(s, outcome), after)
  {
    hide Extended;
    var all := ids + [s];
    assert all[..|all| - 1] == ids && all[|all| - 1] == s;
    assert GrowthPass(pool, order, before, all[..|all| - 1], casualties, middle);
  }

  /** The blocks the pass asks for, each sequence taken as it is before the pass. */
  function Demand(ids: seq<int>, ts: Tables, size: nat): nat
    requires size > 0 && Known(ids, ts)
  {
    if ids == [] then 0
    else Demand(ids[..|ids| - 1], ts, size) + Additional(ts[ids[|ids| - 1]], 1, size)
  }

  /** What holds before a pass: tight tables, and no sequence that with the free blocks exceeds the pool. */
  ghost predicate Ready(pool: PoolShape, before: Cache) {
    && pool.size > 0 && AllTight(before.tables, pool.size)
    && forall s :: s in before.tables ==> |before.tables[s].blocks| + |before.books.free| <= pool.total
  }

  /** A call costs nobody exactly when what it needs is free, and then it takes just that. */
  lemma OneCall(pool: PoolShape, order: seq<int>, before: Cache, s: int, after: Cache, outcome: Outcome)
    requires Extended(pool, order, before, s, after, outcome) && AllTight(before.tables, pool.size)
    ensures after.tables.Keys == before.tables.Keys && AllTight(after.tables, pool.size)
    ensures var needed := Additional(before.tables[s], 1, pool.size);
      && (needed > |before.books.free| ==> Lost(s, outcome) != [])
      && (needed <= |before.books.free| && |before.tables[s].blocks| + |before.books.free| <= pool.total ==>
            && Lost(s, outcome) == []
            && |after.books.free| == |before.books.free| - needed
            && forall x :: x in before.tables && x != s ==> after.tables[x] == before.tables[x])
  {
    var ts, t := before.tables, before.tables[s];
    AdmissionIsExact(pool.size, pool.total, pool.policy, order, ts, before.books, s, 1, after.tables, after.books,
                     outcome);
    TightAt(ts, s, pool.size);
    AdditionalIsExact(t, 1, pool.size);
    CallTight(pool, order, before, s, after, outcome);
    hide CeilDiv, Additional, Released, TokensHeld, Held, Taken, Tight, AllTight, MayEvict;
    var needed := Additional(t, 1, pool.size);
    if outcome.Ok() && needed <= |before.books.free| {
      NothingMissing(outcome.preempted, ts, needed - |before.books.free|);
      NobodyReleased(ts);
    }
    if outcome.Ok() && needed > |before.books.free| {
      NobodyHeld(ts);
    }
  }

  lemma NobodyHeld(ts: Tables)
    ensures Known([], ts) && Held([], ts) == 0
  {
  }

  lemma CallTight(pool: PoolShape, order: seq<int>, before: Cache, s: int, after: Cache, outcome: Outcome)
    requires Extended(pool, order, before, s, after, outcome) && AllTight(before.tables, pool.size)
    ensures AllTight(after.tables, pool.size)
  {
    AdmissionIsExact(pool.size, pool.total, pool.policy, order, before.tables, before.books, s, 1,
                     after.tables, after.books, outcome);
    EmptyTight(pool.size);
    hide Reserved, CeilDiv, MayEvict;
  }

  /** A call costs the caller itself, or sequences that hold blocks. */
  lemma LostHeldBlocks(pool: PoolShape, order: seq<int>, before: Cache, s: int, after: Cache, outcome: Outcome)
    requires Extended(pool, order, before, s, after, outcome) && AllTight(before.tables, pool.size)
    ensures forall x :: x in Lost(s, outcome) ==> x == s || (x in before.tables && before.tables[x] != EMPTY)
  {
    AdmissionIsExact(pool.size, pool.total, pool.policy, order, before.tables, before.books, s, 1,
                     after.tables, after.books, outcome);
    hide Reserved, CeilDiv, AllTight;
  }

  lemma {:induction false} PassKeeps(pool: PoolShape, order: seq<int>, before: Cache, ids: seq<int>,
                                     casualties: seq<int>,
                                     after: Cache)
    requires GrowthPass(pool, order, before, ids, casualties, after) && Ready(pool, before)
    requires Distinct(ids) && Known(ids, before.tables)
    ensures after.tables.Keys == before.tables.Keys && AllTight(after.tables, pool.size)
    ensures casualties == [] <==> Demand(ids, before.tables, pool.size) <= |before.books.free|
    ensures casualties == [] ==>
      && |after.books.free| == |before.books.free| - Demand(ids, before.tables, pool.size)
      && forall x :: x in before.tables && x !in ids ==> after.tables[x] == before.tables[x]
    decreases |ids|
  {
    hide AllTight, Additional, Extended, Lost;
    if ids == [] {
    } else {
      var k := |ids| - 1;
      var earlier, middle, outcome :|
        GrowthPass(pool, order, before, ids[..k], earlier, middle) && Extended(pool, order, middle, ids[k], after,
                                                                               outcome)
        && casualties == earlier + Lost(ids[k], outcome);
      PassKeeps(pool, order, before, ids[..k], earlier, middle);
      OneCall(pool, order, middle, ids[k], after, outcome);
      assert ids[k] !in ids[..k];
      assert forall x :: x !in ids ==> x !in ids[..k];
    }
  }

  /** A pass loses nobody if and only if what it asks for in all is free before it starts. */
  lemma PassLosesNobody(pool: PoolShape, order: seq<int>, before: Cache, ids: seq<int>, casualties: seq<int>,
                        after: Cache)
    requires GrowthPass(pool, order, before, ids, casualties, after) && Ready(pool, before)
    requires Distinct(ids) && Known(ids, before.tables)
    ensures casualties == [] <==> Demand(ids, before.tables, pool.size) <= |before.books.free|
  {
    PassKeeps(pool, order, before, ids, casualties, after);
  }

  // ---------------------------------------------------------------------------
  // Newest first spares the oldest in one call, and not over a pass.
  // ---------------------------------------------------------------------------

  /** With nothing free, a call that needs one block evicts exactly the newest other holder. */
  lemma NewestGives(pool: PoolShape, order: seq<int>, before: Cache, s: int, after: Cache, outcome: Outcome)
    requires Extended(pool, order, before, s, after, outcome) && AllTight(before.tables, pool.size)
    requires pool.policy == Newest && before.books.free == [] && Additional(before.tables[s], 1, pool.size) == 1
    requires Known(order, before.tables) && outcome.Ok()
    ensures var others := Eligible(order, before.tables, s);
      others != [] && Lost(s, outcome) == [others[|others| - 1]]
    ensures |after.books.free| == |before.tables[Lost(s, outcome)[0]].blocks| - 1
  {
    var ts, victims := before.tables, outcome.preempted;
    AdmissionIsExact(pool.size, pool.total, pool.policy, order, ts, before.books, s, 1, after.tables, after.books,
                     outcome);
    hide CeilDiv, Additional, TokensHeld, Taken, Tight, AllTight, Eligible;
    NobodyHeld(ts);
    assert Held(victims, ts) >= 1;
    assert victims[..0] == [] && Emptied(ts, []) == ts;
    assert Chosen(Newest, order, Emptied(ts, victims[..0]), s, Some(victims[0]));
    FirstHolds(victims, ts);
    OneReleased(victims[0], ts);
    assert victims == [victims[0]];
  }

  lemma FirstHolds(victims: seq<int>, ts: Tables)
    requires victims != [] && Known(victims, ts)
    ensures |victims| > 1 ==> Held(victims[..|victims| - 1], ts) >= |ts[victims[0]].blocks|
  {
  }

  lemma OneReleased(v: int, ts: Tables)
    requires v in ts
    ensures Known([v], ts) && Released([v], ts) == ts[v].blocks
  {
    assert [v][..0] == [];
    NobodyReleased(ts);
  }

  /** Three sequences fill a pool of three one-token blocks, each with one. Extending them in
      admission order evicts the newest for the first and the first for the second, and grants
      the third: the pass loses the newest and the oldest, and only the middle one survives. */
  lemma OldestLost(casualties: seq<int>, after: Cache)
    requires GrowthPass(PoolShape(1, 3, Newest), [1, 2, 3],
                        Cache(map[1 := Table(1, [0]), 2 := Table(1, [1]), 3 := Table(1, [2])], Ledger([], 0, 0)),
                        [1, 2, 3], casualties, after)
    ensures casualties == [3, 1]
  {
    hide GrowthPass, Extended, Lost;
    var pool, order := PoolShape(1, 3, Newest), [1, 2, 3];
    var start := Cache(map[1 := Table(1, [0]), 2 := Table(1, [1]), 3 := Table(1, [2])], Ledger([], 0, 0));
    assert order == [1, 2] + [3] && [1, 2] == [1] + [2] && [1] == [] + [1];
    var c2, m2, o3 := LastCall(pool, order, start, [1, 2], 3, casualties, after);
    var c1, m1, o2 := LastCall(pool, order, start, [1], 2, c2, m2);
    var c0, m0, o1 := LastCall(pool, order, start, [], 1, c1, m1);
    assert c0 == [] && m0 == start by {
      NoCalls(pool, order, start, c0, m0);
    }
    FirstCall(start, m1, o1);
    SecondCall(m1, m2, o2);
    ThirdCall(m2, after, o3);
    assert [] + [3] == [3] && [3] + [1] == [3, 1] && [3, 1] + [] == [3, 1];
  }

  lemma NoCalls(pool: PoolShape, order: seq<int>, before: Cache, casualties: seq<int>, after: Cache)
    requires GrowthPass(pool, order, before, [], casualties, after)
    ensures casualties == [] && after == before
  {
  }

  /** A pass taken apart at its last call. */
  lemma LastCall(pool: PoolShape, order: seq<int>, before: Cache, ids: seq<int>, s: int, casualties: seq<int>,
                 after: Cache)
    returns (earlier: seq<int>, middle: Cache, outcome: Outcome)
    requires GrowthPass(pool, order, before, ids + [s], casualties, after)
    ensures GrowthPass(pool, order, before, ids, earlier, middle) && Extended(pool, order, middle, s, after, outcome)
    ensures casualties == earlier + Lost(s, outcome)
  {
    hide Extended;
    var all := ids + [s];
    assert all[..|all| - 1] == ids && all[|all| - 1] == s;
    earlier, middle, outcome :| GrowthPass(pool, order, before, all[..|all| - 1], earlier, middle)
      && Extended(pool, order, middle, all[|all| - 1], after, outcome)
      && casualties == earlier + Lost(all[|all| - 1], outcome);
  }

  lemma FirstCall(before: Cache, after: Cache, outcome: Outcome)
    requires before.tables.Keys == {1, 2, 3} && AllTight(before.tables, 1) && before.books.free == []
    requires before.tables[1] == Table(1, [0]) && before.tables[2] == Table(1, [1]) && before.tables[3] == Table(1, [2])
    requires Extended(PoolShape(1, 3, Newest), [1, 2, 3], before, 1, after, outcome)
    ensures Lost(1, outcome) == [3] && after.books.free == []
    ensures after.tables.Keys == {1, 2, 3} && AllTight(after.tables, 1)
    ensures after.tables[1].tokens == 2 && after.tables[2] == Table(1, [1]) && after.tables[3] == EMPTY
  {
    var pool, order, ts := PoolShape(1, 3, Newest), [1, 2, 3], before.tables;
    assert Additional(ts[1], 1, 1) == 1;
    AdmissionIsExact(1, 3, Newest, order, ts, before.books, 1, 1, after.tables, after.books, outcome);
    NewestGives(pool, order, before, 1, after, outcome);
    CallTight(pool, order, before, 1, after, outcome);
    EligibleOf(ts, 1);
  }

  lemma SecondCall(before: Cache, after: Cache, outcome: Outcome)
    requires before.tables.Keys == {1, 2, 3} && AllTight(before.tables, 1) && before.books.free == []
    requires before.tables[1].tokens == 2 && before.tables[2] == Table(1, [1]) && before.tables[3] == EMPTY
    requires Extended(PoolShape(1, 3, Newest), [1, 2, 3], before, 2, after, outcome)
    ensures Lost(2, outcome) == [1] && |after.books.free| == 1
    ensures after.tables.Keys == {1, 2, 3} && AllTight(after.tables, 1) && after.tables[3] == EMPTY
  {
    var pool, order, ts := PoolShape(1, 3, Newest), [1, 2, 3], before.tables;
    assert Additional(ts[2], 1, 1) == 1;
    TightAt(ts, 1, 1);
    AdmissionIsExact(1, 3, Newest, order, ts, before.books, 2, 1, after.tables, after.books, outcome);
    NewestGives(pool, order, before, 2, after, outcome);
    CallTight(pool, order, before, 2, after, outcome);
    EligibleOf(ts, 2);
  }

  lemma ThirdCall(before: Cache, after: Cache, outcome: Outcome)
    requires before.tables.Keys == {1, 2, 3} && AllTight(before.tables, 1) && |before.books.free| == 1
    requires before.tables[3] == EMPTY
    requires Extended(PoolShape(1, 3, Newest), [1, 2, 3], before, 3, after, outcome)
    ensures Lost(3, outcome) == []
  {
    assert Additional(before.tables[3], 1, 1) == 1;
    OneCall(PoolShape(1, 3, Newest), [1, 2, 3], before, 3, after, outcome);
  }

  /** The other holders among three sequences. */
  lemma EligibleOf(ts: Tables, s: int)
    requires ts.Keys == {1, 2, 3} && 1 <= s <= 2 && ts[1].blocks != [] && ts[2].blocks != []
    ensures Known([1, 2, 3], ts)
    ensures Eligible([1, 2, 3], ts, s) ==
      (if s == 1 then [2] else [1]) + (if ts[3].blocks == [] then [] else [3])
  {
    assert [1, 2, 3][1..] == [2, 3] && [2, 3][1..] == [3] && [3][1..] == [];
    assert Eligible([3], ts, s) == if ts[3].blocks == [] then [] else [3];
    assert Eligible([2, 3], ts, s) == (if s == 1 then [2] else []) + Eligible([3], ts, s);
  }

  // ---------------------------------------------------------------------------
  // Newest first, in an admission pass: the last admitted pays for the next.
  // ---------------------------------------------------------------------------

  /** A new sequence is admitted while `x` holds blocks. Then, whatever the policy, `x` is evicted for it if
      and only if what is free and what goes before `x` is less than the newcomer needs. */
  lemma NewcomerEvicts(pool: PoolShape, order: seq<int>, before: Cache, x: int, s: int, tokens: nat, after: Cache,
                       outcome: Outcome)
    requires pool.size > 0 && AllTight(before.tables, pool.size) && Lists(order, before.tables)
    requires x in before.tables && before.tables[x].blocks != [] && s !in before.tables && outcome.Ok()
    requires Reserved(pool.size, pool.total, pool.policy, order + [s], before.tables[s := EMPTY], before.books, s,
                      tokens, after.tables, after.books, outcome)
    ensures var ts, all := before.tables[s := EMPTY], order + [s];
      && Known(all, ts) && Known(Eligible(all, ts, s), ts)
      && (x in outcome.preempted <==>
            |before.books.free| + Held(AheadOf(pool.policy, all, ts, Eligible(all, ts, s), x), ts)
              < CeilDiv(tokens, pool.size))
  {
    hide CeilDiv, Additional, Held, Eligible, AheadOf, Reserved, Distinct, Known, Lists, AllTight, Tight;
    var ts, all := before.tables[s := EMPTY], order + [s];
    EmptyTight(pool.size);
    AdditionalIsExact(EMPTY, tokens, pool.size);
    JoinsOrder(order, before.tables, s);
    EvictedExactly(pool.size, pool.total, pool.policy, all, ts, before.books, s, tokens, after.tables, after.books,
                   outcome, x);
  }

  lemma JoinsOrder(order: seq<int>, ts: Tables, s: int)
    requires Lists(order, ts) && s !in ts
    ensures Known(order + [s], ts[s := EMPTY]) && Distinct(order + [s])
    ensures forall x :: x in ts ==> x in order + [s]
  {
  }

  /** A new sequence is admitted right behind `x`, which holds blocks. Then `x` is evicted for it
      if and only if the newcomer needs more than is free. */
  lemma NewcomerDisplaces(pool: PoolShape, order: seq<int>, before: Cache, x: int, s: int, tokens: nat, after: Cache,
                          outcome: Outcome)
    requires pool.size > 0 && pool.policy == Newest && AllTight(before.tables, pool.size) && tokens > 0
    requires order != [] && x == order[|order| - 1] && Known(order, before.tables) && s !in before.tables
    requires before.tables[x].blocks != []
    requires Reserved(pool.size, pool.total, Newest, order + [s], before.tables[s := EMPTY], before.books, s, tokens,
                      after.tables, after.books, outcome)
    requires outcome.Ok()
    ensures x in outcome.preempted <==> CeilDiv(tokens, pool.size) > |before.books.free|
  {
    var ts, victims := before.tables[s := EMPTY], outcome.preempted;
    EmptyTight(pool.size);
    assert AllTight(ts, pool.size);
    AdditionalIsExact(EMPTY, tokens, pool.size);
    var needed := Additional(EMPTY, tokens, pool.size);
    assert needed == CeilDiv(tokens, pool.size);
    hide CeilDiv, Additional, TokensHeld, Taken, Tight, AllTight;
    hide Eligible, Emptied;
    if needed <= |before.books.free| {
      NothingMissing(victims, ts, needed - |before.books.free|);
    } else {
      NobodyHeld(ts);
      assert victims != [];
      assert Emptied(ts, []) == ts by { NobodyEmptied(ts); }
      assert victims[..0] == [];
      assert Chosen(Newest, order + [s], Emptied(ts, victims[..0]), s, Some(victims[0]));
      LastEligible(order, ts, x, s);
    }
  }

  lemma NobodyEmptied(ts: Tables)
    ensures Emptied(ts, []) == ts
  {
  }

  lemma LastEligible(order: seq<int>, ts: Tables, x: int, s: int)
    requires order != [] && x == order[|order| - 1] && Known(order + [s], ts) && x != s && x in ts && ts[x].blocks != []
    ensures var e := Eligible(order + [s], ts, s); e != [] && e[|e| - 1] == x
  {
    var front := order[..|order| - 1];
    var all := order + [s];
    assert all == front + ([x] + [s]);
    assert forall i :: 0 <= i < |front| ==> front[i] == all[i];
    assert all[|order| - 1] == x && all[|order|] == s;
    EligibleConcat(front, [x] + [s], ts, s);
    EligibleConcat([x], [s], ts, s);
  }

  /** A pool of three blocks, and two requests of two: the second is admitted at the cost of the
      first, which one admission pass may do before it prefills either. */
  lemma NewcomerLost(first: Cache, granted: Outcome, second: Cache, outcome: Outcome)
    requires Reserved(1, 3, Newest, [1], map[1 := EMPTY], Ledger([2, 1, 0], 0, 0), 1, 2, first.tables, first.books,
                      granted)
    requires 1 in first.tables && 2 !in first.tables
    requires Reserved(1, 3, Newest, [1, 2], first.tables[2 := EMPTY], first.books, 2, 2, second.tables, second.books,
                      outcome)
    ensures granted.Ok() && granted.preempted == [] && outcome.Ok() && outcome.preempted == [1]
  {
    var ts := map[1 := EMPTY];
    EmptyTight(1);
    assert AllTight(ts, 1);
    AdmissionIsExact(1, 3, Newest, [1], ts, Ledger([2, 1, 0], 0, 0), 1, 2, first.tables, first.books, granted);
    assert granted.preempted == [] by {
      NothingMissing(granted.preempted, ts, 2 - 3);
    }
    NobodyReleased(ts);
    assert first.tables.Keys == {1} && |first.tables[1].blocks| == 2 && |first.books.free| == 1;
    assert AllTight(first.tables[2 := EMPTY], 1);
    AdmissionIsExact(1, 3, Newest, [1, 2], first.tables[2 := EMPTY], first.books, 2, 2, second.tables, second.books,
                     outcome);
    assert [1] + [2] == [1, 2];
    NewcomerDisplaces(PoolShape(1, 3, Newest), [1], first, 1, 2, 2, second, outcome);
    assert forall v :: v in outcome.preempted ==> v == 1;
  }

  // ---------------------------------------------------------------------------
  // The two runs, on a manager.
  // ---------------------------------------------------------------------------

  /** What fits into the free blocks costs nobody and takes just those. */
  lemma GrantedFree(pool: PoolShape, order: seq<int>, ts: Tables, before: Ledger, s: int, tokens: nat, view: Tables,
                    now: Ledger, outcome: Outcome)
    requires pool.size > 0 && s in ts && CeilDiv(ts[s].tokens + tokens, pool.size) <= pool.total
    requires Reserved(pool.size, pool.total, pool.policy, order, ts, before, s, tokens, view, now, outcome)
    requires Additional(ts[s], tokens, pool.size) <= |before.free|
    ensures var needed := Additional(ts[s], tokens, pool.size);
      && outcome == Outcome(Admitted, [])
      && now == before.(free := before.free[..|before.free| - needed])
      && view == ts[s := Grown(ts[s], tokens, Taken(before.free, needed))]
  {
    var needed := Additional(ts[s], tokens, pool.size);
    hide CeilDiv, Additional, Held, Taken, Grown;
    NothingMissing(outcome.preempted, ts, needed - |before.free|);
    NobodyReleased(ts);
    NobodyEmptied(ts);
    assert before.free + [] == before.free;
  }

  /** A newcomer whose blocks are free starts at nobody's cost. */
  lemma NewcomerFits(pool: PoolShape, order: seq<int>, ts: Tables, before: Ledger, s: int, tokens: nat, asked: Cache,
                     outcome: Outcome)
    requires pool.size > 0 && CeilDiv(tokens, pool.size) <= |before.free| <= pool.total
    requires Reserved(pool.size, pool.total, pool.policy, order, ts[s := EMPTY], before, s, tokens, asked.tables,
                      asked.books, outcome)
    ensures outcome == Outcome(Admitted, [])
    ensures |asked.books.free| == |before.free| - CeilDiv(tokens, pool.size)
  {
    EmptyTight(pool.size);
    AdditionalIsExact(EMPTY, tokens, pool.size);
    hide CeilDiv, Additional, Tight, Reserved;
    GrantedFree(pool, order, ts[s := EMPTY], before, s, tokens, asked.tables, asked.books, outcome);
  }

  /** One more request of one token, with a block to spare. */
  method AdmitOne(manager: KVCacheManager, s: int, ghost ts: Tables, ghost order: seq<int>, ghost free: seq<nat>)
    requires manager.Valid() && PoolOf(manager) == PoolShape(1, 3, Newest) && s !in ts && free != []
    requires manager.View() == ts && manager.admissionOrder == order && manager.Books() == Ledger(free, 0, 0)
    modifies manager, manager.allocator
    ensures manager.Valid() && manager.admissionOrder == order + [s]
    ensures manager.View() == ts[s := Table(1, [free[|free| - 1]])]
    ensures manager.Books() == Ledger(free[..|free| - 1], 0, 0)
    ensures forall x :: x in manager.tables ==>
      fresh(manager.tables[x]) || (x in old(manager.tables) && manager.tables[x] == old(manager.tables[x]))
  {
    hide Reserved, KVCacheManager.Valid, RegisteredOrder, Registered;
    assert manager.View().Keys == manager.tables.Keys;
    var outcome := manager.Admit(s, 1);
    FreshlyAdmitted(ts, order, free, s, free[|free| - 1], manager.View(), manager.Books(), outcome);
  }

  function PoolOf(manager: KVCacheManager): PoolShape {
    PoolShape(manager.blockSize, manager.allocator.total, manager.policy)
  }

  /** Three requests of one token each, admitted into three blocks of one token. */
  method Crowd() returns (manager: KVCacheManager)
    ensures fresh(manager) && fresh(manager.allocator) && manager.Valid() && PoolOf(manager) == PoolShape(1, 3, Newest)
    ensures forall x :: x in manager.tables ==> fresh(manager.tables[x])
    ensures manager.admissionOrder == [1, 2, 3]
    ensures manager.View() == map[1 := Table(1, [0]), 2 := Table(1, [1]), 3 := Table(1, [2])]
    ensures manager.Books() == Ledger([], 0, 0)
  {
    hide Reserved, KVCacheManager.Valid;
    manager := new KVCacheManager(3, 1, Newest);
    assert manager.allocator.free == [2, 1, 0];
    assert manager.View().Keys == manager.tables.Keys;
    AdmitOne(manager, 1, map[], [], [2, 1, 0]);
    assert [2, 1, 0][..2] == [2, 1] && [] + [1] == [1];
    label second:
    AdmitOne(manager, 2, map[1 := Table(1, [0])], [1], [2, 1]);
    forall x | x in manager.tables ensures fresh(manager.tables[x]) {
      assert fresh@second(manager.tables[x]) || x in old@second(manager.tables);
    }
    assert [2, 1][..1] == [2] && [1] + [2] == [1, 2];
    label third:
    AdmitOne(manager, 3, map[1 := Table(1, [0]), 2 := Table(1, [1])], [1, 2], [2]);
    forall x | x in manager.tables ensures fresh(manager.tables[x]) {
      assert fresh@third(manager.tables[x]) || x in old@third(manager.tables);
    }
    assert [2][..0] == [] && [1, 2] + [3] == [1, 2, 3];
  }

  /** One extension as the scheduler makes it. */
  method ExtendOne(manager: KVCacheManager, s: int) returns (lost: seq<int>, ghost outcome: Outcome)
    requires manager.Valid() && s in manager.View()
    modifies manager, manager.allocator, set x | x in manager.tables :: manager.tables[x]
    ensures manager.Valid() && manager.admissionOrder == old(manager.admissionOrder)
    ensures manager.View().Keys == old(manager.View()).Keys && lost == Lost(s, outcome)
    ensures Extended(PoolOf(manager), manager.admissionOrder, old(Cache(manager.View(), manager.Books())), s,
                     Cache(manager.View(), manager.Books()), outcome)
    ensures forall x :: x in manager.tables ==>
      fresh(manager.tables[x]) || (x in old(manager.tables) && manager.tables[x] == old(manager.tables[x]))
  {
    hide Reserved, Accounted, AllTight;
    ghost var before := Cache(manager.View(), manager.Books());
    var answer := manager.Extend(s, 1);
    outcome := answer;
    ghost var after := Cache(manager.View(), manager.Books());
    OneCall(PoolOf(manager), manager.admissionOrder, before, s, after, answer);
    AnswerKnown(PoolOf(manager), manager.admissionOrder, before, s, after, answer);
    lost := if answer.Ok() then answer.preempted else [s];
  }

  lemma AnswerKnown(pool: PoolShape, order: seq<int>, before: Cache, s: int, after: Cache, outcome: Outcome)
    requires Extended(pool, order, before, s, after, outcome)
    ensures outcome.Outcome?
  {
  }

  /** The pass of extensions that follows: the newest goes, then the oldest. */
  method CrowdGrows() returns (casualties: seq<int>)
    ensures casualties == [3, 1]
  {
    hide KVCacheManager.Valid, Extended, GrowthPass, Lost;
    var manager := Crowd();
    ghost var pool, order := PoolShape(1, 3, Newest), [1, 2, 3];
    ghost var start := Cache(manager.View(), manager.Books());
    PassOfNone(pool, order, start);
    casualties := [];
    for i := 1 to 4
      invariant manager.Valid() && manager.admissionOrder == order && PoolOf(manager) == pool
      invariant fresh(manager) && fresh(manager.allocator)
      invariant forall x :: x in manager.tables ==> fresh(manager.tables[x])
      invariant manager.View().Keys == {1, 2, 3}
      invariant GrowthPass(pool, order, start, order[..i - 1], casualties, Cache(manager.View(), manager.Books()))
    {
      ghost var now, outcome := Cache(manager.View(), manager.Books()), UnknownSequence;
      label before:
      var lost;
      lost, outcome := ExtendOne(manager, i);
      forall x | x in manager.tables ensures fresh(manager.tables[x]) {
        assert fresh@before(manager.tables[x]) || x in old@before(manager.tables);
      }
      PassMore(pool, order, start, order[..i - 1], casualties, now, i, Cache(manager.View(), manager.Books()), outcome);
      assert order[..i] == order[..i - 1] + [i];
      casualties := casualties + lost;
    }
    assert order[..3] == order;
    OldestLost(casualties, Cache(manager.View(), manager.Books()));
  }

  lemma PassOfNone(pool: PoolShape, order: seq<int>, start: Cache)
    ensures GrowthPass(pool, order, start, [], [], start)
  {
  }

  /** Two requests of two tokens each, and a pool of three blocks: the second costs the first. */
  method TwoNewcomers() returns (preempted: seq<int>)
    ensures preempted == [1]
  {
    hide Reserved, KVCacheManager.Valid;
    var manager := new KVCacheManager(3, 1, Newest);
    assert manager.allocator.free == [2, 1, 0];
    assert manager.View().Keys == manager.tables.Keys;
    var granted := manager.Admit(1, 2);
    assert map[][1 := EMPTY] == map[1 := EMPTY] && [] + [1] == [1];
    ghost var first := Cache(manager.View(), manager.Books());
    FirstAdmitted(first, granted);
    assert manager.View().Keys == manager.tables.Keys;
    var outcome := manager.Admit(2, 2);
    assert [1] + [2] == [1, 2];
    NewcomerLost(first, granted, Cache(manager.View(), manager.Books()), outcome);
    return outcome.preempted;
  }

  /** A newcomer whose estimate is zero, on any manager: it is admitted without becoming known, so that
      its first extension meets an unknown sequence. */
  method AdmitZero(manager: KVCacheManager, s: int) returns (admitted: Outcome, extended: Outcome)
    requires manager.Valid() && s !in manager.View()
    modifies manager, manager.allocator
    ensures admitted == Outcome(Admitted, []) && extended == UnknownSequence
    ensures manager.Valid() && manager.View() == old(manager.View()) && manager.Books() == old(manager.Books())
    ensures manager.admissionOrder == old(manager.admissionOrder)
  {
    hide Reserved, KVCacheManager.Valid;
    assert manager.View().Keys == manager.tables.Keys;
    admitted := manager.Admit(s, 0);
    assert manager.View().Keys == manager.tables.Keys;
    extended := manager.Extend(s, 1);
  }

  lemma FirstAdmitted(first: Cache, granted: Outcome)
    requires Reserved(1, 3, Newest, [1], map[1 := EMPTY], Ledger([2, 1, 0], 0, 0), 1, 2, first.tables, first.books,
                      granted)
    ensures first.tables.Keys == {1}
  {
    EmptyTight(1);
    assert AllTight(map[1 := EMPTY], 1);
    AdmissionIsExact(1, 3, Newest, [1], map[1 := EMPTY], Ledger([2, 1, 0], 0, 0), 1, 2, first.tables, first.books,
                     granted);
  }

  lemma FreshlyAdmitted(ts: Tables, order: seq<int>, free: seq<nat>, s: int, top: nat, view: Tables, now: Ledger,
                        outcome: Outcome)
    requires s !in ts && free != [] && free[|free| - 1] == top
    requires Reserved(1, 3, Newest, RegisteredOrder(order, ts, s), Registered(ts, s), Ledger(free, 0, 0), s, 1, view,
                      now, outcome)
    ensures view == ts[s := Table(1, [top])] && now == Ledger(free[..|free| - 1], 0, 0)
    ensures outcome == Outcome(Admitted, []) && RegisteredOrder(order, ts, s) == order + [s]
  {
    GrantedFree(PoolShape(1, 3, Newest), RegisteredOrder(order, ts, s), Registered(ts, s), Ledger(free, 0, 0), s, 1,
                view, now, outcome);
    assert Taken(free, 1) == [top] && [] + [top] == [top];
    assert ts[s := EMPTY][s := Table(1, [top])] == ts[s := Table(1, [top])];
  }
}
