/** Newest first, over a whole pass of extensions: exactly when the oldest sequence is lost. */
module SchedulerOldest {
  import opened BlockTables
  import opened Common
  import opened KvCache
  import opened KvCacheTheorems
  import opened SchedulerGrowth

  lemma {:induction false} AscendingWithout(order: seq<int>, s: int)
    requires Ascending(order)
    ensures Ascending(Without(order, s))
  {
    if order == [] {
    } else {
      var rest := Without(order[1..], s);
      AscendingWithout(order[1..], s);
      forall j | 0 <= j < |rest| ensures order[0] < rest[j] {
        assert rest[j] in rest;
        var i :| 0 <= i < |order| - 1 && order[1..][i] == rest[j];
        assert order[i + 1] == rest[j];
      }
    }
  }

  /** Sequences are admitted under growing ids. */
  lemma AscendingMore(m: KVCacheManager, id: int)
    requires m.Valid() && Ascending(m.admissionOrder) && forall s :: s in m.View() ==> s < id
    ensures Ascending(m.admissionOrder + [id])
  {
    OrderKnown(m.allocator.free, m.allocator.references, m.admissionOrder, m.View(), m.allocator.total);
    hide KVCacheManager.Valid;
    assert forall i :: 0 <= i < |m.admissionOrder| ==> m.admissionOrder[i] in m.View();
  }

  lemma NobodyInOrder(m: KVCacheManager)
    requires m.Valid() && m.View() == map[]
    ensures m.admissionOrder == []
  {
    OrderKnown(m.allocator.free, m.allocator.references, m.admissionOrder, m.View(), m.allocator.total);
  }

  function Blocks(c: Cache, x: int): nat {
    if x in c.tables then |c.tables[x].blocks| else 0
  }

  /** A cache that evicts newest first, ids handed out in order, with no block missing. */
  ghost predicate Level(pool: PoolShape, order: seq<int>, c: Cache) {
    && pool.size > 0 && pool.policy == Newest && AllTight(c.tables, pool.size)
    && Ascending(order) && Lists(order, c.tables) && |c.books.free| + Held(order, c.tables) == pool.total
  }

  // ---------------------------------------------------------------------------
  // One call.
  // ---------------------------------------------------------------------------

  lemma {:induction false} EligibleAscending(order: seq<int>, ts: Tables, s: int)
    requires Ascending(order) && Known(order, ts)
    ensures Ascending(Eligible(order, ts, s))
  {
    if order == [] {
    } else {
      var rest := Eligible(order[1..], ts, s);
      EligibleAscending(order[1..], ts, s);
      forall j | 0 <= j < |rest| ensures order[0] < rest[j] {
        assert rest[j] in rest;
        var i :| 0 <= i < |order| - 1 && order[1..][i] == rest[j];
        assert order[i + 1] == rest[j];
      }
    }
  }

  /** The last eligible victim is the newest of the other holders. */
  lemma NewestHolder(order: seq<int>, ts: Tables, s: int, y: int)
    requires Ascending(order) && Lists(order, ts) && y in ts && y != s && ts[y].blocks != []
    ensures var e := Eligible(order, ts, s);
      && e != [] && e[|e| - 1] in ts && e[|e| - 1] != s && ts[e[|e| - 1]].blocks != []
      && forall z :: z in ts && z != s && ts[z].blocks != [] ==> z <= e[|e| - 1]
  {
    var e := Eligible(order, ts, s);
    EligibleAscending(order, ts, s);
    hide Eligible, Distinct;
    assert y in e;
    var n := |e| - 1;
    assert e[n] in e;
    forall z | z in ts && z != s && ts[z].blocks != [] ensures z <= e[n] {
      assert z in e;
      var k :| 0 <= k < |e| && e[k] == z;
    }
  }

  lemma {:induction false} HeldSame(order: seq<int>, ts: Tables, us: Tables)
    requires Known(order, ts) && Known(order, us)
    requires forall i :: 0 <= i < |order| ==> ts[order[i]] == us[order[i]]
    ensures Held(order, ts) == Held(order, us)
  {
    if order == [] {
    } else {
      HeldSame(order[1..], ts, us);
    }
  }

  lemma {:induction false} HeldUpdate(order: seq<int>, ts: Tables, s: int, t: Table)
    requires Distinct(order) && s in order && Known(order, ts) && Known(order, ts[s := t])
    ensures Held(order, ts[s := t]) == Held(order, ts) - |ts[s].blocks| + |t.blocks|
  {
    if order[0] == s {
      HeldSame(order[1..], ts, ts[s := t]);
    } else {
      HeldUpdate(order[1..], ts, s, t);
    }
  }

  /** Two holders and the free blocks fit the pool side by side. */
  lemma PairFits(order: seq<int>, ts: Tables, a: int, b: int)
    requires Lists(order, ts) && a in ts && b in ts && a != b
    ensures |ts[a].blocks| + |ts[b].blocks| <= Held(order, ts)
  {
    OwnedPair(order, ts, a, b);
    OwnedSize(order, ts);
    var both := multiset(ts[a].blocks) + multiset(ts[b].blocks);
    assert Owned(order, ts) == both + (Owned(order, ts) - both);
  }

  /** One more token needs one more block at most. */
  lemma OneAtMost(t: Table, size: nat)
    requires size > 0 && Tight(t, size)
    ensures Additional(t, 1, size) <= 1
  {
    AdditionalIsExact(t, 0, size);
    CeilDivUnique(1, size, 1);
    CeilDivBounds(t.tokens, size);
    hide CeilDiv;
    var capacity := |t.blocks| * size;
    assert t.tokens <= capacity;
  }

  /** Who the one victim of a call is: the newest of the other holders. */
  ghost predicate NewestOther(c: Cache, s: int, v: int) {
    && v in c.tables && v != s && Blocks(c, v) > 0
    && forall z :: z in c.tables && z != s && Blocks(c, z) > 0 ==> z <= v
  }

  /** What one call does when another holder is about. */
  ghost predicate Granted(before: Cache, s: int, needed: nat, after: Cache, lost: seq<int>) {
    && needed <= 1 && |lost| <= 1 && s in before.tables && after.tables.Keys == before.tables.Keys
    && Blocks(after, s) == Blocks(before, s) + needed && Blocks(after, s) > 0
    && (lost == [] <==> needed <= |before.books.free|)
    && (lost == [] ==> |after.books.free| == |before.books.free| - needed)
    && (lost != [] ==>
          && NewestOther(before, s, lost[0]) && after.tables[lost[0]] == EMPTY && needed == 1
          && |before.books.free| == 0 && |after.books.free| == Blocks(before, lost[0]) - 1)
    && forall x :: x in before.tables && x != s && (lost == [] || x != lost[0]) ==> after.tables[x] == before.tables[x]
  }

  lemma GrantedFacts(before: Cache, s: int, needed: nat, after: Cache, lost: seq<int>)
    requires Granted(before, s, needed, after, lost)
    ensures needed <= 1 && after.tables.Keys == before.tables.Keys && Blocks(after, s) > 0
  {
  }

  /** One extension with another holder about: it is granted, at no cost if the block it may need
      is free, and else at the cost of the newest other holder alone. */
  lemma OneGrowth(pool: PoolShape, order: seq<int>, before: Cache, s: int, after: Cache, outcome: Outcome, y: int)
    requires Level(pool, order, before) && Extended(pool, order, before, s, after, outcome)
    requires y in before.tables && y != s && Blocks(before, y) > 0
    ensures Granted(before, s, Additional(before.tables[s], 1, pool.size), after, Lost(s, outcome))
    ensures Level(pool, order, after)
  {
    hide Level, Reserved, AllTight, Additional, Granted, NewestOther;
    var needed := Additional(before.tables[s], 1, pool.size);
    GrantedGrowth(pool, order, before, s, after, outcome, y);
    GrantedCost(pool, order, before, s, after, outcome, y);
    GrantedBy(before, s, needed, after, Lost(s, outcome));
    StaysLevel(pool, order, before, s, needed, after, Lost(s, outcome));
  }

  /** The call is granted, since the caller and the other holder fit the pool together. */
  lemma GrantedGrowth(pool: PoolShape, order: seq<int>, before: Cache, s: int, after: Cache, outcome: Outcome, y: int)
    requires Level(pool, order, before) && Extended(pool, order, before, s, after, outcome)
    requires y in before.tables && y != s && Blocks(before, y) > 0
    ensures outcome.Ok() && Additional(before.tables[s], 1, pool.size) <= 1
    ensures Blocks(after, s) == Blocks(before, s) + Additional(before.tables[s], 1, pool.size) && Blocks(after, s) > 0
    ensures after.tables.Keys == before.tables.Keys && AllTight(after.tables, pool.size)
    ensures forall x :: x in before.tables && x != s ==>
      after.tables[x] == if x in outcome.preempted then EMPTY else before.tables[x]
  {
    var ts := before.tables;
    TightAt(ts, s, pool.size);
    OneAtMost(ts[s], pool.size);
    PairFits(order, ts, s, y);
    AdditionalIsExact(ts[s], 1, pool.size);
    CeilDivBounds(ts[s].tokens + 1, pool.size);
    CallTight(pool, order, before, s, after, outcome);
    AdmissionIsExact(pool.size, pool.total, Newest, order, ts, before.books, s, 1, after.tables, after.books, outcome);
    hide CeilDiv, Additional, Tight, AllTight, Reserved, Held, Lists, Ascending;
  }

  /** It costs nobody, or the newest other holder. */
  lemma GrantedCost(pool: PoolShape, order: seq<int>, before: Cache, s: int, after: Cache, outcome: Outcome, y: int)
    requires Level(pool, order, before) && Extended(pool, order, before, s, after, outcome) && outcome.Ok()
    requires y in before.tables && y != s && Blocks(before, y) > 0
    requires Additional(before.tables[s], 1, pool.size) <= 1
    ensures var needed, lost := Additional(before.tables[s], 1, pool.size), Lost(s, outcome);
      && lost == outcome.preempted && |lost| <= 1
      && (lost == [] <==> needed <= |before.books.free|)
      && (lost == [] ==> |after.books.free| == |before.books.free| - needed)
      && (lost != [] ==> NewestOther(before, s, lost[0]))
      && (lost != [] ==> |before.books.free| == 0 && |after.books.free| == Blocks(before, lost[0]) - 1)
  {
    hide CeilDiv, Additional, Tight, AllTight, Reserved, Eligible, Held;
    NewestHolder(order, before.tables, s, y);
    OneCall(pool, order, before, s, after, outcome);
    RoomBeside(order, before.tables, s);
    if Additional(before.tables[s], 1, pool.size) > |before.books.free| {
      NewestGives(pool, order, before, s, after, outcome);
    }
  }

  lemma RoomBeside(order: seq<int>, ts: Tables, s: int)
    requires Lists(order, ts) && s in ts
    ensures |ts[s].blocks| <= Held(order, ts)
  {
    OwnedUpdate(order, ts, s, EMPTY);
    OwnedSize(order, ts);
    assert Owned(order, ts) == multiset(ts[s].blocks) + (Owned(order, ts) - multiset(ts[s].blocks));
  }

  lemma GrantedBy(before: Cache, s: int, needed: nat, after: Cache, lost: seq<int>)
    requires needed <= 1 && |lost| <= 1 && s in before.tables && after.tables.Keys == before.tables.Keys
    requires Blocks(after, s) == Blocks(before, s) + needed && Blocks(after, s) > 0
    requires lost == [] <==> needed <= |before.books.free|
    requires lost == [] ==> |after.books.free| == |before.books.free| - needed
    requires lost != [] ==> NewestOther(before, s, lost[0]) && |before.books.free| == 0
    requires lost != [] ==> |after.books.free| == Blocks(before, lost[0]) - 1
    requires forall x :: x in before.tables && x != s ==>
      after.tables[x] == if x in lost then EMPTY else before.tables[x]
    ensures Granted(before, s, needed, after, lost)
  {
  }

  lemma StaysLevel(pool: PoolShape, order: seq<int>, before: Cache, s: int, needed: nat, after: Cache, lost: seq<int>)
    requires Level(pool, order, before) && Granted(before, s, needed, after, lost) && AllTight(after.tables, pool.size)
    ensures Level(pool, order, after)
  {
    HeldGrown(order, before.tables, s, after.tables, lost);
    hide Held, AllTight;
  }

  lemma HeldGrown(order: seq<int>, ts: Tables, s: int, us: Tables, lost: seq<int>)
    requires Lists(order, ts) && s in ts && us.Keys == ts.Keys && |lost| <= 1
    requires lost != [] ==> lost[0] in ts && lost[0] != s && us[lost[0]] == EMPTY
    requires forall x :: x in ts && x != s && (lost == [] || x != lost[0]) ==> us[x] == ts[x]
    ensures Lists(order, us)
    ensures Held(order, us) ==
      Held(order, ts) - |ts[s].blocks| + |us[s].blocks| - if lost == [] then 0 else |ts[lost[0]].blocks|
  {
    hide Held, Lists, Distinct;
    KnownToo(order, ts, us);
    var emptied := if lost == [] then ts else ts[lost[0] := EMPTY];
    assert us == emptied[s := us[s]] by {
      assert us.Keys == emptied[s := us[s]].Keys;
      assert forall x :: x in us ==> us[x] == emptied[s := us[s]][x];
    }
    if lost == [] {
      HeldUpdate(order, ts, s, us[s]);
    } else {
      KnownToo(order, ts, emptied);
      HeldUpdate(order, ts, lost[0], EMPTY);
      HeldUpdate(order, emptied, s, us[s]);
    }
  }

  lemma KnownToo(order: seq<int>, ts: Tables, us: Tables)
    requires Lists(order, ts) && us.Keys == ts.Keys
    ensures Lists(order, us) && Known(order, us) && Known(order, ts) && Distinct(order)
    ensures forall x :: x in ts ==> x in order
  {
  }

  // ---------------------------------------------------------------------------
  // The pass.
  // ---------------------------------------------------------------------------

  /** What a pass starts from: exactly `ids`, oldest first, hold blocks. */
  ghost predicate Stage(pool: PoolShape, order: seq<int>, start: Cache, ids: seq<int>) {
    && Level(pool, order, start) && Ascending(ids) && Known(ids, start.tables)
    && forall x :: x in start.tables ==> (Blocks(start, x) > 0 <==> x in ids)
  }

  lemma StageFacts(pool: PoolShape, order: seq<int>, start: Cache, ids: seq<int>)
    requires Stage(pool, order, start, ids)
    ensures pool.size > 0 && Level(pool, order, start) && Ascending(ids) && Known(ids, start.tables)
    ensures forall i :: 0 <= i < |ids| ==> ids[i] in start.tables && Blocks(start, ids[i]) > 0
    ensures forall i, j :: 0 <= i < j < |ids| ==> ids[i] != ids[j]
  {
    assert forall i :: 0 <= i < |ids| ==> ids[i] in ids;
  }

  /** When the oldest of `ids` is lost: alone, when it cannot grow; of two, when the second finds no
      block but its own; of three, when its own growth and the second one's use up the third's
      only block. Never of four or more. */
  predicate OldestGoes(ids: seq<int>, ts: Tables, size: nat, free: nat)
    requires size > 0 && Known(ids, ts)
  {
    match |ids|
    case 1 => Additional(ts[ids[0]], 1, size) > free
    case 2 =>
      var first := Additional(ts[ids[0]], 1, size);
      if first <= free then Additional(ts[ids[1]], 1, size) > free - first else |ts[ids[1]].blocks| == 1
    case 3 =>
      && Additional(ts[ids[0]], 1, size) > free && Additional(ts[ids[1]], 1, size) == 1
      && |ts[ids[2]].blocks| == 1
    case _ => false
  }

  /** The only holder can neither evict anybody nor have more than the pool. */
  lemma LoneCall(pool: PoolShape, order: seq<int>, start: Cache, s: int, after: Cache, outcome: Outcome)
    requires Stage(pool, order, start, [s]) && Extended(pool, order, start, s, after, outcome)
    ensures s in Lost(s, outcome) <==> Additional(start.tables[s], 1, pool.size) > |start.books.free|
  {
    var ts := start.tables;
    assert s in [s] && forall x :: x in [s] ==> x == s;
    TightAt(ts, s, pool.size);
    AdditionalIsExact(ts[s], 1, pool.size);
    OneAtMost(ts[s], pool.size);
    AdmissionIsExact(pool.size, pool.total, Newest, order, ts, start.books, s, 1, after.tables, after.books, outcome);
    NoneEligible(order, ts, s);
    NothingToReclaim(order, ts, s);
    OthersHold(order, ts, s);
    hide CeilDiv, Additional, Tight, AllTight, Extended, Eligible, Held, HeldByOthers;
  }

  lemma FirstTwo(pool: PoolShape, order: seq<int>, start: Cache, ids: seq<int>, casualties: seq<int>, after: Cache)
    returns (m: Cache, o1: Outcome, o2: Outcome)
    requires |ids| >= 2 && GrowthPass(pool, order, start, ids[..2], casualties, after)
    ensures Extended(pool, order, start, ids[0], m, o1) && Extended(pool, order, m, ids[1], after, o2)
    ensures casualties == Lost(ids[0], o1) + Lost(ids[1], o2)
  {
    hide Extended, Lost, GrowthPass;
    assert ids[..2] == [ids[0]] + [ids[1]] && [ids[0]] == [] + [ids[0]];
    var c1, m1, o := LastCall(pool, order, start, [ids[0]], ids[1], casualties, after);
    var c0, m0, p := LastCall(pool, order, start, [], ids[0], c1, m1);
    NoCalls(pool, order, start, c0, m0);
    assert [] + Lost(ids[0], p) == Lost(ids[0], p);
    return m1, p, o;
  }

  /** The first call evicts the newest of all, if anybody. */
  lemma FirstVictim(pool: PoolShape, order: seq<int>, start: Cache, ids: seq<int>, m: Cache, lost: seq<int>)
    requires Stage(pool, order, start, ids) && |ids| >= 2
    requires pool.size > 0 && ids[0] in start.tables
    requires Granted(start, ids[0], Additional(start.tables[ids[0]], 1, pool.size), m, lost)
    ensures Known(ids, m.tables) && Blocks(m, ids[0]) > 0
    ensures lost == [] || lost == [ids[|ids| - 1]]
    ensures forall i :: 0 < i < |ids| && (lost == [] || i < |ids| - 1) ==> m.tables[ids[i]] == start.tables[ids[i]]
    ensures forall x :: x in m.tables && Blocks(m, x) > 0 ==> x in ids
  {
    hide Level, Additional;
    var last := ids[|ids| - 1];
    assert last in ids && Blocks(start, last) > 0;
    if lost != [] {
      assert lost[0] in ids;
      assert lost == [lost[0]];
    }
  }

  /** The second call evicts the newest of all but itself, so the oldest only if nobody else is left. */
  lemma SecondVictim(ids: seq<int>, m: Cache, needed: nat, after: Cache, lost: seq<int>)
    requires |ids| >= 2 && Ascending(ids) && Granted(m, ids[1], needed, after, lost)
    requires ids[0] in m.tables && Blocks(m, ids[0]) > 0
    requires forall x :: x in m.tables && Blocks(m, x) > 0 ==> x in ids
    ensures ids[0] in lost <==>
      needed > |m.books.free| && forall i :: 2 <= i < |ids| ==> Blocks(m, ids[i]) == 0
    ensures ids[0] !in lost ==> Blocks(after, ids[0]) > 0
  {
    if lost != [] {
      var v := lost[0];
      assert lost == [v] && v in ids;
      if i :| 2 <= i < |ids| && Blocks(m, ids[i]) > 0 {
        assert ids[i] in m.tables && v >= ids[i] > ids[0];
      } else {
        var j :| 0 <= j < |ids| && ids[j] == v;
        assert j == 0;
      }
    }
  }

  /** The first two calls decide. */
  lemma TwoCalls(pool: PoolShape, order: seq<int>, start: Cache, ids: seq<int>, casualties: seq<int>, after: Cache)
    requires Stage(pool, order, start, ids) && |ids| >= 2
    requires GrowthPass(pool, order, start, ids[..2], casualties, after)
    ensures ids[0] in casualties <==> OldestGoes(ids, start.tables, pool.size, |start.books.free|)
    ensures ids[0] !in casualties ==> Between(pool, order, start, ids, 2, after)
  {
    hide Extended, GrowthPass, Additional, Level, Lost, Stage, Granted, OldestGoes, Ascending, Blocks;
    StageFacts(pool, order, start, ids);
    var size := pool.size;
    var m, o1, o2 := FirstTwo(pool, order, start, ids, casualties, after);
    OneGrowth(pool, order, start, ids[0], m, o1, ids[1]);
    var lost := Lost(ids[0], o1);
    FirstVictim(pool, order, start, ids, m, lost);
    OneGrowth(pool, order, m, ids[1], after, o2, ids[0]);
    var needed := Additional(m.tables[ids[1]], 1, size);
    GrantedFacts(start, ids[0], Additional(start.tables[ids[0]], 1, size), m, lost);
    GrantedFacts(m, ids[1], needed, after, Lost(ids[1], o2));
    SecondVictim(ids, m, needed, after, Lost(ids[1], o2));
    Decided(pool, order, start, ids, m, lost, needed);
  }

  /** What the two calls found, in terms of the state before them. */
  lemma Decided(pool: PoolShape, order: seq<int>, start: Cache, ids: seq<int>, m: Cache, lost: seq<int>, needed: nat)
    requires Stage(pool, order, start, ids) && |ids| >= 2 && Known(ids, m.tables) && pool.size > 0
    requires Known(ids, start.tables) && Granted(start, ids[0], Additional(start.tables[ids[0]], 1, pool.size), m, lost)
    requires lost == [] || lost == [ids[|ids| - 1]]
    requires forall i :: 0 < i < |ids| && (lost == [] || i < |ids| - 1) ==> m.tables[ids[i]] == start.tables[ids[i]]
    requires needed == Additional(m.tables[ids[1]], 1, pool.size) && needed <= 1
    ensures OldestGoes(ids, start.tables, pool.size, |start.books.free|) <==>
      needed > |m.books.free| && forall i :: 2 <= i < |ids| ==> Blocks(m, ids[i]) == 0
  {
    CeilDivUnique(1, pool.size, 1);
    assert Additional(EMPTY, 1, pool.size) == 1;
    hide Additional, Level;
    assert forall i :: 0 <= i < |ids| ==> ids[i] in ids;
    if |ids| > 3 {
      assert Blocks(m, ids[2]) > 0;
    } else if |ids| == 3 {
      assert (forall i :: 2 <= i < |ids| ==> Blocks(m, ids[i]) == 0) <==> Blocks(m, ids[2]) == 0;
    }
  }

  /** From the second call on the oldest and the last caller hold blocks. */
  ghost predicate Between(pool: PoolShape, order: seq<int>, start: Cache, ids: seq<int>, k: nat, now: Cache)
    requires 2 <= k <= |ids|
  {
    && Level(pool, order, now) && now.tables.Keys == start.tables.Keys
    && Blocks(now, ids[0]) > 0 && Blocks(now, ids[k - 1]) > 0
  }

  /** After that the last caller stands between the oldest and eviction. */
  lemma OneMore(pool: PoolShape, order: seq<int>, start: Cache, ids: seq<int>, k: nat, middle: Cache, after: Cache,
                outcome: Outcome)
    requires Ascending(ids) && 2 < k <= |ids| && Between(pool, order, start, ids, k - 1, middle)
    requires Extended(pool, order, middle, ids[k - 1], after, outcome)
    ensures ids[0] !in Lost(ids[k - 1], outcome) && Between(pool, order, start, ids, k, after)
  {
    hide Level, Extended, Additional, Lost;
    OneGrowth(pool, order, middle, ids[k - 1], after, outcome, ids[k - 2]);
  }

  lemma {:induction false} Later(pool: PoolShape, order: seq<int>, start: Cache, ids: seq<int>, k: nat,
                                 casualties: seq<int>, after: Cache)
    requires Stage(pool, order, start, ids) && 2 <= k <= |ids|
    requires GrowthPass(pool, order, start, ids[..k], casualties, after)
    ensures ids[0] in casualties <==> OldestGoes(ids, start.tables, pool.size, |start.books.free|)
    ensures ids[0] !in casualties ==> Between(pool, order, start, ids, k, after)
    decreases k
  {
    hide Level, Extended, GrowthPass, Additional, OldestGoes, Between, Lost;
    if k == 2 {
      TwoCalls(pool, order, start, ids, casualties, after);
    } else {
      var s := ids[k - 1];
      assert ids[..k] == ids[..k - 1] + [s];
      var earlier, middle, outcome := LastCall(pool, order, start, ids[..k - 1], s, casualties, after);
      Later(pool, order, start, ids, k - 1, earlier, middle);
      if ids[0] !in earlier {
        OneMore(pool, order, start, ids, k, middle, after, outcome);
      }
    }
  }

  /** Exactly when a pass of extensions loses the oldest sequence. */
  lemma OldestLostExactly(pool: PoolShape, order: seq<int>, start: Cache, ids: seq<int>, casualties: seq<int>,
                          after: Cache)
    requires Stage(pool, order, start, ids) && ids != [] && GrowthPass(pool, order, start, ids, casualties, after)
    ensures ids[0] in casualties <==> OldestGoes(ids, start.tables, pool.size, |start.books.free|)
  {
    hide Extended, Lost, Additional, GrowthPass, Level, OldestGoes, Stage;
    if |ids| == 1 {
      AlonePass(pool, order, start, ids, casualties, after);
    } else {
      assert ids[..|ids|] == ids;
      Later(pool, order, start, ids, |ids|, casualties, after);
    }
  }

  lemma AlonePass(pool: PoolShape, order: seq<int>, start: Cache, ids: seq<int>, casualties: seq<int>, after: Cache)
    requires Stage(pool, order, start, ids) && |ids| == 1 && GrowthPass(pool, order, start, ids, casualties, after)
    ensures pool.size > 0 && Known(ids, start.tables)
    ensures ids[0] in casualties <==> OldestGoes(ids, start.tables, pool.size, |start.books.free|)
  {
    StageFacts(pool, order, start, ids);
    hide Extended, Lost, Additional, GrowthPass, Level, OldestGoes, Stage;
    assert ids == [ids[0]] && ids == [] + [ids[0]];
    var earlier, middle, outcome := LastCall(pool, order, start, [], ids[0], casualties, after);
    NoCalls(pool, order, start, earlier, middle);
    LoneCall(pool, order, start, ids[0], after, outcome);
    AloneGoes(ids, start.tables, pool.size, |start.books.free|);
    assert [] + Lost(ids[0], outcome) == Lost(ids[0], outcome);
  }

  /** Of four or more the oldest is safe, however little is free. */
  lemma FourSpareTheOldest(pool: PoolShape, order: seq<int>, start: Cache, ids: seq<int>, casualties: seq<int>,
                           after: Cache)
    requires Stage(pool, order, start, ids) && |ids| >= 4 && GrowthPass(pool, order, start, ids, casualties, after)
    ensures ids[0] !in casualties
  {
    OldestLostExactly(pool, order, start, ids, casualties, after);
    StageFacts(pool, order, start, ids);
  }

  lemma AloneGoes(ids: seq<int>, ts: Tables, size: nat, free: nat)
    requires size > 0 && Known(ids, ts) && |ids| == 1
    ensures OldestGoes(ids, ts, size, free) <==> Additional(ts[ids[0]], 1, size) > free
  {
  }
}
