/** Block tables as values: who owns which block, what a request needs, and
    which sequences an eviction policy must choose.
 */
module BlockTables {
  import opened Common

  /** One sequence's tokens and the physical blocks holding them, in logical order. */
  datatype Table = Table(tokens: nat, blocks: seq<nat>)

  const EMPTY: Table := Table(0, [])

  type Tables = map<int, Table>

  datatype Policy = Newest | Largest

  ghost predicate Known(order: seq<int>, ts: Tables) {
    forall i :: 0 <= i < |order| ==> order[i] in ts
  }

  /** Exactly the sequences of `order` have a table. */
  ghost predicate Lists(order: seq<int>, ts: Tables) {
    Distinct(order) && Known(order, ts) && forall s :: s in ts ==> s in order
  }

  /** Every slot of every table, with multiplicity. */
  ghost function Owned(order: seq<int>, ts: Tables): multiset<nat>
    requires Known(order, ts)
  {
    if order == [] then multiset{}
    else multiset(ts[order[0]].blocks) + Owned(order[1..], ts)
  }

  /** Every block of the pool, once. */
  ghost function Pool(total: nat): (r: multiset<nat>)
    ensures forall b: nat :: r[b] == if b < total then 1 else 0
    ensures |r| == total
  {
    if total == 0 then multiset{} else Pool(total - 1) + multiset{total - 1}
  }

  lemma {:induction false} OwnedSame(order: seq<int>, ts: Tables, us: Tables)
    requires Known(order, ts) && Known(order, us)
    requires forall i :: 0 <= i < |order| ==> ts[order[i]] == us[order[i]]
    ensures Owned(order, ts) == Owned(order, us)
  {
    if order == [] {
    } else {
      OwnedSame(order[1..], ts, us);
    }
  }

  lemma {:induction false} OwnedUpdate(order: seq<int>, ts: Tables, s: int, t: Table)
    requires Distinct(order) && s in order && Known(order, ts)
    ensures multiset(ts[s].blocks) <= Owned(order, ts)
    ensures Owned(order, ts[s := t]) == Owned(order, ts) - multiset(ts[s].blocks) + multiset(t.blocks)
  {
    if order[0] == s {
      OwnedSame(order[1..], ts, ts[s := t]);
    } else {
      OwnedUpdate(order[1..], ts, s, t);
    }
  }

  lemma {:induction false} OwnedConcat(a: seq<int>, b: seq<int>, ts: Tables)
    requires Known(a, ts) && Known(b, ts)
    ensures Owned(a + b, ts) == Owned(a, ts) + Owned(b, ts)
  {
    if a == [] {
      assert a + b == b;
    } else {
      OwnedConcat(a[1..], b, ts);
      assert (a + b)[1..] == a[1..] + b;
    }
  }

  lemma OwnedAdmit(order: seq<int>, ts: Tables, s: int)
    requires Lists(order, ts) && s !in ts
    ensures Lists(order + [s], ts[s := EMPTY])
    ensures Owned(order + [s], ts[s := EMPTY]) == Owned(order, ts)
  {
    AdmitLists(order, ts, s);
    OwnedNone(ts[s := EMPTY], s);
    hide Owned, Lists;
    OwnedConcat(order, [s], ts[s := EMPTY]);
    OwnedSame(order, ts, ts[s := EMPTY]);
  }

  lemma OwnedNone(ts: Tables, s: int)
    requires s in ts && ts[s] == EMPTY
    ensures Owned([s], ts) == multiset{}
  {
  }

  lemma AdmitLists(order: seq<int>, ts: Tables, s: int)
    requires Lists(order, ts) && s !in ts
    ensures Lists(order + [s], ts[s := EMPTY])
    ensures Known(order, ts) && Known(order, ts[s := EMPTY]) && Known([s], ts[s := EMPTY])
    ensures forall i :: 0 <= i < |order| ==> ts[order[i]] == ts[s := EMPTY][order[i]]
  {
    assert (order + [s])[|order|] == s;
    assert forall x :: x in order ==> x in order + [s];
  }

  function Without(order: seq<int>, s: int): (r: seq<int>)
    ensures forall x :: x in r <==> x in order && x != s
    ensures Distinct(order) ==> Distinct(r)
  {
    if order == [] then []
    else
      assert order == [order[0]] + order[1..];
      var rest := Without(order[1..], s);
      assert Distinct(order) ==> order[0] !in order[1..] && order[0] !in rest;
      if order[0] == s then rest else [order[0]] + rest
  }

  lemma {:induction false} WithoutAbsent(order: seq<int>, s: int)
    requires s !in order
    ensures Without(order, s) == order
  {
    if order == [] {
    } else {
      WithoutAbsent(order[1..], s);
    }
  }

  lemma {:induction false} OwnedRelease(order: seq<int>, ts: Tables, s: int)
    requires Distinct(order) && s in order && Known(order, ts)
    ensures Known(Without(order, s), ts - {s})
    ensures Owned(Without(order, s), ts - {s}) == Owned(order, ts) - multiset(ts[s].blocks)
    ensures multiset(ts[s].blocks) <= Owned(order, ts)
  {
    forall i | 0 <= i < |Without(order, s)| ensures Without(order, s)[i] in ts - {s} {
      assert Without(order, s)[i] in Without(order, s);
    }
    if order[0] == s {
      WithoutAbsent(order[1..], s);
      OwnedSame(order[1..], ts, ts - {s});
    } else {
      OwnedRelease(order[1..], ts, s);
    }
  }

  /** Blocks held by a list of sequences. */
  function Held(order: seq<int>, ts: Tables): nat
    requires Known(order, ts)
  {
    if order == [] then 0 else |ts[order[0]].blocks| + Held(order[1..], ts)
  }

  lemma {:induction false} OwnedSize(order: seq<int>, ts: Tables)
    requires Known(order, ts)
    ensures |Owned(order, ts)| == Held(order, ts)
  {
    if order == [] {
    } else {
      OwnedSize(order[1..], ts);
    }
  }

  // ---------------------------------------------------------------------------
  // Aliasing.
  // ---------------------------------------------------------------------------

  lemma {:induction false} OwnedPair(order: seq<int>, ts: Tables, s: int, t: int)
    requires Distinct(order) && s in order && t in order && s != t
    requires Known(order, ts)
    ensures multiset(ts[s].blocks) + multiset(ts[t].blocks) <= Owned(order, ts)
  {
    if order[0] == s {
      OwnedUpdate(order[1..], ts, t, EMPTY);
    } else if order[0] == t {
      OwnedUpdate(order[1..], ts, s, EMPTY);
    } else {
      OwnedPair(order[1..], ts, s, t);
    }
  }

  lemma {:induction false} Occurrences(s: seq<nat>, i: nat, j: nat)
    requires i < j < |s| && s[i] == s[j]
    ensures multiset(s)[s[i]] >= 2
  {
    var a, b := s[..j], s[j..];
    assert s == a + b;
    assert s[i] == a[i] && s[i] == b[0];
    assert s[i] in multiset(a) && s[i] in multiset(b);
  }

  /** No block is in two slots, free or held. */
  ghost predicate Unshared(free: seq<nat>, order: seq<int>, ts: Tables, total: nat) {
    Lists(order, ts) && multiset(free) + Owned(order, ts) == Pool(total)
  }

  lemma SlotsDiffer(free: seq<nat>, order: seq<int>, ts: Tables, total: nat, s: int, i: nat, t: int, j: nat)
    requires Unshared(free, order, ts, total)
    requires s in ts && t in ts && i < |ts[s].blocks| && j < |ts[t].blocks|
    requires ts[s].blocks[i] == ts[t].blocks[j]
    ensures s == t && i == j
  {
    var b := ts[s].blocks[i];
    assert Pool(total)[b] <= 1;
    if s != t {
      OwnedPair(order, ts, s, t);
      assert false;
    } else if i != j {
      OwnedUpdate(order, ts, s, EMPTY);
      Occurrences(ts[s].blocks, if i < j then i else j, if i < j then j else i);
      assert false;
    }
  }

  /** Physical place of a token: its block and the offset in it. */
  function Place(t: Table, size: nat, token: nat): (nat, nat)
    requires size > 0 && token < t.tokens && t.tokens <= |t.blocks| * size
  {
    assert token / size < |t.blocks| by { DivBelow(token, size, |t.blocks|); }
    (t.blocks[token / size], token % size)
  }

  lemma DivBelow(a: nat, size: nat, n: nat)
    requires size > 0 && a < n * size
    ensures a / size < n
  {
    assert a == a / size * size + a % size;
  }

  /** Blocks are filled one after the other, each from its first offset: ahead of `place` are all
      the offsets of the first `k` blocks and the earlier ones of the next, `token` in all. */
  ghost predicate Lives(t: Table, size: nat, token: nat, place: (nat, nat)) {
    exists k: nat :: k < |t.blocks| && place.0 == t.blocks[k] && place.1 < size && k * size + place.1 == token
  }

  lemma PlaceLives(t: Table, size: nat, token: nat)
    requires size > 0 && token < t.tokens <= |t.blocks| * size
    ensures Lives(t, size, token, Place(t, size, token))
  {
    DivBelow(token, size, |t.blocks|);
    var k := token / size;
    assert t.blocks[k] == Place(t, size, token).0 && k * size + token % size == token;
  }

  /** The first token is at the start of the first block, and every other one follows the token
      before it: at the next offset of its block, or at the start of the next block. */
  lemma PlacesFollow(t: Table, size: nat, token: nat)
    requires size > 0 && token < t.tokens <= |t.blocks| * size
    ensures token == 0 ==> Place(t, size, token) == (t.blocks[0], 0)
    ensures token > 0 ==>
      var before, here := Place(t, size, token - 1), Place(t, size, token);
      if before.1 + 1 < size then here == (before.0, before.1 + 1)
      else
        && here.1 == 0
        && exists k: nat :: k + 1 < |t.blocks| && before.0 == t.blocks[k] && here.0 == t.blocks[k + 1]
  {
    if token == 0 {
      Split(0, 0, size);
    } else {
      Follows(token, size);
      DivBelow(token, size, |t.blocks|);
      var k := (token - 1) / size;
      assert t.blocks[k] == Place(t, size, token - 1).0;
      if (token - 1) % size + 1 == size {
        assert t.blocks[k + 1] == Place(t, size, token).0;
      }
    }
  }

  lemma Follows(token: nat, size: nat)
    requires size > 0 && token > 0
    ensures var k, offset := (token - 1) / size, (token - 1) % size;
      if offset + 1 < size then token / size == k && token % size == offset + 1
      else offset + 1 == size && token / size == k + 1 && token % size == 0
  {
    var k, offset := (token - 1) / size, (token - 1) % size;
    assert token == k * size + (offset + 1);
    if offset + 1 < size {
      Split(k, offset + 1, size);
    } else {
      assert token == (k + 1) * size + 0;
      Split(k + 1, 0, size);
    }
  }

  lemma Split(k: nat, offset: nat, size: nat)
    requires offset < size
    ensures (k * size + offset) / size == k && (k * size + offset) % size == offset
  {
    var q, r := (k * size + offset) / size, (k * size + offset) % size;
    assert q * size + r == k * size + offset;
    if q < k {
      MulCancelStrict(q, k, size);
    } else if k < q {
      MulCancelStrict(k, q, size);
    }
  }

  lemma MulCancelStrict(a: nat, b: nat, size: nat)
    requires a < b
    ensures a * size + size <= b * size
  {
    assert b * size == (a + 1) * size + (b - a - 1) * size;
  }

  /** `locate` is injective over every (sequence, token) pair. */
  lemma PlacesDiffer(free: seq<nat>, order: seq<int>, ts: Tables, total: nat, size: nat, s: int, i: nat, t: int, j: nat)
    requires Unshared(free, order, ts, total) && size > 0
    requires s in ts && i < ts[s].tokens <= |ts[s].blocks| * size
    requires t in ts && j < ts[t].tokens <= |ts[t].blocks| * size
    requires Place(ts[s], size, i) == Place(ts[t], size, j)
    ensures s == t && i == j
  {
    hide Unshared, Place;
    var a := PlaceParts(ts[s], size, i);
    var b := PlaceParts(ts[t], size, j);
    SlotsDiffer(free, order, ts, total, s, a, t, b);
    SameQuotient(i, j, size);
  }

  /** The index of a token's block in its table. */
  lemma PlaceParts(t: Table, size: nat, token: nat) returns (k: nat)
    requires size > 0 && token < t.tokens <= |t.blocks| * size
    ensures k == token / size && k < |t.blocks| && Place(t, size, token) == (t.blocks[k], token % size)
  {
    DivBelow(token, size, |t.blocks|);
    k := token / size;
  }

  lemma SameQuotient(i: nat, j: nat, size: nat)
    requires size > 0 && i / size == j / size && i % size == j % size
    ensures i == j
  {
    assert i == i / size * size + i % size && j == j / size * size + j % size;
  }

  /** A table that keeps its blocks and grows keeps every token in place. */
  lemma PlaceStable(t: Table, u: Table, size: nat, token: nat)
    requires size > 0 && token < t.tokens <= |t.blocks| * size
    requires t.blocks <= u.blocks && t.tokens <= u.tokens <= |u.blocks| * size
    ensures Place(t, size, token) == Place(u, size, token)
  {
    DivBelow(token, size, |t.blocks|);
  }

  // ---------------------------------------------------------------------------
  // What a request needs.
  // ---------------------------------------------------------------------------

  /** Blocks to add so that `tokens` more fit. */
  function Additional(t: Table, tokens: nat, size: nat): nat
    requires size > 0
  {
    var wanted := t.tokens + tokens;
    var capacity := |t.blocks| * size;
    if wanted <= capacity then 0 else CeilDiv(wanted - capacity, size)
  }

  /** The table holds as few blocks as its tokens allow. */
  predicate Tight(t: Table, size: nat)
    requires size > 0
  {
    |t.blocks| == CeilDiv(t.tokens, size)
  }

  /** A tight table stays tight: it grows to the blocks its new length needs. */
  lemma AdditionalIsExact(t: Table, tokens: nat, size: nat)
    requires size > 0 && Tight(t, size)
    ensures |t.blocks| + Additional(t, tokens, size) == CeilDiv(t.tokens + tokens, size)
    ensures t.tokens <= |t.blocks| * size
    ensures t.tokens + tokens <= (|t.blocks| + Additional(t, tokens, size)) * size
  {
    var k := |t.blocks|;
    CeilDivBounds(t.tokens, size);
    var wanted := t.tokens + tokens;
    if wanted <= k * size {
      CeilDivUnique(wanted, size, k);
    } else {
      var n := Additional(t, tokens, size);
      CeilDivBounds(wanted - k * size, size);
      assert (k + n) * size == k * size + n * size;
      CeilDivUnique(wanted, size, k + n);
    }
  }

  // ---------------------------------------------------------------------------
  // Victims.
  // ---------------------------------------------------------------------------

  /** The other sequences holding blocks, in admission order. */
  function Eligible(order: seq<int>, ts: Tables, requester: int): (r: seq<int>)
    requires Known(order, ts)
    ensures forall x :: x in r <==> x in order && x != requester && ts[x].blocks != []
    ensures Distinct(order) ==> Distinct(r)
  {
    if order == [] then []
    else
      assert order == [order[0]] + order[1..];
      var rest := Eligible(order[1..], ts, requester);
      if order[0] == requester || ts[order[0]].blocks == [] then rest else [order[0]] + rest
  }

  lemma {:induction false} EligibleConcat(a: seq<int>, b: seq<int>, ts: Tables, requester: int)
    requires Known(a, ts) && Known(b, ts)
    ensures Eligible(a + b, ts, requester) == Eligible(a, ts, requester) + Eligible(b, ts, requester)
  {
    hide Distinct;
    if a == [] {
      assert a + b == b;
    } else {
      assert (a + b)[0] == a[0] && (a + b)[1..] == a[1..] + b;
      EligibleConcat(a[1..], b, ts, requester);
    }
  }

  /** Emptying a sequence takes it off the list of eligible victims. */
  lemma {:induction false} EligibleEmptied(order: seq<int>, ts: Tables, requester: int, v: int)
    requires Distinct(order) && v in order && Known(order, ts)
    ensures Eligible(order, ts[v := EMPTY], requester) == Without(Eligible(order, ts, requester), v)
  {
    if order[0] == v {
      EligibleSame(order[1..], ts, ts[v := EMPTY], requester);
      WithoutAbsent(Eligible(order[1..], ts, requester), v);
    } else {
      EligibleEmptied(order[1..], ts, requester, v);
    }
  }

  lemma {:induction false} EligibleSame(order: seq<int>, ts: Tables, us: Tables, requester: int)
    requires Known(order, ts) && Known(order, us)
    requires forall i :: 0 <= i < |order| ==> ts[order[i]] == us[order[i]]
    ensures Eligible(order, ts, requester) == Eligible(order, us, requester)
  {
    if order == [] {
    } else {
      EligibleSame(order[1..], ts, us, requester);
    }
  }

  lemma {:induction false} WithoutLast(s: seq<int>)
    requires Distinct(s) && s != []
    ensures Without(s, s[|s| - 1]) == s[..|s| - 1]
  {
    if |s| > 1 {
      WithoutLast(s[1..]);
      assert s[1..][..|s| - 2] == s[..|s| - 1][1..];
    }
  }

  lemma {:induction false} HeldConcat(a: seq<int>, b: seq<int>, ts: Tables)
    requires Known(a, ts) && Known(b, ts)
    ensures Held(a + b, ts) == Held(a, ts) + Held(b, ts)
  {
    if a == [] {
      assert a + b == b;
    } else {
      HeldConcat(a[1..], b, ts);
      assert (a + b)[1..] == a[1..] + b;
    }
  }

  lemma EligibleKnown(order: seq<int>, ts: Tables, requester: int)
    requires Known(order, ts)
    ensures Known(Eligible(order, ts, requester), ts)
  {
    var e := Eligible(order, ts, requester);
    forall i | 0 <= i < |e| ensures e[i] in ts {
      assert e[i] in e;
    }
  }

  /** Blocks held by the sequences of `order` other than the requester. */
  function HeldByOthers(order: seq<int>, ts: Tables, requester: int): nat
    requires forall i :: 0 <= i < |order| ==> order[i] in ts
  {
    if order == [] then 0
    else (if order[0] == requester then 0 else |ts[order[0]].blocks|) + HeldByOthers(order[1..], ts, requester)
  }

  /** What could be reclaimed is everything the requester does not hold; only eligible
      victims hold any of it. */
  lemma {:induction false} OthersHold(order: seq<int>, ts: Tables, requester: int)
    requires Distinct(order) && Known(order, ts)
    ensures HeldByOthers(order, ts, requester)
         == Held(order, ts) - (if requester in order then |ts[requester].blocks| else 0)
  {
    if order == [] {
    } else {
      OthersHold(order[1..], ts, requester);
      assert order == [order[0]] + order[1..];
    }
  }

  ghost predicate Among(v: seq<int>, eligible: seq<int>) {
    forall i :: 0 <= i < |v| ==> v[i] in eligible
  }

  /** Victims were picked newest first: the last sequences of `eligible`, backwards. */
  ghost predicate NewestFirst(eligible: seq<int>, victims: seq<int>) {
    |victims| <= |eligible| &&
    forall i :: 0 <= i < |victims| ==> victims[i] == eligible[|eligible| - 1 - i]
  }

  /** Each victim held the most among the eligible sequences not yet picked. */
  ghost predicate LargestFirst(eligible: seq<int>, victims: seq<int>, ts: Tables)
    requires Known(eligible, ts)
  {
    && Distinct(victims) && Among(victims, eligible) && Known(victims, ts)
    && forall i, j :: 0 <= i < |victims| && 0 <= j < |eligible| && eligible[j] !in victims[..i]
         ==> |ts[eligible[j]].blocks| <= |ts[victims[i]].blocks|
  }

  predicate MayEvict(ts: Tables, requester: int, x: int) {
    x in ts && x != requester && ts[x].blocks != []
  }

  /** `v` holds the most of all eligible sequences, and was admitted first among those that do. */
  ghost predicate FirstLargest(order: seq<int>, ts: Tables, requester: int, v: int) {
    MayEvict(ts, requester, v) &&
    exists l :: 0 <= l < |order| && order[l] == v &&
      forall j :: 0 <= j < |order| && MayEvict(ts, requester, order[j]) ==>
        |ts[order[j]].blocks| <= |ts[v].blocks| && (j < l ==> |ts[order[j]].blocks| < |ts[v].blocks|)
  }

  /** What one scan for a victim must find. */
  ghost predicate Chosen(policy: Policy, order: seq<int>, ts: Tables, requester: int, victim: Option<int>)
    requires Known(order, ts)
  {
    var e := Eligible(order, ts, requester);
    match victim
    case None => e == []
    case Some(v) =>
      e != [] && match policy
                 case Newest => v == e[|e| - 1]
                 case Largest => FirstLargest(order, ts, requester, v)
  }

  /** `ts` with every listed sequence's table emptied. */
  ghost function Emptied(ts: Tables, victims: seq<int>): (us: Tables)
    ensures us.Keys == ts.Keys
  {
    map s | s in ts :: if s in victims then EMPTY else ts[s]
  }

  lemma {:induction false} NoneEligible(order: seq<int>, ts: Tables, requester: int)
    requires Known(order, ts) && forall j :: 0 <= j < |order| ==> !MayEvict(ts, requester, order[j])
    ensures Eligible(order, ts, requester) == []
  {
    if order == [] {
    } else {
      NoneEligible(order[1..], ts, requester);
      assert !MayEvict(ts, requester, order[0]);
    }
  }

  /** As long as something could be reclaimed there is a victim. */
  lemma {:induction false} NothingToReclaim(order: seq<int>, ts: Tables, requester: int)
    requires Known(order, ts) && Eligible(order, ts, requester) == []
    ensures HeldByOthers(order, ts, requester) == 0
  {
    if order == [] {
    } else {
      NothingToReclaim(order[1..], ts, requester);
    }
  }

  lemma NewestFound(order: seq<int>, ts: Tables, requester: int, i: nat)
    requires Known(order, ts) && i < |order| && MayEvict(ts, requester, order[i])
    requires forall j :: i < j < |order| ==> !MayEvict(ts, requester, order[j])
    ensures Chosen(Newest, order, ts, requester, Some(order[i]))
  {
    var a, b := order[..i], order[i + 1..];
    assert order == a + ([order[i]] + b);
    EligibleConcat(a, [order[i]] + b, ts, requester);
    EligibleConcat([order[i]], b, ts, requester);
    NoneEligible(b, ts, requester);
    assert Eligible([order[i]], ts, requester) == [order[i]];
  }

  /** Victims were picked by `policy`, one scan at a time. */
  ghost predicate Picked(policy: Policy, order: seq<int>, ts: Tables, requester: int, victims: seq<int>)
    requires Known(order, ts)
  {
    forall i :: 0 <= i < |victims| ==>
      Known(order, Emptied(ts, victims[..i])) &&
      Chosen(policy, order, Emptied(ts, victims[..i]), requester, Some(victims[i]))
  }

  /** The blocks the victims give back, in the order they return to the pool. */
  ghost function Released(victims: seq<int>, ts: Tables): seq<nat>
    requires Known(victims, ts)
  {
    if victims == [] then []
    else Released(victims[..|victims| - 1], ts) + ts[victims[|victims| - 1]].blocks
  }

  /** Tokens the listed sequences hold: what preempting them costs in recomputation. */
  ghost function TokensHeld(victims: seq<int>, ts: Tables): nat
    requires Known(victims, ts)
  {
    if victims == [] then 0
    else TokensHeld(victims[..|victims| - 1], ts) + ts[victims[|victims| - 1]].tokens
  }

  lemma {:induction false} ReleasedSize(victims: seq<int>, ts: Tables)
    requires Known(victims, ts)
    ensures |Released(victims, ts)| == Held(victims, ts)
  {
    if victims == [] {
    } else {
      var n := |victims|;
      ReleasedSize(victims[..n - 1], ts);
      HeldLast(victims, n, ts);
      assert victims[..n] == victims;
    }
  }

  /** One more victim. */
  lemma PickedMore(policy: Policy, order: seq<int>, ts: Tables, requester: int, victims: seq<int>, v: int)
    requires Known(order, ts) && Known(victims, ts) && Picked(policy, order, ts, requester, victims)
    requires Known(order, Emptied(ts, victims)) && Chosen(policy, order, Emptied(ts, victims), requester, Some(v))
    ensures MayEvict(ts, requester, v) && v !in victims && v in order && Emptied(ts, victims)[v] == ts[v]
    ensures Known(victims + [v], ts) && Picked(policy, order, ts, requester, victims + [v])
    ensures Emptied(ts, victims + [v]) == Emptied(ts, victims)[v := EMPTY]
    ensures Released(victims + [v], ts) == Released(victims, ts) + ts[v].blocks
    ensures TokensHeld(victims + [v], ts) == TokensHeld(victims, ts) + ts[v].tokens
    ensures (victims + [v])[..|victims|] == victims
  {
    var us := Emptied(ts, victims);
    assert (victims + [v])[..|victims|] == victims;
    assert v in Eligible(order, us, requester);
    EmptiedStep(ts, victims, v);
    hide Eligible, Emptied, Chosen, Released, TokensHeld;
    PickedMoreScan(policy, order, ts, requester, victims, v);
  }

  lemma PickedMoreScan(policy: Policy, order: seq<int>, ts: Tables, requester: int, victims: seq<int>, v: int)
    requires Known(order, ts) && Picked(policy, order, ts, requester, victims)
    requires Known(order, Emptied(ts, victims)) && Chosen(policy, order, Emptied(ts, victims), requester, Some(v))
    ensures Picked(policy, order, ts, requester, victims + [v])
  {
    hide Eligible, Emptied, Chosen;
    assert (victims + [v])[..|victims|] == victims;
    forall i | 0 <= i < |victims + [v]|
      ensures Known(order, Emptied(ts, (victims + [v])[..i]))
      ensures Chosen(policy, order, Emptied(ts, (victims + [v])[..i]), requester, Some((victims + [v])[i]))
    {
      if i < |victims| {
        assert (victims + [v])[..i] == victims[..i];
        PickedAt(policy, order, ts, requester, victims, i);
      }
    }
  }

  lemma {:induction false} EligibleEmptiedAll(order: seq<int>, ts: Tables, requester: int, victims: seq<int>)
    requires Known(order, ts) && Known(order, Emptied(ts, victims))
    ensures forall x :: x in Eligible(order, Emptied(ts, victims), requester)
                   <==> x in Eligible(order, ts, requester) && x !in victims
  {
  }

  lemma PickedEligible(policy: Policy, order: seq<int>, ts: Tables, requester: int, victims: seq<int>)
    requires Known(order, ts) && Picked(policy, order, ts, requester, victims)
    ensures Distinct(victims) && Among(victims, Eligible(order, ts, requester)) && Known(victims, ts)
  {
    forall i | 0 <= i < |victims|
      ensures victims[i] in Eligible(order, ts, requester) && victims[i] !in victims[..i] && victims[i] in ts
    {
      EligibleEmptiedAll(order, ts, requester, victims[..i]);
      assert Chosen(policy, order, Emptied(ts, victims[..i]), requester, Some(victims[i]));
    }
    forall i, j | 0 <= i < j < |victims| ensures victims[i] != victims[j] {
      assert victims[i] in victims[..j];
    }
  }

  lemma EmptiedStep(ts: Tables, victims: seq<int>, v: int)
    requires v in ts
    ensures Emptied(ts, victims + [v]) == Emptied(ts, victims)[v := EMPTY]
  {
  }

  lemma {:induction false} PickedNewestFirst(order: seq<int>, ts: Tables, requester: int, victims: seq<int>, k: nat)
    requires Known(order, ts) && Distinct(order) && k <= |victims|
    requires Picked(Newest, order, ts, requester, victims)
    ensures Known(order, Emptied(ts, victims[..k])) && k <= |Eligible(order, ts, requester)|
    ensures Eligible(order, Emptied(ts, victims[..k]), requester)
         == Eligible(order, ts, requester)[..|Eligible(order, ts, requester)| - k]
    ensures NewestFirst(Eligible(order, ts, requester), victims[..k])
  {
    hide Eligible, Distinct, Chosen, Picked, Emptied, NewestFirst;
    if k == 0 {
      NothingPicked(order, ts, requester, victims);
    } else {
      PickedNewestFirst(order, ts, requester, victims, k - 1);
      PickedAt(Newest, order, ts, requester, victims, k - 1);
      ChosenNewest(order, Emptied(ts, victims[..k - 1]), requester, victims[k - 1]);
      NewestMore(Eligible(order, ts, requester), victims, k);
      EmptiedStep(ts, victims[..k - 1], victims[k - 1]);
    }
  }

  lemma NothingPicked(order: seq<int>, ts: Tables, requester: int, victims: seq<int>)
    requires Known(order, ts)
    ensures Emptied(ts, victims[..0]) == ts
    ensures var e := Eligible(order, ts, requester);
      e[..|e|] == e && NewestFirst(e, victims[..0])
  {
    hide Eligible;
    assert victims[..0] == [];
  }

  lemma PickedAt(policy: Policy, order: seq<int>, ts: Tables, requester: int, victims: seq<int>, i: nat)
    requires Known(order, ts) && Picked(policy, order, ts, requester, victims) && i < |victims|
    ensures Known(order, Emptied(ts, victims[..i]))
    ensures Chosen(policy, order, Emptied(ts, victims[..i]), requester, Some(victims[i]))
  {
  }

  lemma NewestMore(e: seq<int>, victims: seq<int>, k: nat)
    requires 0 < k <= |victims| && k <= |e| && NewestFirst(e, victims[..k - 1]) && victims[k - 1] == e[|e| - k]
    ensures NewestFirst(e, victims[..k])
    ensures victims[..k] == victims[..k - 1] + [victims[k - 1]]
    ensures e[..|e| - (k - 1)][..|e| - k] == e[..|e| - k]
  {
    assert forall i :: 0 <= i < k - 1 ==> victims[..k][i] == victims[..k - 1][i];
  }

  lemma ChosenNewest(order: seq<int>, us: Tables, requester: int, v: int)
    requires Known(order, us) && Distinct(order) && Chosen(Newest, order, us, requester, Some(v))
    ensures v in us && Known(order, us[v := EMPTY])
    ensures var e := Eligible(order, us, requester);
      e != [] && v == e[|e| - 1] && Eligible(order, us[v := EMPTY], requester) == e[..|e| - 1]
  {
    var e := Eligible(order, us, requester);
    assert e[|e| - 1] in e;
    EligibleEmptied(order, us, requester, v);
    WithoutLast(e);
  }

  lemma PickedLargestFirst(order: seq<int>, ts: Tables, requester: int, victims: seq<int>)
    requires Known(order, ts) && Picked(Largest, order, ts, requester, victims)
    ensures Known(Eligible(order, ts, requester), ts)
    ensures LargestFirst(Eligible(order, ts, requester), victims, ts)
  {
    var e := Eligible(order, ts, requester);
    EligibleKnown(order, ts, requester);
    PickedEligible(Largest, order, ts, requester, victims);
    forall i, j | 0 <= i < |victims| && 0 <= j < |e| && e[j] !in victims[..i]
      ensures |ts[e[j]].blocks| <= |ts[victims[i]].blocks|
    {
      var us := Emptied(ts, victims[..i]);
      assert Chosen(Largest, order, us, requester, Some(victims[i]));
      assert e[j] in e;
      var l :| 0 <= l < |order| && order[l] == e[j];
      assert MayEvict(us, requester, order[l]);
    }
  }

  /** The victims cover the deficit, and without the last one they would not. */
  ghost predicate JustEnough(victims: seq<int>, ts: Tables, deficit: int)
    requires Known(victims, ts)
  {
    && Held(victims, ts) >= deficit
    && (victims != [] ==> Held(victims[..|victims| - 1], ts) < deficit)
  }

  lemma {:induction false} DistinctSize(s: seq<int>)
    requires Distinct(s)
    ensures |set x | x in s| == |s|
  {
    if s == [] {
    } else {
      DistinctSize(s[1..]);
      assert (set x | x in s) == {s[0]} + set x | x in s[1..];
      assert s[0] !in s[1..];
    }
  }

  lemma Outsider(v: seq<int>, w: seq<int>) returns (i: nat)
    requires Distinct(v) && Distinct(w) && |w| < |v|
    ensures i < |v| && v[i] !in w
  {
    DistinctSize(v);
    DistinctSize(w);
    var a, b := set x | x in v, set x | x in w;
    if a <= b {
      SubsetSize(a, b);
      assert false;
    }
    var x :| x in a && x !in b;
    i :| 0 <= i < |v| && v[i] == x;
  }

  lemma HeldPick(v: seq<int>, i: nat, ts: Tables)
    requires i < |v| && Known(v, ts)
    ensures Known(v[..i] + v[i + 1..], ts)
    ensures Held(v, ts) == |ts[v[i]].blocks| + Held(v[..i] + v[i + 1..], ts)
  {
    assert v == v[..i] + ([v[i]] + v[i + 1..]);
    HeldConcat(v[..i], [v[i]] + v[i + 1..], ts);
    HeldConcat([v[i]], v[i + 1..], ts);
    HeldConcat(v[..i], v[i + 1..], ts);
  }

  lemma HeldLast(v: seq<int>, k: nat, ts: Tables)
    requires 0 < k <= |v| && Known(v, ts)
    ensures Held(v[..k], ts) == Held(v[..k - 1], ts) + |ts[v[k - 1]].blocks|
  {
    assert v[..k] == v[..k - 1] + [v[k - 1]];
    HeldConcat(v[..k - 1], [v[k - 1]], ts);
  }

  lemma OneLeftOut(choice: seq<int>, i: nat, eligible: seq<int>, ts: Tables)
    requires i < |choice| && Distinct(choice) && Among(choice, eligible) && Known(choice, ts)
    ensures var others := choice[..i] + choice[i + 1..];
      |others| == |choice| - 1 && Distinct(others) && Among(others, eligible) && Known(others, ts)
  {
  }

  /** No choice of as many sequences frees more than largest-first does. */
  lemma {:induction false} LargestDominates(eligible: seq<int>, victims: seq<int>, ts: Tables, choice: seq<int>)
    requires Known(eligible, ts)
    requires LargestFirst(eligible, victims, ts)
    requires Distinct(choice) && Among(choice, eligible) && Known(choice, ts) && |choice| <= |victims|
    ensures Held(choice, ts) <= Held(victims[..|choice|], ts)
    decreases |choice|
  {
    var m := |choice|;
    if m == 0 {
    } else {
      var i := Outsider(choice, victims[..m - 1]);
      var others := choice[..i] + choice[i + 1..];
      OneLeftOut(choice, i, eligible, ts);
      hide Distinct, Held;
      HeldPick(choice, i, ts);
      LargestDominates(eligible, victims, ts, others);
      HeldLast(victims, m, ts);
      var j :| 0 <= j < |eligible| && eligible[j] == choice[i];
    }
  }

  lemma {:induction false} HeldMonotone(v: seq<int>, k: nat, ts: Tables)
    requires k <= |v| && Known(v, ts)
    ensures Held(v[..k], ts) <= Held(v, ts)
  {
    assert v == v[..k] + v[k..];
    HeldConcat(v[..k], v[k..], ts);
  }

  lemma FewerFreeLess(eligible: seq<int>, victims: seq<int>, ts: Tables, choice: seq<int>)
    requires Known(eligible, ts) && LargestFirst(eligible, victims, ts)
    requires Distinct(choice) && Among(choice, eligible) && Known(choice, ts) && |choice| < |victims|
    ensures Held(choice, ts) <= Held(victims[..|victims| - 1], ts)
  {
    var most := victims[..|victims| - 1];
    LargestDominates(eligible, victims, ts, choice);
    assert victims[..|choice|] == most[..|choice|];
    HeldMonotone(most, |choice|, ts);
  }

  /** Largest-first evicts the fewest sequences any choice of victims could. */
  lemma LargestIsFewest(order: seq<int>, ts: Tables, requester: int, victims: seq<int>, deficit: int, choice: seq<int>)
    requires Known(order, ts) && Known(victims, ts) && Known(choice, ts)
    requires Picked(Largest, order, ts, requester, victims) && JustEnough(victims, ts, deficit)
    requires Distinct(choice) && Among(choice, Eligible(order, ts, requester)) && Held(choice, ts) >= deficit
    ensures |victims| <= |choice|
  {
    PickedLargestFirst(order, ts, requester, victims);
    hide Picked, Eligible, LargestFirst, Held;
    if |choice| < |victims| {
      FewerFreeLess(Eligible(order, ts, requester), victims, ts, choice);
    }
  }

  lemma SuffixCovers(e: seq<int>, victims: seq<int>, ts: Tables, deficit: int, k: nat)
    requires Known(e, ts) && Known(victims, ts) && k <= |e|
    requires NewestFirst(e, victims) && JustEnough(victims, ts, deficit) && deficit > 0
    ensures Held(e[k..], ts) >= deficit <==> k <= |e| - |victims|
  {
    var n, m := |e|, |victims|;
    assert victims[..m] == victims;
    SuffixHeld(e, victims, ts, m);
    if m > 0 {
      SuffixHeld(e, victims, ts, m - 1);
    }
    if k <= n - m {
      TailHeld(e, k, n - m, ts);
    } else {
      TailHeld(e, n - m + 1, k, ts);
    }
  }

  /** Newest-first evicts exactly the shortest suffix, in admission order, that
      covers the deficit. */
  lemma NewestIsShortestSuffix(order: seq<int>, ts: Tables, requester: int, victims: seq<int>, deficit: int, k: nat)
    requires Known(order, ts) && Distinct(order) && Known(victims, ts) && Known(Eligible(order, ts, requester), ts)
    requires Picked(Newest, order, ts, requester, victims) && JustEnough(victims, ts, deficit) && deficit > 0
    requires k <= |Eligible(order, ts, requester)|
    ensures NewestFirst(Eligible(order, ts, requester), victims)
    ensures Held(Eligible(order, ts, requester)[k..], ts) >= deficit
       <==> k <= |Eligible(order, ts, requester)| - |victims|
  {
    assert victims[..|victims|] == victims;
    PickedNewestFirst(order, ts, requester, victims, |victims|);
    hide Picked, Eligible, JustEnough;
    SuffixCovers(Eligible(order, ts, requester), victims, ts, deficit, k);
  }

  lemma TailHeld(v: seq<int>, k: nat, l: nat, ts: Tables)
    requires k <= l <= |v| && Known(v, ts)
    ensures Held(v[l..], ts) <= Held(v[k..], ts)
  {
    assert v[k..] == v[k..l] + v[l..];
    HeldConcat(v[k..l], v[l..], ts);
  }

  lemma {:induction false} SuffixHeld(eligible: seq<int>, victims: seq<int>, ts: Tables, k: nat)
    requires Known(eligible, ts)
    requires NewestFirst(eligible, victims) && k <= |victims|
    requires Known(victims, ts)
    ensures Held(eligible[|eligible| - k..], ts) == Held(victims[..k], ts)
  {
    var n := |eligible|;
    if k > 0 {
      SuffixHeld(eligible, victims, ts, k - 1);
      HeldLast(victims, k, ts);
      assert eligible[n - k..] == [eligible[n - k]] + eligible[n - k + 1..];
      HeldConcat([eligible[n - k]], eligible[n - k + 1..], ts);
    }
  }

  // ---------------------------------------------------------------------------
  // Who goes, under either policy.
  // ---------------------------------------------------------------------------

  ghost predicate Before(order: seq<int>, a: int, b: int) {
    exists i, j :: 0 <= i < j < |order| && order[i] == a && order[j] == b
  }

  /** Whether `y` is evicted rather than `x`: admitted later, or holding more, ties to the earlier. */
  ghost predicate Ahead(policy: Policy, order: seq<int>, ts: Tables, y: int, x: int)
    requires y in ts && x in ts
  {
    match policy
    case Newest => Before(order, x, y)
    case Largest =>
      |ts[y].blocks| > |ts[x].blocks| || (|ts[y].blocks| == |ts[x].blocks| && Before(order, y, x))
  }

  /** The ones of `e` that go before `x`. */
  ghost function AheadOf(policy: Policy, order: seq<int>, ts: Tables, e: seq<int>, x: int): (r: seq<int>)
    requires Known(e, ts) && x in ts
    ensures forall y :: y in r <==> y in e && Ahead(policy, order, ts, y, x)
    ensures Distinct(e) ==> Distinct(r)
    ensures Known(r, ts)
  {
    if e == [] then []
    else
      assert e == [e[0]] + e[1..];
      var rest := AheadOf(policy, order, ts, e[1..], x);
      if Ahead(policy, order, ts, e[0], x) then [e[0]] + rest else rest
  }

  /** The last eligible sequence was admitted behind every other one. */
  lemma {:induction false} LastBehind(order: seq<int>, ts: Tables, requester: int, x: int)
    requires Known(order, ts) && order != [] && x in Eligible(order, ts, requester)
    ensures var e := Eligible(order, ts, requester);
      x != e[|e| - 1] ==> Before(order, x, e[|e| - 1])
  {
    EligibleUnfolds(order, ts, requester);
    var e, rest := Eligible(order, ts, requester), Eligible(order[1..], ts, requester);
    hide Eligible, Before, Distinct, Known;
    var v := e[|e| - 1];
    if x != v {
      assert v == rest[|rest| - 1];
      if x in rest {
        LastBehind(order[1..], ts, requester, x);
        BeforeMore(order, x, v);
      } else {
        BeforeAll(order, v);
      }
    }
  }

  lemma EligibleUnfolds(order: seq<int>, ts: Tables, requester: int)
    requires Known(order, ts) && order != []
    ensures Known(order[1..], ts)
    ensures var e, rest := Eligible(order, ts, requester), Eligible(order[1..], ts, requester);
      && (e == rest || e == [order[0]] + rest)
      && forall x :: x in rest ==> x in order[1..]
  {
  }

  lemma BeforeAll(order: seq<int>, b: int)
    requires order != [] && b in order[1..]
    ensures Before(order, order[0], b)
  {
    var k :| 0 <= k < |order| - 1 && order[1..][k] == b;
    BeforeAt(order, 0, k + 1);
  }

  lemma BeforeAt(order: seq<int>, i: nat, j: nat)
    requires i < j < |order|
    ensures Before(order, order[i], order[j])
  {
  }

  lemma BeforeMore(order: seq<int>, a: int, b: int)
    requires order != [] && Before(order[1..], a, b)
    ensures Before(order, a, b)
  {
    var i, j :| 0 <= i < j < |order| - 1 && order[1..][i] == a && order[1..][j] == b;
    assert order[i + 1] == a && order[j + 1] == b;
  }

  /** Whom one scan finds goes before everybody else it could have found. */
  lemma ChosenAhead(policy: Policy, order: seq<int>, ts: Tables, requester: int, v: int, x: int)
    requires Known(order, ts) && Distinct(order) && Chosen(policy, order, ts, requester, Some(v))
    requires x in Eligible(order, ts, requester) && x != v
    ensures v in ts && x in ts && Ahead(policy, order, ts, v, x)
  {
    var e := Eligible(order, ts, requester);
    EligibleKnown(order, ts, requester);
    hide Eligible, Distinct, Before;
    assert e[|e| - 1] in e;
    match policy
    case Newest => LastBehind(order, ts, requester, x);
    case Largest => LargestAhead(order, ts, requester, v, x);
  }

  lemma LargestAhead(order: seq<int>, ts: Tables, requester: int, v: int, x: int)
    requires Distinct(order) && FirstLargest(order, ts, requester, v) && x in order && MayEvict(ts, requester, x)
    requires x != v
    ensures Ahead(Largest, order, ts, v, x)
  {
    var l :| 0 <= l < |order| && order[l] == v &&
      forall j :: 0 <= j < |order| && MayEvict(ts, requester, order[j]) ==>
        |ts[order[j]].blocks| <= |ts[v].blocks| && (j < l ==> |ts[order[j]].blocks| < |ts[v].blocks|);
    var j :| 0 <= j < |order| && order[j] == x;
    if l < j {
      BeforeAt(order, l, j);
    }
  }

  lemma AheadOnce(policy: Policy, order: seq<int>, ts: Tables, y: int, x: int)
    requires Distinct(order) && x in ts && y in ts && Ahead(policy, order, ts, y, x)
    ensures x != y && !Ahead(policy, order, ts, x, y)
  {
  }

  /** The `i`-th victim goes before everybody eligible who is not among the victims so far. */
  lemma PickedAhead(policy: Policy, order: seq<int>, ts: Tables, requester: int, victims: seq<int>, i: nat, x: int)
    requires Known(order, ts) && Distinct(order) && Picked(policy, order, ts, requester, victims) && i < |victims|
    requires x in Eligible(order, ts, requester) && x !in victims[..i] && x != victims[i]
    ensures victims[i] in ts && x in ts && Ahead(policy, order, ts, victims[i], x)
  {
    var us := Emptied(ts, victims[..i]);
    PickedAt(policy, order, ts, requester, victims, i);
    PickedEligible(policy, order, ts, requester, victims);
    EligibleEmptiedAll(order, ts, requester, victims[..i]);
    hide Eligible, Chosen, Picked;
    ChosenAhead(policy, order, us, requester, victims[i], x);
    assert victims[i] !in victims[..i];
  }

  lemma {:induction false} HeldSubset(v: seq<int>, w: seq<int>, ts: Tables)
    requires Distinct(v) && Known(v, ts) && Known(w, ts) && forall x :: x in v ==> x in w
    ensures Held(v, ts) <= Held(w, ts)
    decreases |v|
  {
    if v == [] {
    } else {
      assert v[0] in v;
      var j :| 0 <= j < |w| && w[j] == v[0];
      var others := w[..j] + w[j + 1..];
      HeldPick(w, j, ts);
      forall x | x in v[1..] ensures x in others {
        assert x in v && x in w && x != v[0];
        assert w == w[..j] + [w[j]] + w[j + 1..];
      }
      HeldSubset(v[1..], others, ts);
    }
  }

  /** Whoever goes before a victim has gone before it. */
  lemma AheadOfVictim(policy: Policy, order: seq<int>, ts: Tables, requester: int, victims: seq<int>, i: nat)
    requires Known(order, ts) && Distinct(order) && Known(victims, ts) && Known(Eligible(order, ts, requester), ts)
    requires Picked(policy, order, ts, requester, victims) && i < |victims|
    ensures var ahead := AheadOf(policy, order, ts, Eligible(order, ts, requester), victims[i]);
      Held(ahead, ts) <= Held(victims[..i], ts)
  {
    var x := victims[i];
    var ahead := AheadOf(policy, order, ts, Eligible(order, ts, requester), x);
    PickedEligible(policy, order, ts, requester, victims);
    hide Eligible, Picked, Held, AheadOf, Ahead;
    forall y | y in ahead ensures y in victims[..i] {
      AheadOnce(policy, order, ts, y, x);
      if y !in victims[..i] {
        PickedAhead(policy, order, ts, requester, victims, i, y);
      }
    }
    hide Distinct;
    HeldSubset(ahead, victims[..i], ts);
  }

  /** Every victim goes before whoever is spared. */
  lemma AheadOfSpared(policy: Policy, order: seq<int>, ts: Tables, requester: int, victims: seq<int>, x: int)
    requires Known(order, ts) && Distinct(order) && Known(victims, ts) && Known(Eligible(order, ts, requester), ts)
    requires Picked(policy, order, ts, requester, victims) && x in Eligible(order, ts, requester) && x in ts
    requires x !in victims
    ensures Held(victims, ts) <= Held(AheadOf(policy, order, ts, Eligible(order, ts, requester), x), ts)
  {
    var ahead := AheadOf(policy, order, ts, Eligible(order, ts, requester), x);
    PickedEligible(policy, order, ts, requester, victims);
    hide Eligible, Picked, Held, AheadOf, Ahead, Distinct;
    forall y | y in victims ensures y in ahead {
      var i :| 0 <= i < |victims| && victims[i] == y;
      assert x !in victims[..i];
      PickedAhead(policy, order, ts, requester, victims, i, x);
    }
    HeldSubset(victims, ahead, ts);
  }

  /** A holder is evicted if and only if those that go before it do not cover the deficit. */
  lemma VictimsRanked(policy: Policy, order: seq<int>, ts: Tables, requester: int, victims: seq<int>, deficit: int,
                      x: int)
    requires Known(order, ts) && Distinct(order) && Known(victims, ts) && Known(Eligible(order, ts, requester), ts)
    requires Picked(policy, order, ts, requester, victims) && JustEnough(victims, ts, deficit)
    requires x in Eligible(order, ts, requester) && x in ts
    ensures x in victims <==> Held(AheadOf(policy, order, ts, Eligible(order, ts, requester), x), ts) < deficit
  {
    hide Eligible, Picked, Held, AheadOf, Distinct;
    if x in victims {
      var i :| 0 <= i < |victims| && victims[i] == x;
      AheadOfVictim(policy, order, ts, requester, victims, i);
      assert victims[..i] == victims[..|victims| - 1][..i];
      HeldMonotone(victims[..|victims| - 1], i, ts);
    } else {
      AheadOfSpared(policy, order, ts, requester, victims, x);
    }
  }
}
