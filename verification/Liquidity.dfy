/** Pool-held balances: a vector of targets with tombstones and a free list, and four reverse maps
    kept exact while pools come and go. */
module Liquidity {
  import opened Routing
  import opened PoolTokens
  import opened TokenGraph

  datatype Balance = Unknown | Fresh(amount: nat) | Stale

  datatype Source =
    | Erc20(holder: Address, slot: Option<nat>)
    | VaultCash(vault: Address, word: nat, high: bool)
    | NoSource

  datatype Target = Target(token: Token, source: Source, balance: Balance, active: bool)

  datatype Tracked = Tracked(source: Source, balance: Balance)

  const CASH_RANGE: nat := 0x1_0000_0000_0000_0000_0000_0000_0000  // 2 to the power 112

  /** The cash field of a packed vault word. */
  function DecodeCash(word: nat, high: bool): nat {
    if high then (word / CASH_RANGE) % CASH_RANGE else word % CASH_RANGE
  }

  /** The low and the high cash field of a vault word, whatever the bits above them are. */
  lemma CashFields(low: nat, high: nat, above: nat)
    requires low < CASH_RANGE && high < CASH_RANGE
    ensures var word := low + CASH_RANGE * (high + CASH_RANGE * above);
            DecodeCash(word, false) == low && DecodeCash(word, true) == high
  {
    DivideBack(low, high + CASH_RANGE * above);
    DivideBack(high, above);
  }

  lemma DivideBack(r: nat, q: nat)
    requires r < CASH_RANGE
    ensures (r + CASH_RANGE * q) / CASH_RANGE == q && (r + CASH_RANGE * q) % CASH_RANGE == r
  {
  }

  // ---- keys of a target in the reverse maps ----

  function StorageSlot(t: Target): Option<(Address, nat)> {
    match t.source
    case Erc20(_, Some(slot)) => Some((t.token, slot))
    case VaultCash(vault, slot, _) => Some((vault, slot))
    case _ => None
  }

  function SlotKey(t: Target): Option<(Address, nat)> { if t.active then StorageSlot(t) else None }

  function HolderKey(t: Target): Option<(Token, Address)> {
    if t.active && t.source.Erc20? then Some((t.token, t.source.holder)) else None
  }

  function PoolKey(t: Target, owner: Pool): Option<Pool> { if t.active then Some(owner) else None }

  function PairKey(t: Target, owner: Pool): Option<(Pool, Token)> { if t.active then Some((owner, t.token)) else None }

  ghost function SlotKeys(ts: seq<Target>): seq<Option<(Address, nat)>> { seq(|ts|, i requires 0 <= i < |ts| => SlotKey(ts[i])) }

  ghost function HolderKeys(ts: seq<Target>): seq<Option<(Token, Address)>> { seq(|ts|, i requires 0 <= i < |ts| => HolderKey(ts[i])) }

  ghost function PoolKeys(ts: seq<Target>, owners: seq<Pool>): seq<Option<Pool>>
    requires |ts| == |owners|
  {
    seq(|ts|, i requires 0 <= i < |ts| => PoolKey(ts[i], owners[i]))
  }

  ghost function PairKeys(ts: seq<Target>, owners: seq<Pool>): seq<Option<(Pool, Token)>>
    requires |ts| == |owners|
  {
    seq(|ts|, i requires 0 <= i < |ts| => PairKey(ts[i], owners[i]))
  }

  // ---- reverse maps ----

  /** `m` lists, for every key, exactly the positions that carry it, once each, and no empty list. */
  ghost predicate Inverse<K(!new)>(m: map<K, seq<nat>>, keys: seq<Option<K>>) {
    && (forall k :: k in m ==> m[k] != [] && Distinct(m[k]))
    && (forall k, i: nat :: i in Lookup(m, k) <==> i < |keys| && keys[i] == Some(k))
  }

  /** `m` is the inverse of the keys, which are distinct. */
  ghost predicate Unique<K(!new)>(m: map<K, nat>, keys: seq<Option<K>>) {
    && (forall k :: k in m ==> m[k] < |keys| && keys[m[k]] == Some(k))
    && (forall i :: 0 <= i < |keys| && keys[i].Some? ==> keys[i].value in m && m[keys[i].value] == i)
  }

  function AddKey<K(==)>(m: map<K, seq<nat>>, key: Option<K>, i: nat): map<K, seq<nat>> {
    if key.None? then m else m[key.value := Lookup(m, key.value) + [i]]
  }

  /** `remove_reverse_index`: drop one position, and the key with its last position. */
  function DropKey<K(==)>(m: map<K, seq<nat>>, key: Option<K>, i: nat): map<K, seq<nat>> {
    if key.None? || key.value !in m then m
    else
      var rest := Without(m[key.value], {i});
      if rest == [] then m - {key.value} else m[key.value := rest]
  }

  function Put<T>(s: seq<T>, i: nat, x: T): seq<T>
    requires i <= |s|
  {
    if i == |s| then s + [x] else s[i := x]
  }

  lemma InverseAdds<K(!new)>(m: map<K, seq<nat>>, keys: seq<Option<K>>, i: nat, key: Option<K>)
    requires Inverse(m, keys) && i <= |keys| && (i < |keys| ==> keys[i].None?)
    ensures Inverse(AddKey(m, key, i), Put(keys, i, key))
  {
    hide AddKey, Put;
    var m', keys' := AddKey(m, key, i), Put(keys, i, key);
    forall k | k in m' ensures m'[k] != [] && Distinct(m'[k]) { AddedDistinct(m, keys, i, key, k); }
    forall k, j: nat ensures j in Lookup(m', k) <==> j < |keys'| && keys'[j] == Some(k) { AddedAt(m, keys, i, key, k, j); }
    IsInverse(m', keys');
  }

  lemma IsInverse<K(!new)>(m: map<K, seq<nat>>, keys: seq<Option<K>>)
    requires forall k :: k in m ==> m[k] != [] && Distinct(m[k])
    requires forall k, i: nat :: i in Lookup(m, k) <==> i < |keys| && keys[i] == Some(k)
    ensures Inverse(m, keys)
  {
  }


  lemma AddedDistinct<K(!new)>(m: map<K, seq<nat>>, keys: seq<Option<K>>, i: nat, key: Option<K>, k: K)
    requires Inverse(m, keys) && i <= |keys| && (i < |keys| ==> keys[i].None?) && k in AddKey(m, key, i)
    ensures AddKey(m, key, i)[k] != [] && Distinct(AddKey(m, key, i)[k])
  {
    InverseAt(m, keys, k, i);
    hide Inverse;
    if k in m { InverseDistinct(m, keys, k); }
  }

  lemma InverseDistinct<K(!new)>(m: map<K, seq<nat>>, keys: seq<Option<K>>, k: K)
    requires Inverse(m, keys) && k in m
    ensures m[k] != [] && Distinct(m[k])
  {
  }

  lemma AddedAt<K(!new)>(m: map<K, seq<nat>>, keys: seq<Option<K>>, i: nat, key: Option<K>, k: K, j: nat)
    requires Inverse(m, keys) && i <= |keys| && (i < |keys| ==> keys[i].None?)
    ensures j in Lookup(AddKey(m, key, i), k) <==> j < |Put(keys, i, key)| && Put(keys, i, key)[j] == Some(k)
  {
    InverseAt(m, keys, k, j);
    hide Inverse;
  }

  lemma InverseDrops<K(!new)>(m: map<K, seq<nat>>, keys: seq<Option<K>>, i: nat)
    requires Inverse(m, keys) && i < |keys|
    ensures Inverse(DropKey(m, keys[i], i), keys[i := None])
  {
    var m' := DropKey(m, keys[i], i);
    if keys[i].Some? {
      assert i in Lookup(m, keys[i].value);
      WithoutDistinct(m[keys[i].value], {i});
    }
    forall k, j: nat ensures j in Lookup(m', k) <==> j < |keys[i := None]| && keys[i := None][j] == Some(k) {
      assert j in Lookup(m, k) <==> j < |keys| && keys[j] == Some(k);
      if keys[i].Some? && k == keys[i].value {
        assert j in Without(m[k], {i}) <==> j in m[k] && j != i;
      }
    }
  }

  /** The free list holds each tombstone once. */
  ghost predicate FreeOk(free: seq<nat>, ts: seq<Target>) {
    Distinct(free) && forall i: nat :: i in free <==> i < |ts| && !ts[i].active
  }

  /** All indexes but the per-pool lists agree with the targets. */
  ghost predicate IndexesOk(ts: seq<Target>, owners: seq<Pool>, byPoolToken: map<(Pool, Token), nat>, byTokenHolder: map<(Token, Address), seq<nat>>,
                            byStorageSlot: map<(Address, nat), seq<nat>>, free: seq<nat>) {
    && |ts| == |owners| && Unique(byPoolToken, PairKeys(ts, owners)) && Inverse(byTokenHolder, HolderKeys(ts))
    && Inverse(byStorageSlot, SlotKeys(ts)) && FreeOk(free, ts)
  }

  /** What is tracked: per pool and token, the source and the balance. */
  ghost function ContentsOf(ts: seq<Target>, byPoolToken: map<(Pool, Token), nat>): map<(Pool, Token), Tracked> {
    map k | k in byPoolToken && byPoolToken[k] < |ts| :: Tracked.Tracked(ts[byPoolToken[k]].source, ts[byPoolToken[k]].balance)
  }

  lemma InverseAt<K(!new)>(m: map<K, seq<nat>>, keys: seq<Option<K>>, k: K, i: nat)
    requires Inverse(m, keys)
    ensures i in Lookup(m, k) <==> i < |keys| && keys[i] == Some(k)
  {
  }

  lemma EmptyOk<K(!new)>()
    ensures Inverse<K>(map[], [])
  {
    assert forall k: K :: Lookup<K, nat>(map[], k) == [];
  }

  // ---- pushing a target ----

  /** The slot a push uses: the newest tombstone, or a new position. */
  function NextIndex(free: seq<nat>, ts: seq<Target>): nat { if free == [] then |ts| else free[|free| - 1] }

  lemma PutKeys(ts: seq<Target>, owners: seq<Pool>, i: nat, t: Target, p: Pool)
    requires |ts| == |owners| && i <= |ts|
    ensures HolderKeys(Put(ts, i, t)) == Put(HolderKeys(ts), i, HolderKey(t))
    ensures SlotKeys(Put(ts, i, t)) == Put(SlotKeys(ts), i, SlotKey(t))
    ensures PoolKeys(Put(ts, i, t), Put(owners, i, p)) == Put(PoolKeys(ts, owners), i, PoolKey(t, p))
    ensures PairKeys(Put(ts, i, t), Put(owners, i, p)) == Put(PairKeys(ts, owners), i, PairKey(t, p))
  {
  }

  lemma NextIndexIsFree(free: seq<nat>, ts: seq<Target>)
    requires FreeOk(free, ts)
    ensures var i := NextIndex(free, ts);
            i <= |ts| && (i < |ts| ==> !ts[i].active)
  {
    if free != [] { assert free[|free| - 1] in free; }
  }

  lemma FreePushed(free: seq<nat>, ts: seq<Target>, t: Target)
    requires FreeOk(free, ts) && t.active
    ensures var i := NextIndex(free, ts);
            i <= |ts| && FreeOk(if free == [] then [] else free[..|free| - 1], Put(ts, i, t))
  {
    NextIndexIsFree(free, ts);
    if free != [] {
      var rest, last := free[..|free| - 1], free[|free| - 1];
      assert free == rest + [last];
      assert forall j :: j in rest <==> j in free && j != last;
    }
  }

  lemma UniqueAdds<K(!new)>(m: map<K, nat>, keys: seq<Option<K>>, i: nat, k: K)
    requires Unique(m, keys) && i <= |keys| && (i < |keys| ==> keys[i].None?) && k !in m
    ensures Unique(m[k := i], Put(keys, i, Some(k)))
  {
  }

  lemma UniqueDrops<K(!new)>(m: map<K, nat>, keys: seq<Option<K>>, i: nat)
    requires Unique(m, keys) && i < |keys| && keys[i].Some?
    ensures Unique(m - {keys[i].value}, keys[i := None])
  {
  }

  lemma PushKeeps(ts: seq<Target>, owners: seq<Pool>, byPoolToken: map<(Pool, Token), nat>, byTokenHolder: map<(Token, Address), seq<nat>>,
                  byStorageSlot: map<(Address, nat), seq<nat>>, byPool: map<Pool, seq<nat>>, free: seq<nat>, p: Pool, t: Target)
    requires IndexesOk(ts, owners, byPoolToken, byTokenHolder, byStorageSlot, free) && Inverse(byPool, PoolKeys(ts, owners))
    requires t.active && (p, t.token) !in byPoolToken
    ensures var i := NextIndex(free, ts);
            && i <= |ts| && |ts| == |owners|
            && IndexesOk(Put(ts, i, t), Put(owners, i, p), byPoolToken[(p, t.token) := i], AddKey(byTokenHolder, HolderKey(t), i),
                         AddKey(byStorageSlot, SlotKey(t), i), if free == [] then [] else free[..|free| - 1])
            && Inverse(AddKey(byPool, Some(p), i), PoolKeys(Put(ts, i, t), Put(owners, i, p)))
            && ContentsOf(Put(ts, i, t), byPoolToken[(p, t.token) := i]) == ContentsOf(ts, byPoolToken)[(p, t.token) := Tracked.Tracked(t.source, t.balance)]
  {
    hide Inverse, Unique, FreeOk, ContentsOf;
    var i := NextIndex(free, ts);
    NextIndexIsFree(free, ts);
    PutKeys(ts, owners, i, t, p);
    FreePushed(free, ts, t);
    UniqueAdds(byPoolToken, PairKeys(ts, owners), i, (p, t.token));
    InverseAdds(byTokenHolder, HolderKeys(ts), i, HolderKey(t));
    InverseAdds(byStorageSlot, SlotKeys(ts), i, SlotKey(t));
    InverseAdds(byPool, PoolKeys(ts, owners), i, Some(p));
    PushContents(ts, owners, byPoolToken, i, p, t);
  }

  /** The newest tombstone is reused, and only without one the list grows. */
  ghost predicate Placed(ts: seq<Target>, free: seq<nat>, ts': seq<Target>, free': seq<nat>, t: Target) {
    if free == [] then ts' == ts + [t] && free' == []
    else
      var i := free[|free| - 1];
      i < |ts| && !ts[i].active && ts' == ts[i := t] && free' == free[..|free| - 1]
  }

  lemma CoreFree(ts: seq<Target>, owners: seq<Pool>, byPoolToken: map<(Pool, Token), nat>, byTokenHolder: map<(Token, Address), seq<nat>>,
                 byStorageSlot: map<(Address, nat), seq<nat>>, free: seq<nat>)
    requires IndexesOk(ts, owners, byPoolToken, byTokenHolder, byStorageSlot, free)
    ensures FreeOk(free, ts)
  {
  }

  lemma PutPlaces(ts: seq<Target>, free: seq<nat>, t: Target)
    requires FreeOk(free, ts)
    ensures NextIndex(free, ts) <= |ts|
    ensures Placed(ts, free, Put(ts, NextIndex(free, ts), t), if free == [] then [] else free[..|free| - 1], t)
  {
    NextIndexIsFree(free, ts);
    if free != [] { assert free[|free| - 1] in free; }
  }

  lemma PushContents(ts: seq<Target>, owners: seq<Pool>, byPoolToken: map<(Pool, Token), nat>, i: nat, p: Pool, t: Target)
    requires |ts| == |owners| && Unique(byPoolToken, PairKeys(ts, owners)) && i <= |ts| && (i < |ts| ==> !ts[i].active)
    ensures ContentsOf(Put(ts, i, t), byPoolToken[(p, t.token) := i]) == ContentsOf(ts, byPoolToken)[(p, t.token) := Tracked.Tracked(t.source, t.balance)]
  {
  }

  // ---- removing a pool's targets ----

  lemma DropKeys(ts: seq<Target>, owners: seq<Pool>, i: nat)
    requires |ts| == |owners| && i < |ts|
    ensures var ts' := ts[i := ts[i].(active := false)];
            && HolderKeys(ts') == HolderKeys(ts)[i := None] && SlotKeys(ts') == SlotKeys(ts)[i := None]
            && PairKeys(ts', owners) == PairKeys(ts, owners)[i := None]
  {
  }

  lemma FreeDropped(free: seq<nat>, ts: seq<Target>, i: nat)
    requires FreeOk(free, ts) && i < |ts| && ts[i].active
    ensures FreeOk(free + [i], ts[i := ts[i].(active := false)])
  {
  }

  lemma DropKeeps(ts: seq<Target>, owners: seq<Pool>, byPoolToken: map<(Pool, Token), nat>, byTokenHolder: map<(Token, Address), seq<nat>>,
                  byStorageSlot: map<(Address, nat), seq<nat>>, free: seq<nat>, i: nat)
    requires IndexesOk(ts, owners, byPoolToken, byTokenHolder, byStorageSlot, free) && i < |ts| && ts[i].active
    ensures var ts' := ts[i := ts[i].(active := false)];
            var pairs := byPoolToken - {(owners[i], ts[i].token)};
            && IndexesOk(ts', owners, pairs, DropKey(byTokenHolder, HolderKey(ts[i]), i), DropKey(byStorageSlot, SlotKey(ts[i]), i), free + [i])
            && ContentsOf(ts', pairs) == ContentsOf(ts, byPoolToken) - {(owners[i], ts[i].token)}
  {
    hide Inverse, Unique, FreeOk;
    DropKeys(ts, owners, i);
    FreeDropped(free, ts, i);
    assert PairKeys(ts, owners)[i] == Some((owners[i], ts[i].token));
    UniqueDrops(byPoolToken, PairKeys(ts, owners), i);
    assert HolderKeys(ts)[i] == HolderKey(ts[i]) && SlotKeys(ts)[i] == SlotKey(ts[i]);
    InverseDrops(byTokenHolder, HolderKeys(ts), i);
    InverseDrops(byStorageSlot, SlotKeys(ts), i);
  }

  class PoolLiquidityIndex {
    var targets: seq<Target>
    var byPoolToken: map<(Pool, Token), nat>
    var byTokenHolder: map<(Token, Address), seq<nat>>
    var byStorageSlot: map<(Address, nat), seq<nat>>
    var byPool: map<Pool, seq<nat>>
    var poolTokenCounts: map<Pool, nat>
    var freeTargets: seq<nat>
    ghost var owners: seq<Pool>

    ghost predicate Core()
      reads this`targets, this`owners, this`byPoolToken, this`byTokenHolder, this`byStorageSlot, this`freeTargets
    {
      IndexesOk(targets, owners, byPoolToken, byTokenHolder, byStorageSlot, freeTargets)
    }

    /** The reverse maps are exactly the inverse of the active targets. */
    ghost predicate Valid()
      reads this`targets, this`owners, this`byPoolToken, this`byTokenHolder, this`byStorageSlot, this`freeTargets, this`byPool
    {
      Core() && Inverse(byPool, PoolKeys(targets, owners))
    }

    ghost function Contents(): map<(Pool, Token), Tracked>
      reads this`targets, this`byPoolToken
    {
      ContentsOf(targets, byPoolToken)
    }

    constructor ()
      ensures Valid() && Contents() == map[] && byPoolToken == map[] && poolTokenCounts == map[]
    {
      targets, byPoolToken, byTokenHolder, byStorageSlot := [], map[], map[], map[];
      byPool, poolTokenCounts, freeTargets, owners := map[], map[], [], [];
      EmptyOk<(Token, Address)>();
      EmptyOk<(Address, nat)>();
      EmptyOk<Pool>();
      new;
      assert HolderKeys(targets) == [] && SlotKeys(targets) == [] && PoolKeys(targets, owners) == [];
    }

    /** An independent copy. */
    method Clone() returns (c: PoolLiquidityIndex)
      requires Valid()
      ensures fresh(c) && c.Valid() && c.Contents() == Contents()
    {
      hide IndexesOk, Inverse, ContentsOf;
      c := new PoolLiquidityIndex();
      c.targets, c.byPoolToken, c.byTokenHolder, c.byStorageSlot := targets, byPoolToken, byTokenHolder, byStorageSlot;
      c.byPool, c.poolTokenCounts, c.freeTargets, c.owners := byPool, poolTokenCounts, freeTargets, owners;
    }

    method PushTarget(pool: Pool, token: Token, source: Source, balance: Balance)
      requires Valid() && (pool, token) !in byPoolToken
      modifies this
      ensures Valid() && Contents() == old(Contents())[(pool, token) := Tracked.Tracked(source, balance)]
      ensures byPoolToken.Keys == old(byPoolToken).Keys + {(pool, token)}
      ensures poolTokenCounts == old(poolTokenCounts)
      ensures Placed(old(targets), old(freeTargets), targets, freeTargets, Target(token, source, balance, true))
    {
      hide Placed, IndexesOk, Inverse, ContentsOf, AddKey, Put, HolderKey, SlotKey, PoolKeys, NextIndex;
      var target := Target(token, source, balance, true);
      PushKeeps(targets, owners, byPoolToken, byTokenHolder, byStorageSlot, byPool, freeTargets, pool, target);
      var index := NextIndex(freeTargets, targets);
      CoreFree(targets, owners, byPoolToken, byTokenHolder, byStorageSlot, freeTargets);
      PutPlaces(targets, freeTargets, target);
      var free := if freeTargets == [] then [] else freeTargets[..|freeTargets| - 1];
      freeTargets, targets, owners, byPoolToken, byTokenHolder, byPool, byStorageSlot :=
        free, Put(targets, index, target), Put(owners, index, pool), byPoolToken[(pool, token) := index],
        AddKey(byTokenHolder, HolderKey(target), index), AddKey(byPool, Some(pool), index), AddKey(byStorageSlot, SlotKey(target), index);
    }

    /** Turn one active target into a tombstone. */
    method RemoveTarget(pool: Pool, index: nat)
      requires Core() && index < |targets| && targets[index].active && |owners| == |targets| && owners[index] == pool
      modifies this`targets, this`byPoolToken, this`byTokenHolder, this`byStorageSlot, this`freeTargets
      ensures Core() && targets == old(targets)[index := old(targets)[index].(active := false)]
      ensures Contents() == old(Contents()) - {(pool, targets[index].token)}
      ensures byPoolToken == old(byPoolToken) - {(pool, targets[index].token)}
    {
      hide IndexesOk, ContentsOf, DropKey, HolderKey, SlotKey;
      DropKeeps(targets, owners, byPoolToken, byTokenHolder, byStorageSlot, freeTargets, index);
      var target := targets[index];
      targets := targets[index := target.(active := false)];
      byPoolToken := byPoolToken - {(pool, target.token)};
      byTokenHolder := DropKey(byTokenHolder, HolderKey(target), index);
      byStorageSlot := DropKey(byStorageSlot, SlotKey(target), index);
      freeTargets := freeTargets + [index];
    }

    /** Drop everything tracked for `pool`. */
    method RemovePoolTargets(pool: Pool)
      requires Valid()
      modifies this
      ensures Valid() && Contents() == (map k | k in old(Contents()) && k.0 != pool :: old(Contents())[k])
      ensures forall k :: k in byPoolToken <==> k in old(byPoolToken) && k.0 != pool
      ensures poolTokenCounts == old(poolTokenCounts) - {pool}
    {
      hide IndexesOk, ContentsOf, Inverse, PoolKeys, Among, Buried, Cleared;
      poolTokenCounts := poolTokenCounts - {pool};
      CoreSizes(targets, owners, byPoolToken, byTokenHolder, byStorageSlot, freeTargets);
      PoolContents(targets, owners, byPoolToken, byTokenHolder, byStorageSlot, freeTargets, byPool, pool);
      BuriedStart(targets, pool);
      ClearedStart(Contents(), targets, pool);
      ClearedStart(byPoolToken, targets, pool);
      if pool !in byPool {
        ClearedAll(Contents(), Contents(), targets, pool, []);
        return;
      }
      var indices := byPool[pool];
      byPool := byPool - {pool};
      PoolList(targets, owners, old(byPool), pool);
      for k := 0 to |indices|
        modifies this`targets, this`byPoolToken, this`byTokenHolder, this`byStorageSlot, this`freeTargets
        invariant Core() && Buried(old(targets), targets, indices[..k])
        invariant Cleared(old(Contents()), Contents(), old(targets), pool, indices[..k])
        invariant Cleared(old(byPoolToken), byPoolToken, old(targets), pool, indices[..k])
      {
        assert indices[k] in indices;
        BuriedStep(old(targets), targets, indices, k);
        ClearedStep(old(Contents()), Contents(), old(targets), pool, indices, k);
        ClearedStep(old(byPoolToken), byPoolToken, old(targets), pool, indices, k);
        RemoveTarget(pool, indices[k]);
      }
      assert indices[..|indices|] == indices;
      ClearedAll(old(Contents()), Contents(), old(targets), pool, indices);
      ClearedAll(old(byPoolToken), byPoolToken, old(targets), pool, indices);
      PoolGone(old(targets), targets, owners, old(byPool), pool);
    }

    /** A storage word changed: refresh exactly the targets that word backs. */
    method UpdateSlotValue(address: Address, slot: nat, value: nat) returns (updated: nat)
      requires Valid()
      modifies this`targets
      ensures Valid() && |targets| == |old(targets)|
      ensures forall i :: 0 <= i < |targets| ==> targets[i] == Written(old(targets)[i], (address, slot), value)
      ensures forall i :: 0 <= i < |targets| ==> Refreshes(old(targets)[i], targets[i], address, slot, value)
      ensures updated == |BackedBy(old(targets), address, slot)|
    {
      hide IndexesOk, Inverse, StorageSlot, Refreshes, BackedBy;
      updated := 0;
      WrittenRefreshes(targets, address, slot, value);
      CountBacked(targets, owners, byPoolToken, byTokenHolder, byStorageSlot, freeTargets, address, slot);
      SlotList(targets, owners, byPoolToken, byTokenHolder, byStorageSlot, freeTargets, (address, slot));
      if (address, slot) !in byStorageSlot { return; }
      var indices := byStorageSlot[(address, slot)];
      for k := 0 to |indices|
        invariant |targets| == |old(targets)| && updated == k
        invariant forall i :: 0 <= i < |targets| ==> targets[i] == if i in indices[..k] then Written(old(targets)[i], (address, slot), value) else old(targets)[i]
      {
        assert indices[k] in indices && indices[..k + 1] == indices[..k] + [indices[k]];
        BackedSource(old(targets)[indices[k]], (address, slot));
        var target := targets[indices[k]];
        if !target.source.NoSource? {
          targets := targets[indices[k] := target.(balance := Fresh(if target.source.Erc20? then value else DecodeCash(value, target.source.high)))];
          updated := updated + 1;
        }
      }
      assert indices[..|indices|] == indices;
      BalancesOnly(old(targets), targets, owners, byPoolToken, byTokenHolder, byStorageSlot, freeTargets, byPool);
    }

    /** Record the storage slot of a token's balance at a holder. The indexes stay exact if and only
        if no target of that balance already had another slot. */
    method SetErc20Slot(token: Token, holder: Address, slot: nat)
      requires Valid()
      modifies this`targets, this`byStorageSlot
      ensures |targets| == |old(targets)|
      ensures forall i :: 0 <= i < |targets| ==> Discovers(old(targets)[i], targets[i], token, holder, slot)
      ensures forall i :: 0 <= i < |targets| ==> targets[i] == Reslotted(old(targets)[i], token, holder, slot)
      ensures Valid() <==> NoReassignment(old(targets), token, holder, slot)
      ensures SlotsUpTo(old(byStorageSlot), byStorageSlot, (token, slot), Lookup(byTokenHolder, (token, holder)))
    {
      hide IndexesOk, Inverse, NoReassignment, SlotsUpTo, SlotKeys;
      HolderList(targets, owners, byPoolToken, byTokenHolder, byStorageSlot, freeTargets, (token, holder));
      var indices := Lookup(byTokenHolder, (token, holder));
      SlotsStart(byStorageSlot, targets, (token, slot));
      for k := 0 to |indices|
        invariant |targets| == |old(targets)|
        invariant forall i :: 0 <= i < |targets| ==> targets[i] == if i in indices[..k] then Reslotted(old(targets)[i], token, holder, slot) else old(targets)[i]
        invariant SlotsUpTo(old(byStorageSlot), byStorageSlot, (token, slot), indices[..k])
      {
        var index := indices[k];
        assert index in indices && index !in indices[..k] && indices[..k + 1] == indices[..k] + [index];
        ReslottedHolder(old(targets)[index], token, holder, slot);
        SlotsStep(old(byStorageSlot), byStorageSlot, (token, slot), indices[..k], index);
        targets := targets[index := targets[index].(source := Erc20(holder, Some(slot)))];
        if index !in Lookup(byStorageSlot, (token, slot)) {
          byStorageSlot := byStorageSlot[(token, slot) := Lookup(byStorageSlot, (token, slot)) + [index]];
        }
      }
      assert indices[..|indices|] == indices;
      ReslottingExact(old(targets), targets, owners, byPoolToken, byTokenHolder, old(byStorageSlot), byStorageSlot, freeTargets, byPool, token, holder, slot);
    }
  }

  lemma CoreSizes(ts: seq<Target>, owners: seq<Pool>, byPoolToken: map<(Pool, Token), nat>, byTokenHolder: map<(Token, Address), seq<nat>>,
                  byStorageSlot: map<(Address, nat), seq<nat>>, free: seq<nat>)
    requires IndexesOk(ts, owners, byPoolToken, byTokenHolder, byStorageSlot, free)
    ensures |ts| == |owners| && ContentsOf(ts, byPoolToken).Keys == byPoolToken.Keys
  {
  }

  /** The key `q` belongs to one of the listed targets of `pool`. */
  ghost predicate Among(ts: seq<Target>, pool: Pool, indices: seq<nat>, q: (Pool, Token)) {
    exists i :: i in indices && i < |ts| && q == (pool, ts[i].token)
  }

  /** `now` is `before` with the listed targets inactive. */
  ghost predicate Buried(before: seq<Target>, now: seq<Target>, indices: seq<nat>) {
    |now| == |before| && forall i :: 0 <= i < |now| ==> now[i] == if i in indices then before[i].(active := false) else before[i]
  }

  /** What the pool's list says: distinct active positions owned by the pool. */
  lemma PoolList(ts: seq<Target>, owners: seq<Pool>, byPool: map<Pool, seq<nat>>, pool: Pool)
    requires |ts| == |owners| && Inverse(byPool, PoolKeys(ts, owners)) && pool in byPool
    ensures Distinct(byPool[pool])
    ensures forall i :: i in byPool[pool] ==> i < |ts| && ts[i].active && owners[i] == pool
    ensures forall i :: 0 <= i < |ts| && ts[i].active && owners[i] == pool ==> i in byPool[pool]
  {
    forall i: nat ensures i in byPool[pool] <==> i < |ts| && ts[i].active && owners[i] == pool {
      InverseAt(byPool, PoolKeys(ts, owners), pool, i);
    }
  }

  lemma BuriedStart(ts: seq<Target>, pool: Pool)
    ensures Buried(ts, ts, [])
  {
  }

  /** `now` is `before` without the keys of the listed targets. */
  ghost predicate Cleared<V>(before: map<(Pool, Token), V>, now: map<(Pool, Token), V>, ts: seq<Target>, pool: Pool, indices: seq<nat>) {
    now == map q | q in before && !Among(ts, pool, indices, q) :: before[q]
  }

  lemma ClearedStart<V>(m: map<(Pool, Token), V>, ts: seq<Target>, pool: Pool)
    ensures Cleared(m, m, ts, pool, [])
  {
  }

  lemma ClearedStep<V>(before: map<(Pool, Token), V>, now: map<(Pool, Token), V>, ts: seq<Target>, pool: Pool, indices: seq<nat>, k: nat)
    requires k < |indices| && indices[k] < |ts| && Cleared(before, now, ts, pool, indices[..k])
    ensures Cleared(before, now - {(pool, ts[indices[k]].token)}, ts, pool, indices[..k + 1])
  {
    hide Among;
    AmongGrows(ts, pool, indices, k);
  }

  lemma ClearedAll<V>(before: map<(Pool, Token), V>, now: map<(Pool, Token), V>, ts: seq<Target>, pool: Pool, indices: seq<nat>)
    requires Cleared(before, now, ts, pool, indices) && forall q :: q in before ==> (q.0 == pool <==> Among(ts, pool, indices, q))
    ensures now == map q | q in before && q.0 != pool :: before[q]
  {
    hide Among;
  }

  lemma AmongGrows(ts: seq<Target>, pool: Pool, indices: seq<nat>, k: nat)
    requires k < |indices| && indices[k] < |ts|
    ensures forall q :: Among(ts, pool, indices[..k + 1], q) <==> Among(ts, pool, indices[..k], q) || q == (pool, ts[indices[k]].token)
  {
    assert indices[..k + 1] == indices[..k] + [indices[k]];
    assert forall i :: i in indices[..k + 1] <==> i in indices[..k] || i == indices[k];
  }

  lemma BuriedStep(before: seq<Target>, now: seq<Target>, indices: seq<nat>, k: nat)
    requires k < |indices| && indices[k] < |before| && Distinct(indices) && Buried(before, now, indices[..k])
    ensures |now| == |before| && now[indices[k]] == before[indices[k]]
    ensures Buried(before, now[indices[k] := now[indices[k]].(active := false)], indices[..k + 1])
  {
  }

  /** The keys of a pool are exactly those of its listed targets. */
  lemma PoolContents(ts: seq<Target>, owners: seq<Pool>, byPoolToken: map<(Pool, Token), nat>, byTokenHolder: map<(Token, Address), seq<nat>>,
                     byStorageSlot: map<(Address, nat), seq<nat>>, free: seq<nat>, byPool: map<Pool, seq<nat>>, pool: Pool)
    requires IndexesOk(ts, owners, byPoolToken, byTokenHolder, byStorageSlot, free) && Inverse(byPool, PoolKeys(ts, owners))
    ensures forall q :: q in byPoolToken ==> (q.0 == pool <==> Among(ts, pool, Lookup(byPool, pool), q))
  {
    hide FreeOk, HolderKeys, SlotKeys;
    forall q | q in byPoolToken ensures q.0 == pool <==> Among(ts, pool, Lookup(byPool, pool), q) {
      var i := byPoolToken[q];
      assert PairKeys(ts, owners)[i] == Some(q);
      assert PoolKeys(ts, owners)[i] == Some(q.0);
      InverseAt(byPool, PoolKeys(ts, owners), q.0, i);
    }
  }

  lemma PoolGone(before: seq<Target>, now: seq<Target>, owners: seq<Pool>, byPool: map<Pool, seq<nat>>, pool: Pool)
    requires |before| == |owners| && Inverse(byPool, PoolKeys(before, owners)) && pool in byPool && Buried(before, now, byPool[pool])
    ensures Inverse(byPool - {pool}, PoolKeys(now, owners))
  {
    PoolList(before, owners, byPool, pool);
    forall k, i: nat ensures i in Lookup(byPool - {pool}, k) <==> i < |PoolKeys(now, owners)| && PoolKeys(now, owners)[i] == Some(k) {
      InverseAt(byPool, PoolKeys(before, owners), k, i);
    }
  }

  // ---- storage writes ----

  function Decoded(source: Source, word: nat): nat {
    if source.VaultCash? then DecodeCash(word, source.high) else word
  }

  /** A target after the word at `key` became `value`. */
  function Written(t: Target, key: (Address, nat), value: nat): Target {
    if SlotKey(t) == Some(key) then t.(balance := Fresh(Decoded(t.source, value))) else t
  }

  /** The target's balance is read from this word: the token's own mapping slot, or the vault's word. */
  ghost predicate ReadsWord(t: Target, address: Address, slot: nat) {
    t.active && match t.source
                case Erc20(_, s) => t.token == address && s == Some(slot)
                case VaultCash(vault, s, _) => vault == address && s == slot
                case NoSource => false
  }

  /** What a write of `value` at the word makes of a target: a balance read from that word is fresh, the
      whole value, or the low or high 112 bits of it; nothing else changes. */
  ghost predicate Refreshes(t: Target, t': Target, address: Address, slot: nat, value: nat) {
    if !ReadsWord(t, address, slot) then t' == t
    else match t.source
      case VaultCash(_, _, false) => t' == t.(balance := Fresh(value % 0x1_0000_0000_0000_0000_0000_0000_0000))
      case VaultCash(_, _, true) =>
        t' == t.(balance := Fresh(value / 0x1_0000_0000_0000_0000_0000_0000_0000 % 0x1_0000_0000_0000_0000_0000_0000_0000))
      case _ => t' == t.(balance := Fresh(value))
  }

  ghost function BackedBy(ts: seq<Target>, address: Address, slot: nat): set<nat> {
    set i: nat | i < |ts| && ReadsWord(ts[i], address, slot)
  }

  lemma WrittenRefreshes(ts: seq<Target>, address: Address, slot: nat, value: nat)
    ensures forall i :: 0 <= i < |ts| ==> Refreshes(ts[i], Written(ts[i], (address, slot), value), address, slot, value)
  {
  }

  lemma CountBacked(ts: seq<Target>, owners: seq<Pool>, byPoolToken: map<(Pool, Token), nat>, byTokenHolder: map<(Token, Address), seq<nat>>,
                    byStorageSlot: map<(Address, nat), seq<nat>>, free: seq<nat>, address: Address, slot: nat)
    requires IndexesOk(ts, owners, byPoolToken, byTokenHolder, byStorageSlot, free)
    ensures |Lookup(byStorageSlot, (address, slot))| == |BackedBy(ts, address, slot)|
  {
    hide IndexesOk;
    SlotList(ts, owners, byPoolToken, byTokenHolder, byStorageSlot, free, (address, slot));
    var list := Lookup(byStorageSlot, (address, slot));
    ListSize(list, BackedBy(ts, address, slot));
  }

  lemma {:induction false} ListSize(list: seq<nat>, members: set<nat>)
    requires Distinct(list) && forall i: nat :: i in members <==> i in list
    ensures |members| == |list|
  {
    if list != [] {
      var n := |list| - 1;
      assert list == list[..n] + [list[n]];
      ListSize(list[..n], members - {list[n]});
    }
  }

  lemma BackedSource(t: Target, key: (Address, nat))
    requires SlotKey(t) == Some(key)
    ensures !t.source.NoSource? && t.active
  {
  }

  lemma SlotList(ts: seq<Target>, owners: seq<Pool>, byPoolToken: map<(Pool, Token), nat>, byTokenHolder: map<(Token, Address), seq<nat>>,
                 byStorageSlot: map<(Address, nat), seq<nat>>, free: seq<nat>, key: (Address, nat))
    requires IndexesOk(ts, owners, byPoolToken, byTokenHolder, byStorageSlot, free)
    ensures Distinct(Lookup(byStorageSlot, key))
    ensures forall i: nat :: i in Lookup(byStorageSlot, key) <==> i < |ts| && SlotKey(ts[i]) == Some(key)
  {
    hide SlotKey, FreeOk, Unique;
    forall i: nat ensures i in Lookup(byStorageSlot, key) <==> i < |ts| && SlotKey(ts[i]) == Some(key) {
      InverseAt(byStorageSlot, SlotKeys(ts), key, i);
    }
  }

  lemma HolderList(ts: seq<Target>, owners: seq<Pool>, byPoolToken: map<(Pool, Token), nat>, byTokenHolder: map<(Token, Address), seq<nat>>,
                   byStorageSlot: map<(Address, nat), seq<nat>>, free: seq<nat>, key: (Token, Address))
    requires IndexesOk(ts, owners, byPoolToken, byTokenHolder, byStorageSlot, free)
    ensures Distinct(Lookup(byTokenHolder, key)) && Inverse(byStorageSlot, SlotKeys(ts))
    ensures forall i: nat :: i in Lookup(byTokenHolder, key) <==> i < |ts| && HolderKey(ts[i]) == Some(key)
  {
    hide HolderKey, FreeOk, Unique;
    forall i: nat ensures i in Lookup(byTokenHolder, key) <==> i < |ts| && HolderKey(ts[i]) == Some(key) {
      InverseAt(byTokenHolder, HolderKeys(ts), key, i);
    }
  }

  /** Changing balances alone leaves every index exact. */
  lemma BalancesOnly(ts: seq<Target>, ts': seq<Target>, owners: seq<Pool>, byPoolToken: map<(Pool, Token), nat>, byTokenHolder: map<(Token, Address), seq<nat>>,
                     byStorageSlot: map<(Address, nat), seq<nat>>, free: seq<nat>, byPool: map<Pool, seq<nat>>)
    requires IndexesOk(ts, owners, byPoolToken, byTokenHolder, byStorageSlot, free) && Inverse(byPool, PoolKeys(ts, owners))
    requires |ts| == |ts'| && forall i :: 0 <= i < |ts| ==> ts'[i] == ts[i].(balance := ts'[i].balance)
    ensures IndexesOk(ts', owners, byPoolToken, byTokenHolder, byStorageSlot, free) && Inverse(byPool, PoolKeys(ts', owners))
  {
    hide Inverse, Unique;
    assert HolderKeys(ts') == HolderKeys(ts);
    assert SlotKeys(ts') == SlotKeys(ts);
    assert PoolKeys(ts', owners) == PoolKeys(ts, owners);
    assert PairKeys(ts', owners) == PairKeys(ts, owners);
  }

  // ---- slot discovery ----

  /** A target after the slot of `token` at `holder` became known. */
  function Reslotted(t: Target, token: Token, holder: Address, slot: nat): Target {
    if HolderKey(t) == Some((token, holder)) then t.(source := Erc20(holder, Some(slot))) else t
  }

  /** What discovering the slot makes of a target: an active balance of that token at that holder is tied to
      the slot, everything else stays. */
  ghost predicate Discovers(t: Target, t': Target, token: Token, holder: Address, slot: nat) {
    if t.active && t.token == token && t.source.Erc20? && t.source.holder == holder
    then t' == Target(token, Erc20(holder, Some(slot)), t.balance, true)
    else t' == t
  }

  lemma ReslottedHolder(t: Target, token: Token, holder: Address, slot: nat)
    requires HolderKey(t) == Some((token, holder))
    ensures t.active && t.source.Erc20? && t.token == token && Reslotted(t, token, holder, slot) == t.(source := Erc20(holder, Some(slot)))
  {
  }

  /** No active target of this balance is already tied to a different slot. */
  ghost predicate NoReassignment(ts: seq<Target>, token: Token, holder: Address, slot: nat) {
    forall i :: 0 <= i < |ts| && HolderKey(ts[i]) == Some((token, holder)) ==> ts[i].source.slot == None || ts[i].source.slot == Some(slot)
  }

  /** Only the list of `key` changed, and it now also holds `added`. */
  ghost predicate SlotsUpTo(before: map<(Address, nat), seq<nat>>, now: map<(Address, nat), seq<nat>>, key: (Address, nat), added: seq<nat>) {
    && (forall k :: k != key ==> (k in now <==> k in before) && Lookup(now, k) == Lookup(before, k))
    && (forall k :: k in now ==> now[k] != [] && Distinct(now[k]))
    && (forall i :: i in Lookup(now, key) <==> i in Lookup(before, key) || i in added)
  }

  lemma SlotsStart(m: map<(Address, nat), seq<nat>>, ts: seq<Target>, key: (Address, nat))
    requires Inverse(m, SlotKeys(ts))
    ensures SlotsUpTo(m, m, key, [])
  {
  }

  lemma SlotsStep(before: map<(Address, nat), seq<nat>>, now: map<(Address, nat), seq<nat>>, key: (Address, nat), added: seq<nat>, i: nat)
    requires SlotsUpTo(before, now, key, added)
    ensures SlotsUpTo(before, if i in Lookup(now, key) then now else now[key := Lookup(now, key) + [i]], key, added + [i])
  {
    var now' := if i in Lookup(now, key) then now else now[key := Lookup(now, key) + [i]];
    forall k ensures k != key ==> Lookup(now', k) == Lookup(now, k) {
    }
  }

  /** Without reassignment a position carries `k` afterwards if it did before or was listed for it. */
  lemma SlotAfter(ts: seq<Target>, listed: seq<nat>, token: Token, holder: Address, slot: nat, k: (Address, nat), i: nat)
    requires NoReassignment(ts, token, holder, slot)
    requires forall j: nat :: j in listed <==> j < |ts| && HolderKey(ts[j]) == Some((token, holder))
    ensures i < |ts| ==> (SlotKey(Reslotted(ts[i], token, holder, slot)) == Some(k) <==> SlotKey(ts[i]) == Some(k) || (k == (token, slot) && i in listed))
  {
  }

  /** The decisive case split of slot discovery. */
  lemma ReslottedSlots(ts: seq<Target>, ts': seq<Target>, before: map<(Address, nat), seq<nat>>, now: map<(Address, nat), seq<nat>>, listed: seq<nat>, token: Token, holder: Address, slot: nat)
    requires Inverse(before, SlotKeys(ts)) && SlotsUpTo(before, now, (token, slot), listed)
    requires forall i: nat :: i in listed <==> i < |ts| && HolderKey(ts[i]) == Some((token, holder))
    requires |ts'| == |ts| && forall i :: 0 <= i < |ts| ==> ts'[i] == Reslotted(ts[i], token, holder, slot)
    ensures Inverse(now, SlotKeys(ts')) <==> NoReassignment(ts, token, holder, slot)
  {
    if NoReassignment(ts, token, holder, slot) {
      var keys := SlotKeys(ts');
      forall k, i: nat ensures i in Lookup(now, k) <==> i < |keys| && keys[i] == Some(k) {
        InverseAt(before, SlotKeys(ts), k, i);
        SlotAfter(ts, listed, token, holder, slot, k, i);
      }
    } else {
      var i :| 0 <= i < |ts| && HolderKey(ts[i]) == Some((token, holder)) && ts[i].source.slot != None && ts[i].source.slot != Some(slot);
      var other := (token, ts[i].source.slot.value);
      assert SlotKeys(ts)[i] == Some(other) && SlotKeys(ts')[i] == Some((token, slot));
      InverseAt(before, SlotKeys(ts), other, i);
      assert i in Lookup(now, other);
    }
  }

  lemma ReslottingExact(ts: seq<Target>, ts': seq<Target>, owners: seq<Pool>, byPoolToken: map<(Pool, Token), nat>, byTokenHolder: map<(Token, Address), seq<nat>>,
                        before: map<(Address, nat), seq<nat>>, now: map<(Address, nat), seq<nat>>, free: seq<nat>, byPool: map<Pool, seq<nat>>,
                        token: Token, holder: Address, slot: nat)
    requires IndexesOk(ts, owners, byPoolToken, byTokenHolder, before, free) && Inverse(byPool, PoolKeys(ts, owners))
    requires |ts'| == |ts| && forall i :: 0 <= i < |ts| ==> ts'[i] == Reslotted(ts[i], token, holder, slot)
    requires SlotsUpTo(before, now, (token, slot), Lookup(byTokenHolder, (token, holder)))
    ensures IndexesOk(ts', owners, byPoolToken, byTokenHolder, now, free) && Inverse(byPool, PoolKeys(ts', owners)) <==> NoReassignment(ts, token, holder, slot)
  {
    hide Inverse, Unique, NoReassignment, SlotsUpTo, SlotKeys;
    HolderList(ts, owners, byPoolToken, byTokenHolder, before, free, (token, holder));
    assert HolderKeys(ts') == HolderKeys(ts);
    assert PoolKeys(ts', owners) == PoolKeys(ts, owners);
    assert PairKeys(ts', owners) == PairKeys(ts, owners);
    ReslottedSlots(ts, ts', before, now, Lookup(byTokenHolder, (token, holder)), token, holder, slot);
  }

  /** Reassigning a slot breaks the indexes: after two discoveries the old word still lists the target,
      so a write to it would refresh a balance it no longer backs. */
  method ReassignmentExample(pool: Pool, token: Token, holder: Address, first: nat, second: nat) returns (index: PoolLiquidityIndex, i: nat)
    requires first != second
    ensures fresh(index) && !index.Valid()
    ensures i < |index.targets| && StorageSlot(index.targets[i]) == Some((token, second)) && i in Lookup(index.byStorageSlot, (token, first))
  {
    hide IndexesOk, Inverse, ContentsOf;
    index := new PoolLiquidityIndex();
    index.PushTarget(pool, token, Erc20(holder, None), Unknown);
    i := index.byPoolToken[(pool, token)];
    OnlyTarget(index, pool, token);
    index.SetErc20Slot(token, holder, first);
    assert index.Valid();
    ListedUnder(index, i, (token, first));
    assert HolderKey(index.targets[i]) == Some((token, holder));
    index.SetErc20Slot(token, holder, second);
  }

  /** The one entry of an index stands for its one active target. */
  lemma OnlyTarget(index: PoolLiquidityIndex, pool: Pool, token: Token)
    requires index.Valid() && index.byPoolToken.Keys == {(pool, token)}
    ensures var i := index.byPoolToken[(pool, token)];
            && i < |index.targets| && index.targets[i].active && index.targets[i].token == token
            && (pool, token) in index.Contents() && index.targets[i].source == index.Contents()[(pool, token)].source
            && forall j :: 0 <= j < |index.targets| && j != i ==> !index.targets[j].active
  {
    hide Inverse, FreeOk;
    var keys := PairKeys(index.targets, index.owners);
    var i := index.byPoolToken[(pool, token)];
    assert keys[i] == Some((pool, token));
    forall j | 0 <= j < |index.targets| && index.targets[j].active ensures j == i {
      assert keys[j] == Some((index.owners[j], index.targets[j].token));
      assert keys[j].value in index.byPoolToken.Keys;
    }
  }

  lemma ListedUnder(index: PoolLiquidityIndex, i: nat, key: (Address, nat))
    requires index.Valid() && i < |index.targets| && SlotKey(index.targets[i]) == Some(key)
    ensures i in Lookup(index.byStorageSlot, key)
  {
    hide Inverse, FreeOk, Unique;
    InverseAt(index.byStorageSlot, SlotKeys(index.targets), key, i);
  }
}
