/** The stored chain: what the rows of blocks look like in every reachable state, and what keeps it so. */
module Chain {
  import opened Outcomes
  import opened Node
  import opened Schema
  import opened Batch
  import opened Spaces
  import opened Store
  import opened Sync

  /**
   * The rows with height >= 0 are one parent-linked chain from the base height, one row per height. The rows from
   * place kept on are flagged as orphans but still hold their heights, as a crash between the two orphan updates
   * leaves them. All other rows are orphans at -2, besides the sentinel at -1.
   */
  ghost predicate Holds(w: World, t: Tables, base: nat, chain: seq<Hash>, kept: nat)
  {
    && kept <= |chain|
    && Path(w, base, chain)
    && DEADBEEF in t.blocks && t.blocks[DEADBEEF] == BlockRow(-1, false)
    && (forall i | 0 <= i < |chain| :: chain[i] in t.blocks && t.blocks[chain[i]] == BlockRow(base + i, i >= kept))
    && (forall b | b in t.blocks && b != DEADBEEF ::
          b in w.tree && (t.blocks[b] == BlockRow(-2, true) || OnChain(t, base, chain, b)))
  }

  predicate OnChain(t: Tables, base: nat, chain: seq<Hash>, b: Hash)
    requires b in t.blocks
  {
    base <= t.blocks[b].height < base + |chain| && chain[t.blocks[b].height - base] == b
  }

  /** No orphan update is pending. */
  ghost predicate Settled(w: World, t: Tables, base: nat, chain: seq<Hash>)
  {
    Holds(w, t, base, chain, |chain|)
  }

  ghost predicate HasChain(w: World, t: Tables, base: nat)
  {
    exists chain, kept :: Holds(w, t, base, chain, kept)
  }

  lemma HoldsPath(w: World, t: Tables, base: nat, chain: seq<Hash>, kept: nat)
    requires Holds(w, t, base, chain, kept)
    ensures Path(w, base, chain)
  {
  }

  // ---- Reads ---------------------------------------------------------------------------

  lemma TopHeight(w: World, t: Tables, base: nat, chain: seq<Hash>, kept: nat)
    requires Holds(w, t, base, chain, kept)
    ensures MaxHeight(t.blocks) == if chain == [] then -1 else base + |chain| - 1
  {
    var m := MaxHeight(t.blocks);
    assert DEADBEEF in t.blocks;
    if chain != [] {
      var top := chain[|chain| - 1];
      assert top in t.blocks && t.blocks[top].height == base + |chain| - 1;
    }
  }

  lemma RowOnChain(w: World, t: Tables, base: nat, chain: seq<Hash>, kept: nat, h: nat)
    requires Holds(w, t, base, chain, kept)
    ensures RowAt(t.blocks, h) == if base <= h < base + |chain| then Some(chain[h - base]) else None
  {
    if base <= h < base + |chain| {
      assert t.blocks[chain[h - base]].height == h;
    }
  }

  // ---- Orphan updates ------------------------------------------------------------------

  function Min(a: int, b: int): int { if a < b then a else b }

  lemma FlaggedHolds(w: World, t: Tables, base: nat, chain: seq<Hash>, kept: nat, h: nat)
    requires Holds(w, t, base, chain, kept) && base <= h
    ensures Holds(w, Flagged(t, h), base, chain, Min(kept, h + 1 - base))
  {
    hide Path;
    var u := Flagged(t, h);
    forall i | 0 <= i < |chain|
      ensures chain[i] in u.blocks && u.blocks[chain[i]] == BlockRow(base + i, i >= Min(kept, h + 1 - base))
    {
      assert t.blocks[chain[i]] == BlockRow(base + i, i >= kept);
    }
    forall b | b in u.blocks && b != DEADBEEF
      ensures b in w.tree && (u.blocks[b] == BlockRow(-2, true) || OnChain(u, base, chain, b))
    {
      assert t.blocks[b] == BlockRow(-2, true) || OnChain(t, base, chain, b);
    }
  }

  lemma BuriedHolds(w: World, t: Tables, base: nat, chain: seq<Hash>, kept: nat)
    requires Holds(w, t, base, chain, kept)
    ensures Settled(w, Buried(t), base, chain[..kept])
  {
    forall b | b in t.blocks && b != DEADBEEF && Buried(t).blocks[b] != BlockRow(-2, true)
      ensures OnChain(Buried(t), base, chain[..kept], b)
    {
      assert OnChain(t, base, chain, b);
    }
  }

  // ---- The scan, against any sequence of node states -----------------------------------

  lemma RestValid(w: World, s: Script)
    requires ValidScript(w, s)
    ensures ValidScript(w, Rest(s))
  {
  }

  /** The node always agrees on the genesis block. */
  lemma GenesisAgrees(w: World, t: Tables, chain: seq<Hash>, kept: nat, s: Script)
    requires ValidWorld(w) && ValidScript(w, s) && Holds(w, t, 0, chain, kept) && chain != []
    ensures BlockHashAnswer(s, 0).Ok? ==> BlockHashAnswer(s, 0).value == chain[0]
  {
    if BlockHashAnswer(s, 0).Ok? {
      assert w.tree[s[0].active[0]].height == 0 && w.tree[chain[0]].height == 0;
    }
  }

  /** The possible outcomes of the scan from height h. */
  ghost predicate ScanOutcome(w: World, t: Tables, base: nat, chain: seq<Hash>, h: int, out: Out<Head>)
  {
    && ValidScript(w, out.s)
    && match out.result
       case Ok(Head(k, Some(hash))) => base <= k <= h && k < base + |chain| && hash == chain[k - base]
         && out.t == Buried(Flagged(t, k))
       case Ok(Head(k, None)) => k == -1 && h < 0 && out.t == t
       case Err(_) => out.t == t || exists k | base <= k <= h :: out.t == Flagged(t, k)
  }

  lemma SettleOutcome(w: World, t: Tables, base: nat, chain: seq<Hash>, h: int, s: Script)
    requires ValidScript(w, s) && base <= h < base + |chain|
    ensures ScanOutcome(w, t, base, chain, h, Settle(t, h, chain[h - base], s))
  {
    hide Flagged, Buried;
    RestValid(w, s);
    RestValid(w, Rest(s));
  }

  lemma OutcomeBelow(w: World, t: Tables, base: nat, chain: seq<Hash>, h: int, out: Out<Head>)
    requires ScanOutcome(w, t, base, chain, h - 1, out) && h > 0
    ensures ScanOutcome(w, t, base, chain, h, out)
  {
    hide Flagged, Buried, ValidScript;
  }

  lemma OutcomeUnchanged(w: World, t: Tables, base: nat, chain: seq<Hash>, h: int, out: Out<Head>)
    requires ValidScript(w, out.s) && out.t == t && (out.result.Err? || (h < 0 && out.result == Ok(Head(-1, None))))
    ensures ScanOutcome(w, t, base, chain, h, out)
  {
    hide Flagged, Buried, ValidScript;
  }

  lemma {:induction false} ScanOutcomes(w: World, t: Tables, base: nat, chain: seq<Hash>, kept: nat, h: int, s: Script)
    requires ValidWorld(w) && ValidScript(w, s)
    requires Holds(w, t, base, chain, kept) && h < base + |chain|
    ensures ScanOutcome(w, t, base, chain, h, Scan(t, h, s))
    decreases h + 1
  {
    hide Flagged, Buried, Settle, Holds, ValidWorld, ValidScript, RowAt, ScanOutcome, BlockHashAnswer;
    RestValid(w, s);
    RestValid(w, Rest(s));
    var out := Scan(t, h, s);
    var answer := BlockHashAnswer(Rest(s), h);
    var s2 := Rest(Rest(s));
    if h >= 0 {
      RowOnChain(w, t, base, chain, kept, h);
    }
    if h < base || !Live(s) || answer.Err? {
      OutcomeUnchanged(w, t, base, chain, h, out);
    } else if answer.value == chain[h - base] {
      SettleOutcome(w, t, base, chain, h, s2);
    } else {
      if h == 0 {
        GenesisAgrees(w, t, chain, kept, Rest(s));
      }
      ScanOutcomes(w, t, base, chain, kept, h - 1, s2);
      OutcomeBelow(w, t, base, chain, h, out);
    }
  }

  /** The outcomes of GetSyncedHead in a reachable state. */
  lemma HeadOutcomes(w: World, t: Tables, base: nat, chain: seq<Hash>, kept: nat, s: Script)
    requires ValidWorld(w) && ValidScript(w, s) && Holds(w, t, base, chain, kept)
    ensures ScanOutcome(w, t, base, chain, if chain == [] then -1 else base + |chain| - 1, GetSyncedHeadSpec(t, s))
  {
    TopHeight(w, t, base, chain, kept);
    RestValid(w, s);
    if Live(s) {
      ScanOutcomes(w, t, base, chain, kept, MaxHeight(t.blocks), Rest(s));
    }
  }

  /**
   * However GetSyncedHead ends, the chain survives up to the matched row, or as a whole with its upper part flagged.
   */
  lemma HeadKeepsChain(w: World, t: Tables, base: nat, chain: seq<Hash>, kept: nat, s: Script)
    requires ValidWorld(w) && ValidScript(w, s) && Holds(w, t, base, chain, kept)
    ensures var out := GetSyncedHeadSpec(t, s);
      match out.result
      case Ok(Head(k, Some(hash))) =>
        0 <= k - base < |chain| && hash == chain[k - base] && Settled(w, out.t, base, chain[..Min(kept, k + 1 - base)])
      case Ok(Head(k, None)) => k == -1 && chain == [] && out.t == t
      case Err(_) => exists kept1: nat :: kept1 <= kept && Holds(w, out.t, base, chain, kept1)
  {
    hide Holds, Flagged, Buried, GetSyncedHeadSpec, ValidWorld, ValidScript;
    HeadOutcomes(w, t, base, chain, kept, s);
    HoldsSize(w, t, base, chain, kept);
    var out := GetSyncedHeadSpec(t, s);
    match out.result {
      case Ok(Head(_, None)) =>
      case Ok(Head(k, Some(hash))) =>
        FlaggedHolds(w, t, base, chain, kept, k);
        BuriedHolds(w, Flagged(t, k), base, chain, Min(kept, k + 1 - base));
      case Err(_) =>
        if out.t != t {
          var k :| base <= k < base + |chain| && out.t == Flagged(t, k);
          FlaggedHolds(w, t, base, chain, kept, k);
        }
    }
  }

  lemma HoldsSize(w: World, t: Tables, base: nat, chain: seq<Hash>, kept: nat)
    requires Holds(w, t, base, chain, kept)
    ensures kept <= |chain|
  {
  }

  // ---- The forward walk ----------------------------------------------------------------

  /** A committed StoreBlock changes the block's own row only, and found its height free. */
  lemma StoredRow(w: World, cfg: Config, t: Tables, b: Block, s: Script)
    requires b.hash in w.tree && StoreBlockSpec(w, cfg, t, b, s).result.Ok?
    ensures CanUpsert(t, b.hash, b.height)
    ensures StoreBlockSpec(w, cfg, t, b, s).t.blocks == t.blocks[b.hash := BlockRow(b.height, false)]
  {
    var u := Upserted(t, b.hash, b.height);
    CopyRowsFrame(u, BatchOf(b.txs, b.hash));
    InsertRowsExactly(BitcoinBlockStored(t, b).t, BlockMetaRows(b.hash, w.tree[b.hash].meta));
  }

  lemma StoreScript(w: World, cfg: Config, t: Tables, b: Block, s: Script)
    requires b.hash in w.tree && ValidScript(w, s)
    ensures ValidScript(w, StoreBlockSpec(w, cfg, t, b, s).s)
  {
    RestValid(w, s);
    RestValid(w, Rest(s));
    RestValid(w, Rest(Rest(s)));
  }

  /** The block that getblock names as the successor is a child. */
  lemma NextIsChild(w: World, s: Script, hash: Hash)
    requires ValidScript(w, s) && BlockAnswer(w, s, hash).Ok?
    ensures var b := BlockAnswer(w, s, hash).value;
      && b.hash == hash && b.height == w.tree[hash].height && b.txs == w.tree[hash].txs
      && (b.next.Some? ==> ChildOf(w, b.next.value, hash))
  {
    assert ValidMoment(w, s[0]);
  }

  predicate ChildOf(w: World, b: Hash, parent: Hash)
  {
    b in w.tree && parent in w.tree && w.tree[b].prev == parent && w.tree[b].height == w.tree[parent].height + 1
  }

  /** The block that extends the chain, or starts it at the base height. */
  predicate Extends(w: World, base: nat, chain: seq<Hash>, b: Hash)
  {
    && b in w.tree && w.tree[b].height == base + |chain|
    && (chain != [] ==> w.tree[b].prev == chain[|chain| - 1])
  }

  lemma PathExtends(w: World, base: nat, chain: seq<Hash>, b: Hash)
    requires Path(w, base, chain) && Extends(w, base, chain, b)
    ensures Path(w, base, chain + [b]) && b !in chain
  {
  }

  lemma OnChainExtends(t: Tables, u: Tables, base: nat, chain: seq<Hash>, b: Hash, c: Hash)
    requires c in u.blocks
    requires (c == b && u.blocks[c].height == base + |chain|)
          || (c in t.blocks && u.blocks[c] == t.blocks[c] && OnChain(t, base, chain, c))
    ensures OnChain(u, base, chain + [b], c)
  {
  }

  lemma OtherRowsExtended(w: World, t: Tables, base: nat, chain: seq<Hash>, b: Hash, u: Tables)
    requires ValidWorld(w) && Settled(w, t, base, chain) && Extends(w, base, chain, b)
    requires u.blocks == t.blocks[b := BlockRow(base + |chain|, false)]
    ensures forall c | c in u.blocks && c != DEADBEEF ::
      c in w.tree && (u.blocks[c] == BlockRow(-2, true) || OnChain(u, base, chain + [b], c))
    ensures DEADBEEF in u.blocks && u.blocks[DEADBEEF] == BlockRow(-1, false)
  {
    hide Path, OnChain;
    forall c | c in u.blocks && c != DEADBEEF
      ensures c in w.tree && (u.blocks[c] == BlockRow(-2, true) || OnChain(u, base, chain + [b], c))
    {
      if c == b || t.blocks[c] != BlockRow(-2, true) {
        OnChainExtends(t, u, base, chain, b, c);
      }
    }
  }

  lemma ExtendedHolds(w: World, t: Tables, base: nat, chain: seq<Hash>, b: Hash, u: Tables)
    requires ValidWorld(w) && Settled(w, t, base, chain) && Extends(w, base, chain, b)
    requires u.blocks == t.blocks[b := BlockRow(base + |chain|, false)]
    ensures Settled(w, u, base, chain + [b])
  {
    PathExtends(w, base, chain, b);
    OtherRowsExtended(w, t, base, chain, b, u);
    hide Path, OnChain;
    forall i | 0 <= i < |chain + [b]|
      ensures (chain + [b])[i] in u.blocks && u.blocks[(chain + [b])[i]] == BlockRow(base + i, false)
    {
      if i < |chain| {
        assert chain[i] in chain && t.blocks[chain[i]] == BlockRow(base + i, false);
      }
    }
  }

  /**
   * Whatever the node does between the calls, a walk that starts with a child of the top appends to the chain
   * each block it stores, in order: every block stored is a child of the top at the time, at the next height.
   */
  lemma {:induction false} WalkExtends(w: World, cfg: Config, t: Tables, base: nat, chain: seq<Hash>,
    next: Option<Hash>, s: Script)
    requires ValidWorld(w) && ValidScript(w, s) && Settled(w, t, base, chain)
    requires next.Some? ==> Extends(w, base, chain, next.value)
    ensures var out := Walk(w, cfg, t, next, s);
      ValidScript(w, out.s) && Settled(w, out.t, base, chain + out.stored)
    decreases |s|
  {
    hide ValidScript, Settled, StoreBlockSpec;
    assert chain + [] == chain;
    RestValid(w, s);
    if next.Some? {
      var answer := BlockAnswer(w, s, next.value);
      if answer.Ok? {
        var b := answer.value;
        NextIsChild(w, s, next.value);
        StoreScript(w, cfg, t, b, Rest(s));
        var out := StoreBlockSpec(w, cfg, t, b, Rest(s));
        if out.result.Ok? {
          StoredRow(w, cfg, t, b, Rest(s));
          ExtendedHolds(w, t, base, chain, b.hash, out.t);
          WalkExtends(w, cfg, out.t, base, chain + [b.hash], b.next, out.s);
          var rest := Walk(w, cfg, out.t, b.next, out.s);
          assert chain + [b.hash] + rest.stored == chain + ([b.hash] + rest.stored);
        }
      }
    }
  }

  /** From any tables: the walk stores blocks of consecutive heights and leaves every other row alone. */
  ghost predicate StoredFrom(w: World, t: Tables, next: Option<Hash>, out: WalkOut)
  {
    && (out.stored != [] ==> next.Some? && next.value in w.tree && out.stored[0] == next.value)
    && (forall i | 0 <= i < |out.stored| ::
          && out.stored[i] in w.tree && w.tree[out.stored[i]].height == w.tree[next.value].height + i
          && out.stored[i] in out.t.blocks
          && out.t.blocks[out.stored[i]] == BlockRow(w.tree[out.stored[i]].height, false))
    && (forall b | b !in out.stored ::
          (b in out.t.blocks <==> b in t.blocks) && (b in t.blocks ==> out.t.blocks[b] == t.blocks[b]))
  }

  lemma {:induction false} WalkStores(w: World, cfg: Config, t: Tables, next: Option<Hash>, s: Script)
    requires ValidScript(w, s)
    ensures StoredFrom(w, t, next, Walk(w, cfg, t, next, s))
    decreases |s|
  {
    hide StoreBlockSpec, ValidScript;
    RestValid(w, s);
    if next.Some? {
      var answer := BlockAnswer(w, s, next.value);
      if answer.Ok? {
        var b := answer.value;
        NextIsChild(w, s, next.value);
        StoreScript(w, cfg, t, b, Rest(s));
        var out := StoreBlockSpec(w, cfg, t, b, Rest(s));
        if out.result.Ok? {
          StoredRow(w, cfg, t, b, Rest(s));
          WalkStores(w, cfg, out.t, b.next, out.s);
          PrependStored(w, t, out.t, b.hash, b.next, Walk(w, cfg, out.t, b.next, out.s));
        }
      }
    }
  }

  lemma PrependStored(w: World, t: Tables, u: Tables, b: Hash, next: Option<Hash>, rest: WalkOut)
    requires b in w.tree && u.blocks == t.blocks[b := BlockRow(w.tree[b].height, false)]
    requires StoredFrom(w, u, next, rest) && (next.Some? ==> ChildOf(w, next.value, b))
    ensures StoredFrom(w, t, Some(b), Prepend([b], rest))
  {
    var out := Prepend([b], rest);
    assert forall i | 0 < i < |out.stored| :: out.stored[i] == rest.stored[i - 1];
    assert b !in rest.stored;
  }
}
