/** No round runs into the height index or a key, whatever the node does. */
module Collisions {
  import opened Outcomes
  import opened Node
  import opened Schema
  import opened Spaces
  import opened Store
  import opened Sync
  import opened Chain
  import opened Safety
  import opened Ledger
  import opened Accounts
  import opened Rows

  lemma {:induction false} BlockMetaErrors(b: Hash, ms: seq<MetaTransaction>)
    ensures forall i | 0 <= i < |BlockMetaRows(b, ms)| :: BlockMetaRows(b, ms)[i] != Err(UniqueViolation)
  {
    if ms != [] {
      MetaErrors(b, ms[0]);
      BlockMetaErrors(b, ms[1..]);
      hide MetaRows;
      var first, rest := MetaRows(b, ms[0]), BlockMetaRows(b, ms[1..]);
      assert forall i | |first| <= i < |first + rest| :: (first + rest)[i] == rest[i - |first|];
    }
  }

  /** Where the height is free and the txids are distinct, storing a block breaks no unique constraint. */
  lemma StoreNoCollision(w: World, cfg: Config, t: Tables, b: Block, s: Script)
    requires ValidWorld(w) && Valid(t) && Conserved(w, t) && FromTree(w, b)
    requires CanUpsert(t, b.hash, b.height) && Distinct(b.txs)
    ensures StoreBlockSpec(w, cfg, t, b, s).result != Err(UniqueViolation)
  {
    hide Valid, Conserved, CanUpsert, Distinct, BitcoinBlockStored, InsertRows, BlockMetaRows, HasFirst, ValidWorld;
    BitcoinBlockRows(w, t, b);
    BlockMetaErrors(b.hash, w.tree[b.hash].meta);
    InsertRowsErrors(BitcoinBlockStored(t, b).t, BlockMetaRows(b.hash, w.tree[b.hash].meta));
  }

  /** No block has two transactions with the same txid. */
  ghost predicate DistinctBlocks(w: World)
  {
    forall b | b in w.tree :: Distinct(w.tree[b].txs)
  }

  /**
   * Even if the node changes branch between any two calls, no block of a walk that starts above all rows meets a taken
   * height or row.
   */
  lemma {:induction false} WalkNeverCollides(
    w: World, cfg: Config, t: Tables, commits: multiset<Hash>, next: Option<Hash>, s: Script)
    requires ValidWorld(w) && DistinctBlocks(w) && ValidScript(w, s) && Balanced(w, cfg, t, commits)
    requires next.Some? && next.value in w.tree ==> RowsBelow(t, w.tree[next.value].height)
    ensures Walk(w, cfg, t, next, s).result != Err(UniqueViolation)
    decreases |s|
  {
    hide ValidScript, StoreBlockSpec, Valid, Conserved, Accounted, ValidWorld, Distinct, RowsBelow;
    RestValid(w, s);
    if next.Some? {
      var answer := BlockAnswer(w, s, next.value);
      if answer.Ok? {
        var b := answer.value;
        NextIsChild(w, s, next.value);
        StoreScript(w, cfg, t, b, Rest(s));
        BelowFree(t, b.hash, b.height);
        StoreNoCollision(w, cfg, t, b, Rest(s));
        var out := StoreBlockSpec(w, cfg, t, b, Rest(s));
        if out.result.Ok? {
          StoredRow(w, cfg, t, b, Rest(s));
          BelowAfter(t, b.hash, b.height, out.t);
          BalancedStore(w, cfg, t, commits, b, Rest(s));
          WalkNeverCollides(w, cfg, out.t, commits + multiset{b.hash}, b.next, out.s);
        }
      }
    }
  }

  lemma {:induction false} ScanErrors(t: Tables, h: int, s: Script)
    ensures Scan(t, h, s).result != Err(UniqueViolation)
    decreases h + 1
  {
    hide Flagged, Buried, RowAt;
    if h >= 0 && Live(s) && RowAt(t.blocks, h).Some? {
      var answer := BlockHashAnswer(Rest(s), h);
      if answer.Ok? && answer.value != RowAt(t.blocks, h).value {
        ScanErrors(t, h - 1, Rest(Rest(s)));
      }
    }
  }

  /** Whatever the head, all rows it leaves lie below the height the round stores first. */
  lemma RowsBelowFirst(w: World, cfg: Config, t: Tables, s: Script)
    requires ValidWorld(w) && ValidScript(w, s) && OwnHeights(w, t) && GetSyncedHeadSpec(t, s).result.Ok?
    ensures RowsBelow(GetSyncedHeadSpec(t, s).t, FirstHeight(cfg, GetSyncedHeadSpec(t, s).result.value))
  {
    hide ValidWorld, ValidScript, OwnHeights, Scan;
    var m := MaxHeight(t.blocks);
    RestValid(w, s);
    SentinelTop(w, t);
    HeadIsTop(t, s);
    ScanNone(w, t, m, Rest(s));
    var head := GetSyncedHeadSpec(t, s);
    if head.result.value.height < 0 {
      ScanFinds(t, m, m, Rest(s));
      EmptyCapped(w, t);
    }
  }

  /** No round on tables whose rows sit at their heights breaks a unique constraint, whatever the node does. */
  lemma RoundNeverCollides(w: World, cfg: Config, t: Tables, commits: multiset<Hash>, s: Script)
    requires ValidWorld(w) && DistinctBlocks(w) && ValidScript(w, s) && Balanced(w, cfg, t, commits) && OwnHeights(w, t)
    ensures SyncBlocksSpec(w, cfg, t, s).result != Err(UniqueViolation)
  {
    hide ValidScript, ValidWorld, DistinctBlocks, Balanced, OwnHeights, Scan, Walk, RowsBelow, OnlyOrphans;
    ScanErrors(t, MaxHeight(t.blocks), Rest(s));
    HeadOwnHeights(w, t, s);
    var head := GetSyncedHeadSpec(t, s);
    BalancedOrphans(w, cfg, t, commits, head.t);
    if head.result.Ok? {
      RowsBelowFirst(w, cfg, t, s);
      RestValid(w, head.s);
      var h := FirstHeight(cfg, head.result.value);
      if BlockHashAnswer(head.s, h).Ok? {
        AnsweredHash(w, head.s, h);
        WalkNeverCollides(w, cfg, head.t, commits, Some(BlockHashAnswer(head.s, h).value), Rest(head.s));
      }
    }
  }
}
