/**
 * Where a completed turn leaves the database after any history: exactly when the view is the rebuild's, and exactly
 * when mempool and chain are apart.
 */
module Separation {
  import opened Outcomes
  import opened Node
  import opened Schema
  import opened Batch
  import opened Store
  import opened Sync
  import opened Chain
  import opened Safety
  import opened ForkPoint
  import opened Ledger
  import opened Accounts
  import opened Rows
  import opened Rebuild
  import opened Views
  import opened Mempool
  import opened Convergence
  import opened Interruptions
  import opened Service
  import opened Runs

  /**
   * After any run from the migrated database, whatever reorganisations, races and interruptions it saw: a completed
   * round against an unchanging node shows at every height what a database built from scratch shows, if and only if
   * the rows that the head keeps are the node's from the base height on.
   */
  lemma AnyHistoryEqualsRebuildIff(
    w: World, cfg: Config, history: Script, s: Script, s1: Script, active: seq<Hash>)
    requires ValidWorld(w) && HasTransactions(w) && ValidScript(w, history)
    requires ValidScript(w, s) && Steady(s, active) && ValidScript(w, s1) && Steady(s1, active)
    requires SyncBlocksSpec(w, cfg, Run(w, cfg, Migrated(), history).t, s).result.Ok?
    requires SyncBlocksSpec(w, cfg, Migrated(), s1).result.Ok?
    ensures GetSyncedHeadSpec(Run(w, cfg, Migrated(), history).t, s).result.Ok?
    ensures var t := Run(w, cfg, Migrated(), history).t;
      var head := GetSyncedHeadSpec(t, s);
      SameView(SyncBlocksSpec(w, cfg, t, s).t, SyncBlocksSpec(w, cfg, Migrated(), s1).t) <==>
        KeptFollows(head.t, head.result.value.height, Base(cfg), active)
  {
    hide SyncBlocksSpec, GetSyncedHeadSpec, SameView, ValidScript, Steady, Run, Balanced, KeptFollows, OwnHeights,
      Migrated;
    EveryRunIsBalanced(w, cfg, history);
    var out := Run(w, cfg, Migrated(), history);
    IncrementalEqualsRebuildIff(w, cfg, out.t, Stored(out.turns), s, s1, active);
  }

  /** After a run with linked turns that is the case if and only if the matched row was not left flagged by a crash. */
  lemma LinkedHistoryEqualsRebuildIff(
    w: World, cfg: Config, history: Script, s: Script, s1: Script, active: seq<Hash>)
    requires ValidWorld(w) && HasTransactions(w) && ValidScript(w, history)
    requires AllLinked(w, cfg, Migrated(), Base(cfg), history)
    requires ValidScript(w, s) && Steady(s, active) && ValidScript(w, s1) && Steady(s1, active)
    requires SyncBlocksSpec(w, cfg, Run(w, cfg, Migrated(), history).t, s).result.Ok?
    requires SyncBlocksSpec(w, cfg, Migrated(), s1).result.Ok?
    ensures var t := Run(w, cfg, Migrated(), history).t;
      SameView(SyncBlocksSpec(w, cfg, t, s).t, SyncBlocksSpec(w, cfg, Migrated(), s1).t) <==>
        MatchUnflagged(t, GetSyncedHeadSpec(t, s))
  {
    hide SyncBlocksSpec, GetSyncedHeadSpec, SameView, ValidScript, Steady, Run, Balanced, Holds, KeptFollows,
      MatchUnflagged, AllLinked, Migrated;
    AnyHistoryEqualsRebuildIff(w, cfg, history, s, s1, active);
    EveryRunKeepsChainIff(w, cfg, history);
    var t := Run(w, cfg, Migrated(), history).t;
    var chain, kept :| Holds(w, t, Base(cfg), chain, kept);
    KeptFollowsIff(w, t, Base(cfg), chain, kept, s, active);
  }

  // ---- Mempool and active chain apart --------------------------------------------------

  /** No txid is both in a row of an active block and in a row of the sentinel block. */
  ghost predicate Separate(t: Tables)
  {
    forall j, k | j in t.transactions && k in t.transactions && k.block == DEADBEEF
      && j.block in t.blocks && t.blocks[j.block].height >= 0 :: j.txid != k.txid
  }

  predicate InBlock(w: World, b: Hash, x: Txid)
  {
    b in w.tree && exists j :: 0 <= j < |w.tree[b].txs| && w.tree[b].txs[j].txid == x
  }

  predicate RowHolds(w: World, row: Option<Hash>, x: Txid)
  {
    row.Some? && InBlock(w, row.value, x)
  }

  /** The transaction is in the block of a row with a height. */
  ghost predicate InRows(w: World, t: Tables, x: Txid)
  {
    exists h :: h >= 0 && RowHolds(w, RowAt(t.blocks, h), x)
  }

  lemma ActiveRow(w: World, t: Tables, k: TxKey)
    requires OwnHeights(w, t) && Conserved(w, t) && UniqueHeights(t.blocks)
    requires k in t.transactions && k.block in t.blocks && t.blocks[k.block].height >= 0
    ensures InRows(w, t, k.txid)
  {
    hide RowOf, RowAt;
    assert HasRows(t, k.block, w.tree[k.block].txs);
    var j :| 0 <= j < |w.tree[k.block].txs| && w.tree[k.block].txs[j].txid == k.txid;
    OnlyRowAt(t, k.block, t.blocks[k.block].height);
    assert RowHolds(w, RowAt(t.blocks, t.blocks[k.block].height), k.txid);
  }

  lemma RowTransaction(w: World, t: Tables, x: Txid)
    requires OwnHeights(w, t) && Conserved(w, t) && InRows(w, t, x)
    ensures exists k :: k in t.transactions && k.txid == x && k.block in t.blocks && t.blocks[k.block].height >= 0
  {
    hide RowOf;
    var h :| h >= 0 && RowHolds(w, RowAt(t.blocks, h), x);
    var b := RowAt(t.blocks, h).value;
    assert HasRows(t, b, w.tree[b].txs);
    assert TxKey(b, x) in t.transactions;
  }

  lemma SeparateIff(w: World, t: Tables)
    requires OwnHeights(w, t) && Valid(t) && Conserved(w, t)
    ensures Separate(t) <==> forall x | x in MempoolTxids(t) :: !InRows(w, t, x)
  {
    ValidHeights(t);
    hide Valid, UniqueHeights, OwnHeights, Conserved, InRows;
    if Separate(t) {
      forall x | x in MempoolTxids(t) ensures !InRows(w, t, x) {
        assert TxKey(DEADBEEF, x) in t.transactions;
        if InRows(w, t, x) {
          RowTransaction(w, t, x);
        }
      }
    } else {
      var j, k :| j in t.transactions && k in t.transactions && k.block == DEADBEEF
        && j.block in t.blocks && t.blocks[j.block].height >= 0 && j.txid == k.txid;
      ActiveRow(w, t, j);
      assert k.txid in MempoolTxids(t);
    }
  }

  /** The transaction is in the node's chain from a height on. */
  ghost predicate InActive(w: World, active: seq<Hash>, first: int, x: Txid)
  {
    exists h :: 0 <= h && first <= h < |active| && InBlock(w, active[h], x)
  }

  /** The transaction is in the block of a row up to height k. */
  ghost predicate InKept(w: World, t: Tables, k: int, x: Txid)
  {
    exists h :: 0 <= h <= k && RowHolds(w, RowAt(t.blocks, h), x)
  }

  lemma InRowsAfter(w: World, u: Tables, k: int, first: nat, active: seq<Hash>, t: Tables, x: Txid)
    requires RowsAfter(u, k, first, active, t) && k < first
    ensures InRows(w, t, x) <==> InKept(w, u, k, x) || InActive(w, active, first, x)
  {
    hide RowAt, InBlock;
    if InRows(w, t, x) {
      var h :| h >= 0 && RowHolds(w, RowAt(t.blocks, h), x);
      assert h <= k ==> RowHolds(w, RowAt(u.blocks, h), x);
    }
    if InKept(w, u, k, x) {
      var h :| 0 <= h <= k && RowHolds(w, RowAt(u.blocks, h), x);
      assert RowHolds(w, RowAt(t.blocks, h), x);
    }
    if InActive(w, active, first, x) {
      var h :| 0 <= h && first <= h < |active| && InBlock(w, active[h], x);
      assert RowHolds(w, RowAt(t.blocks, h), x);
    }
  }

  lemma SameRows(w: World, t: Tables, u: Tables, x: Txid)
    requires u.blocks == t.blocks
    ensures InRows(w, u, x) <==> InRows(w, t, x)
  {
    hide RowAt, RowHolds;
  }

  /** A turn that completes against an unchanging node, whichever lookups failed in it. */
  ghost predicate CompletedTurn(w: World, cfg: Config, t: Tables, s: Script, active: seq<Hash>)
  {
    && ValidScript(w, s) && Live(s) && Steady(Rest(s), active)
    && SyncBlocksSpec(w, cfg, t, Rest(s)).result.Ok? && PoolRound(w, cfg, t, s).result.Ok?
  }

  /** The turn's round of the mempool. */
  ghost function PoolRound(w: World, cfg: Config, t: Tables, s: Script): PoolOut
  {
    var blocks := SyncBlocksSpec(w, cfg, t, Rest(s));
    SyncMempoolSpec(blocks.t, blocks.s)
  }

  /** The node's mempool as the turn reads it. */
  ghost function PoolEntries(w: World, cfg: Config, t: Tables, s: Script): seq<MempoolEntry>
  {
    var blocks := SyncBlocksSpec(w, cfg, t, Rest(s));
    if blocks.s == [] then [] else blocks.s[0].mempool
  }

  lemma CompletedTurnRows(w: World, cfg: Config, t: Tables, commits: multiset<Hash>, s: Script, active: seq<Hash>)
    requires ValidWorld(w) && CompletedTurn(w, cfg, t, s, active) && Consistent(w, cfg, t, commits)
    ensures var out := TurnSpec(w, cfg, t, s).t;
      var entries := PoolEntries(w, cfg, t, s);
      && OwnHeights(w, out) && Valid(out) && Conserved(w, out)
      && MempoolTxids(out) <= Keys(entries) + Depends(entries)
      && (Depends(entries) <= Keys(entries) && AllFetched(PoolRound(w, cfg, t, s).log) ==>
            MempoolTxids(out) == Keys(entries))
      && out.blocks == SyncBlocksSpec(w, cfg, t, Rest(s)).t.blocks
  {
    hide SyncBlocksSpec, SyncMempoolSpec, ValidScript, ValidWorld, Steady, Conserved, Accounted, PoolReady, SamePool,
      AllFetched, Keys, Depends, MempoolTxids, OwnHeights, Valid, OfBlock;
    RestValid(w, s);
    var blocks := SyncBlocksSpec(w, cfg, t, Rest(s));
    BlocksConsistent(w, cfg, t, commits, Rest(s));
    MempoolConsistent(w, cfg, blocks.t, commits + multiset(blocks.stored), blocks.s);
    NeverDuplicate(w, blocks.t, blocks.s);
    CompletedRoundConverges(w, blocks.t, blocks.s);
  }

  /**
   * Such a turn keeps mempool and active chain apart if and only if no transaction it leaves in the mempool is in the
   * rows that the head keeps, nor in the node's chain from the first height on. What it leaves there is the node's; all
   * of the node's, if no lookup failed.
   */
  lemma CompletedTurnSeparatesIff(
    w: World, cfg: Config, t: Tables, commits: multiset<Hash>, s: Script, active: seq<Hash>)
    requires ValidWorld(w) && CompletedTurn(w, cfg, t, s, active) && Consistent(w, cfg, t, commits)
    ensures GetSyncedHeadSpec(t, Rest(s)).result.Ok?
    ensures var head := GetSyncedHeadSpec(t, Rest(s));
      var out := TurnSpec(w, cfg, t, s).t;
      var entries := PoolEntries(w, cfg, t, s);
      && (Separate(out) <==>
            forall x | x in MempoolTxids(out) ::
              && !InKept(w, head.t, head.result.value.height, x)
              && !InActive(w, active, FirstHeight(cfg, head.result.value), x))
      && MempoolTxids(out) <= Keys(entries) + Depends(entries)
      && (Depends(entries) <= Keys(entries) && AllFetched(PoolRound(w, cfg, t, s).log) ==>
            MempoolTxids(out) == Keys(entries))
  {
    CompletedTurnRows(w, cfg, t, commits, s, active);
    hide SyncBlocksSpec, SyncMempoolSpec, GetSyncedHeadSpec, ValidScript, ValidWorld, Steady, Balanced, PoolReady,
      AllFetched, Keys, Depends, MempoolTxids, OwnHeights, Valid, Conserved, Path, RowsAfter, Separate, InRows,
      InKept, InActive, TurnSpec, PoolEntries, PoolRound, Unflagged;
    RestValid(w, s);
    SteadyRoundRows(w, cfg, t, commits, Rest(s), active);
    var head := GetSyncedHeadSpec(t, Rest(s));
    var blocks := SyncBlocksSpec(w, cfg, t, Rest(s));
    var out := TurnSpec(w, cfg, t, s).t;
    FirstHeights(cfg, head.result.value);
    SeparateIff(w, out);
    forall x
      ensures InRows(w, out, x) <==>
        InKept(w, head.t, head.result.value.height, x) || InActive(w, active, FirstHeight(cfg, head.result.value), x)
    {
      SameRows(w, blocks.t, out, x);
      InRowsAfter(w, head.t, head.result.value.height, FirstHeight(cfg, head.result.value), active, blocks.t, x);
    }
  }

  lemma KeptIsActive(w: World, t: Tables, base: nat, chain: seq<Hash>, kept: nat, s: Script, active: seq<Hash>, x: Txid)
    requires ValidWorld(w) && ValidScript(w, s) && Steady(s, active)
    requires Holds(w, t, base, chain, kept) && GetSyncedHeadSpec(t, s).result.Ok?
    requires InKept(w, GetSyncedHeadSpec(t, s).t, GetSyncedHeadSpec(t, s).result.value.height, x)
    ensures InActive(w, active, base, x)
  {
    hide GetSyncedHeadSpec, ValidWorld, ValidScript, Steady, Holds, RowAt, InBlock;
    var head := GetSyncedHeadSpec(t, s);
    var h :| 0 <= h <= head.result.value.height && RowHolds(w, RowAt(head.t.blocks, h), x);
    if chain == [] {
      HeadKeepsChain(w, t, base, chain, kept, s);
    } else {
      HeadKeepsNodeRows(w, t, base, chain, kept, s, active);
    }
  }

  /**
   * On a stored chain, also with an orphan update pending, and whichever lookups failed: a node whose mempool holds no
   * transaction of its chain from the base height on keeps mempool and active chain apart in the database.
   */
  lemma CompletedTurnSeparates(
    w: World, cfg: Config, t: Tables, commits: multiset<Hash>, base: nat, chain: seq<Hash>, kept: nat, s: Script,
    active: seq<Hash>)
    requires ValidWorld(w) && CompletedTurn(w, cfg, t, s, active) && Consistent(w, cfg, t, commits)
    requires Holds(w, t, base, chain, kept) && base <= Base(cfg)
    requires var entries := PoolEntries(w, cfg, t, s);
      forall x | x in Keys(entries) + Depends(entries) :: !InActive(w, active, base, x)
    ensures Separate(TurnSpec(w, cfg, t, s).t)
  {
    CompletedTurnSeparatesIff(w, cfg, t, commits, s, active);
    hide SyncBlocksSpec, SyncMempoolSpec, GetSyncedHeadSpec, ValidWorld, Steady, Consistent, Separate, InKept,
      InBlock, TurnSpec, PoolEntries, PoolRound, Keys, Depends, MempoolTxids, Holds, ValidScript, AllFetched;
    RestValid(w, s);
    var head := GetSyncedHeadSpec(t, Rest(s));
    HeadHeight(w, t, base, chain, kept, Rest(s));
    FirstAtBase(cfg, head.result.value);
    forall x | x in MempoolTxids(TurnSpec(w, cfg, t, s).t)
      ensures !InKept(w, head.t, head.result.value.height, x)
      ensures !InActive(w, active, FirstHeight(cfg, head.result.value), x)
    {
      if InKept(w, head.t, head.result.value.height, x) {
        KeptIsActive(w, t, base, chain, kept, Rest(s), active, x);
      }
    }
  }
}
