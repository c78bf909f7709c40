/** Theorems about whole runs of the service, from the migrated database, stopped anywhere. */
module Runs {
  import opened Outcomes
  import opened Node
  import opened Schema
  import opened Store
  import opened Sync
  import opened Chain
  import opened Safety
  import opened Ledger
  import opened Accounts
  import opened Collisions
  import opened Rows
  import opened Views
  import opened Mempool
  import opened Convergence
  import opened Interruptions
  import opened Tally
  import opened Service

  // ---- Following the chain leaves the mempool alone ------------------------------------

  /** The sentinel block's row, transactions, spaces rows and sequence are the same in both. */
  ghost predicate SamePool(t: Tables, u: Tables)
  {
    && (DEADBEEF in t.blocks ==> DEADBEEF in u.blocks)
    && (forall k: TxKey | k.block == DEADBEEF ::
          (k in t.transactions <==> k in u.transactions)
            && (k in t.transactions ==> u.transactions[k] == t.transactions[k]))
    && OfBlock(u.vmetaouts, DEADBEEF) == OfBlock(t.vmetaouts, DEADBEEF)
    && u.nextIndex == t.nextIndex
  }

  lemma SamePoolTwice(t: Tables, u: Tables, v: Tables)
    requires SamePool(t, u) && SamePool(u, v)
    ensures SamePool(t, v)
  {
    hide OfBlock;
  }

  lemma CommittedSamePool(w: World, cfg: Config, t: Tables, b: Block, u: Tables)
    requires ValidWorld(w) && b.hash in w.tree && Committed(w, cfg, t, b, u)
    ensures SamePool(t, u)
  {
    hide OfBlock, Valid, Conserved, MetaOf;
    var rows := MetaOf(w, cfg, b.hash);
    MetaOfUniform(w, cfg, b.hash);
    OfBlockConcat(t.vmetaouts, rows, DEADBEEF);
    OfBlockUniform(rows, b.hash, DEADBEEF);
    assert OfBlock(t.vmetaouts, DEADBEEF) + [] == OfBlock(t.vmetaouts, DEADBEEF);
  }

  lemma {:induction false} WalkSamePool(w: World, cfg: Config, t: Tables, commits: multiset<Hash>, next: Option<Hash>,
    s: Script)
    requires ValidWorld(w) && ValidScript(w, s) && Balanced(w, cfg, t, commits)
    ensures SamePool(t, Walk(w, cfg, t, next, s).t)
    decreases |s|
  {
    hide Accounted, Valid, Conserved, StoreBlockSpec, ValidScript, ValidWorld, Committed, Storable, CanUpsert;
    RestValid(w, s);
    if next.Some? {
      var answer := BlockAnswer(w, s, next.value);
      if answer.Ok? {
        var b := answer.value;
        NextIsChild(w, s, next.value);
        StoreScript(w, cfg, t, b, Rest(s));
        var out := StoreBlockSpec(w, cfg, t, b, Rest(s));
        if out.result.Ok? {
          StoreBlockExactly(w, cfg, t, b, Rest(s));
          CommittedSamePool(w, cfg, t, b, out.t);
          BalancedStore(w, cfg, t, commits, b, Rest(s));
          WalkSamePool(w, cfg, out.t, commits + multiset{b.hash}, b.next, out.s);
          SamePoolTwice(t, out.t, Walk(w, cfg, out.t, b.next, out.s).t);
        }
      }
    }
  }

  lemma OrphansSamePool(t: Tables, u: Tables)
    requires OnlyOrphans(t, u)
    ensures SamePool(t, u)
  {
    hide OfBlock, Flagged, Buried;
    if u != t {
      var h: nat :| u == Flagged(t, h) || u == Buried(Flagged(t, h));
      OrphanFrame(t, h);
      OrphanFrame(Flagged(t, h), h);
      OrphanSequence(t, h);
      OrphanSequence(Flagged(t, h), h);
      assert DEADBEEF in t.blocks.Keys <==> DEADBEEF in u.blocks.Keys;
    }
  }

  lemma OrphanSequence(t: Tables, h: int)
    ensures Flagged(t, h).nextIndex == Buried(t).nextIndex == t.nextIndex
  {
  }

  lemma BlocksSamePool(w: World, cfg: Config, t: Tables, commits: multiset<Hash>, s: Script)
    requires ValidWorld(w) && ValidScript(w, s) && Balanced(w, cfg, t, commits)
    ensures SamePool(t, SyncBlocksSpec(w, cfg, t, s).t)
  {
    hide Balanced, ValidScript, ValidWorld, Scan, Walk, BlockHashAnswer, SamePool, OnlyOrphans;
    RestValid(w, s);
    NoOrphans(t);
    if Live(s) {
      ScanOnlyOrphans(w, t, MaxHeight(t.blocks), Rest(s));
    }
    var head := GetSyncedHeadSpec(t, s);
    OrphansSamePool(t, head.t);
    BalancedOrphans(w, cfg, t, commits, head.t);
    RestValid(w, head.s);
    if head.result.Ok? {
      var first := BlockHashAnswer(head.s, FirstHeight(cfg, head.result.value));
      if first.Ok? {
        WalkSamePool(w, cfg, head.t, commits, Some(first.value), Rest(head.s));
        SamePoolTwice(t, head.t, Walk(w, cfg, head.t, Some(first.value), Rest(head.s)).t);
      }
    }
  }

  lemma NoOrphans(t: Tables)
    ensures OnlyOrphans(t, t)
  {
  }

  lemma PoolReadyKept(t: Tables, u: Tables)
    requires PoolReady(t) && SamePool(t, u) && Valid(u)
    ensures PoolReady(u)
  {
    hide OfBlock;
  }

  lemma TalliedKept(t: Tables, u: Tables, tally: map<Txid, seq<VMetaOut>>)
    requires Tallied(t, tally) && SamePool(t, u)
    ensures Tallied(u, tally)
  {
    hide OfBlock, OfKey;
    forall x | x in tally ensures OfKey(u.vmetaouts, TxKey(DEADBEEF, x)) == tally[x] {
      OfKeyInBlock(t.vmetaouts, TxKey(DEADBEEF, x));
      OfKeyInBlock(u.vmetaouts, TxKey(DEADBEEF, x));
    }
    forall x ensures x in MempoolTxids(t) <==> x in MempoolTxids(u) {
      assert TxKey(DEADBEEF, x) in t.transactions <==> TxKey(DEADBEEF, x) in u.transactions;
    }
  }

  // ---- The mempool leaves the blocks alone ---------------------------------------------

  lemma BalancedUntouched(w: World, cfg: Config, t: Tables, commits: multiset<Hash>, u: Tables)
    requires ValidWorld(w) && Balanced(w, cfg, t, commits) && Untouched(t, u) && Valid(u)
    ensures Balanced(w, cfg, u, commits)
  {
    hide Valid, OfBlock, MetaOf, Repeat;
    assert Conserved(w, u) by {
      forall b | b in u.blocks && b != DEADBEEF ensures b in w.tree && HasRows(u, b, w.tree[b].txs) {
        RowsElsewhere(t, u, DEADBEEF, b, w.tree[b].txs);
      }
    }
  }

  lemma ChainUntouched(w: World, t: Tables, base: nat, chain: seq<Hash>, kept: nat, u: Tables)
    requires Holds(w, t, base, chain, kept) && u.blocks == t.blocks
    ensures Holds(w, u, base, chain, kept)
  {
  }

  // ---- One turn ------------------------------------------------------------------------

  /** Rows and accounts are right, rows sit at their heights, and the mempool's part is ready for a round. */
  ghost predicate Consistent(w: World, cfg: Config, t: Tables, commits: multiset<Hash>)
  {
    Balanced(w, cfg, t, commits) && PoolReady(t) && OwnHeights(w, t)
  }

  lemma MigratedConsistent(w: World, cfg: Config)
    requires ValidWorld(w)
    ensures Consistent(w, cfg, Migrated(), multiset{})
  {
    MigratedIsEmptyChain(w, cfg);
    hide Balanced;
  }

  lemma OwnHeightsUntouched(w: World, t: Tables, u: Tables)
    requires OwnHeights(w, t) && u.blocks == t.blocks
    ensures OwnHeights(w, u)
  {
  }

  /** A round, against any behaviour of the node, keeps rows at their heights. */
  lemma BlocksOwnHeights(w: World, cfg: Config, t: Tables, s: Script)
    requires ValidWorld(w) && ValidScript(w, s) && OwnHeights(w, t)
    ensures OwnHeights(w, SyncBlocksSpec(w, cfg, t, s).t)
  {
    hide GetSyncedHeadSpec, Walk, BlockHashAnswer, OwnHeights, StoredFrom, ValidWorld, ValidScript, OnlyOrphans;
    HeadOwnHeights(w, t, s);
    var head := GetSyncedHeadSpec(t, s);
    RestValid(w, head.s);
    if head.result.Ok? {
      var first := BlockHashAnswer(head.s, FirstHeight(cfg, head.result.value));
      if first.Ok? {
        WalkStores(w, cfg, head.t, Some(first.value), Rest(head.s));
        StoredOwnHeights(w, head.t, Some(first.value), Walk(w, cfg, head.t, Some(first.value), Rest(head.s)));
      }
    }
  }

  lemma MempoolConsistent(w: World, cfg: Config, t: Tables, commits: multiset<Hash>, s: Script)
    requires ValidWorld(w) && ValidScript(w, s) && Consistent(w, cfg, t, commits)
    ensures var out := SyncMempoolSpec(t, s);
      ValidScript(w, out.s) && Consistent(w, cfg, out.t, commits) && Untouched(t, out.t)
  {
    hide Balanced, SyncMempoolSpec, Sequenced, Valid, OwnHeights, OfBlock;
    NeverDuplicate(w, t, s);
    BalancedUntouched(w, cfg, t, commits, SyncMempoolSpec(t, s).t);
    OwnHeightsUntouched(w, t, SyncMempoolSpec(t, s).t);
  }

  lemma BlocksConsistent(w: World, cfg: Config, t: Tables, commits: multiset<Hash>, s: Script)
    requires ValidWorld(w) && ValidScript(w, s) && Consistent(w, cfg, t, commits)
    ensures var out := SyncBlocksSpec(w, cfg, t, s);
      ValidScript(w, out.s) && Consistent(w, cfg, out.t, commits + multiset(out.stored)) && SamePool(t, out.t)
  {
    hide Conserved, Accounted, Valid, SyncBlocksSpec, PoolReady, SamePool, OwnHeights;
    BlocksOwnHeights(w, cfg, t, s);
    BalancedRound(w, cfg, t, commits, s);
    BlocksSamePool(w, cfg, t, commits, s);
    PoolReadyKept(t, SyncBlocksSpec(w, cfg, t, s).t);
  }

  lemma TurnConsistent(w: World, cfg: Config, t: Tables, commits: multiset<Hash>, s: Script)
    requires ValidWorld(w) && ValidScript(w, s) && Consistent(w, cfg, t, commits)
    ensures var out := TurnSpec(w, cfg, t, s);
      ValidScript(w, out.s) && Consistent(w, cfg, out.t, commits + multiset(out.turn.stored))
  {
    hide Consistent, SyncBlocksSpec, SyncMempoolSpec, ValidScript, ValidWorld, SamePool;
    RestValid(w, s);
    assert commits + multiset([]) == commits;
    if Live(s) {
      var blocks := SyncBlocksSpec(w, cfg, t, Rest(s));
      BlocksConsistent(w, cfg, t, commits, Rest(s));
      if blocks.result.Ok? {
        MempoolConsistent(w, cfg, blocks.t, commits + multiset(blocks.stored), blocks.s);
      }
    }
  }

  // ---- Conservation and accounting over every run --------------------------------------

  /** Every commit of a block in these turns. */
  function Stored(turns: seq<Turn>): multiset<Hash>
  {
    if turns == [] then multiset{} else multiset(turns[0].stored) + Stored(turns[1..])
  }

  lemma {:induction false} RunConsistent(w: World, cfg: Config, t: Tables, commits: multiset<Hash>, s: Script)
    requires ValidWorld(w) && ValidScript(w, s) && Consistent(w, cfg, t, commits)
    ensures var out := Run(w, cfg, t, s); Consistent(w, cfg, out.t, commits + Stored(out.turns))
    decreases |s|
  {
    hide Consistent, TurnSpec, ValidScript, ValidWorld;
    if s == [] {
      assert commits + multiset{} == commits;
    } else {
      var out := TurnSpec(w, cfg, t, s);
      TurnConsistent(w, cfg, t, commits, s);
      RunConsistent(w, cfg, out.t, commits + multiset(out.turn.stored), out.s);
      var rest := Run(w, cfg, out.t, out.s);
      assert ([out.turn] + rest.turns)[1..] == rest.turns;
      assert commits + multiset(out.turn.stored) + Stored(rest.turns) == commits + Stored([out.turn] + rest.turns);
    }
  }

  /**
   * From the migrated database, whatever the node does and wherever the run stops: every stored block has exactly its
   * transactions, each commit of a block added its spaces rows once, rows sit at their blocks' heights, and the
   * schema's constraints hold.
   */
  lemma EveryRunIsBalanced(w: World, cfg: Config, s: Script)
    requires ValidWorld(w) && ValidScript(w, s)
    ensures var out := Run(w, cfg, Migrated(), s);
      Balanced(w, cfg, out.t, Stored(out.turns)) && PoolReady(out.t) && OwnHeights(w, out.t)
  {
    MigratedConsistent(w, cfg);
    hide Balanced, Run, OwnHeights, PoolReady;
    RunConsistent(w, cfg, Migrated(), multiset{}, s);
    assert multiset{} + Stored(Run(w, cfg, Migrated(), s).turns) == Stored(Run(w, cfg, Migrated(), s).turns);
  }

  // ---- No collision in any run ---------------------------------------------------------

  /** No round of the run, of the chain or of the mempool, breaks a unique constraint. */
  ghost predicate NeverCollides(w: World, cfg: Config, t: Tables, s: Script)
    decreases |s|
  {
    s == [] ||
    var blocks := SyncBlocksSpec(w, cfg, t, Rest(s));
    var out := TurnSpec(w, cfg, t, s);
    && (Live(s) ==>
          blocks.result != Err(UniqueViolation) && SyncMempoolSpec(blocks.t, blocks.s).result != Err(UniqueViolation))
    && NeverCollides(w, cfg, out.t, out.s)
  }

  lemma {:induction false} ConsistentNeverCollides(w: World, cfg: Config, t: Tables, commits: multiset<Hash>, s: Script)
    requires ValidWorld(w) && DistinctBlocks(w) && ValidScript(w, s) && Consistent(w, cfg, t, commits)
    ensures NeverCollides(w, cfg, t, s)
    decreases |s|
  {
    hide Balanced, PoolReady, OwnHeights, SyncBlocksSpec, SyncMempoolSpec, TurnSpec, ValidScript, ValidWorld,
      DistinctBlocks, SamePool, Untouched;
    if s != [] {
      RestValid(w, s);
      var blocks := SyncBlocksSpec(w, cfg, t, Rest(s));
      BlocksConsistent(w, cfg, t, commits, Rest(s));
      RoundNeverCollides(w, cfg, t, commits, Rest(s));
      NeverDuplicate(w, blocks.t, blocks.s);
      TurnConsistent(w, cfg, t, commits, s);
      var out := TurnSpec(w, cfg, t, s);
      ConsistentNeverCollides(w, cfg, out.t, commits + multiset(out.turn.stored), out.s);
    }
  }

  /** From the migrated database, whatever the node does: no height is taken and no key inserted twice. */
  lemma EveryRunNeverCollides(w: World, cfg: Config, s: Script)
    requires ValidWorld(w) && DistinctBlocks(w) && ValidScript(w, s)
    ensures NeverCollides(w, cfg, Migrated(), s)
  {
    MigratedConsistent(w, cfg);
    ConsistentNeverCollides(w, cfg, Migrated(), multiset{}, s);
  }

  // ---- The mempool's spaces rows over every run ----------------------------------------

  /** All mempool commits of these turns, in order. */
  function Logs(turns: seq<Turn>): seq<PoolCommit>
  {
    if turns == [] then [] else turns[0].log + Logs(turns[1..])
  }

  lemma {:induction false} CountedConcat(tally: map<Txid, seq<VMetaOut>>, a: seq<PoolCommit>, b: seq<PoolCommit>)
    ensures CountedAll(tally, a + b) == CountedAll(CountedAll(tally, a), b)
    decreases |a|
  {
    if a == [] {
      assert a + b == b;
    } else {
      assert (a + b)[1..] == a[1..] + b;
      CountedConcat(Counted(tally, a[0]), a[1..], b);
    }
  }

  lemma FaithfulParts(a: seq<PoolCommit>, b: seq<PoolCommit>)
    ensures AllFaithful(a + b) <==> AllFaithful(a) && AllFaithful(b)
  {
    hide Faithful;
    assert forall i | 0 <= i < |a| :: (a + b)[i] == a[i];
    assert forall i | 0 <= i < |b| :: (a + b)[|a| + i] == b[i];
    assert forall i | |a| <= i < |a + b| :: (a + b)[i] == b[i - |a|];
  }

  lemma TurnTalliedIff(w: World, cfg: Config, t: Tables, commits: multiset<Hash>, tally: map<Txid, seq<VMetaOut>>,
    s: Script)
    requires ValidWorld(w) && ValidScript(w, s) && Consistent(w, cfg, t, commits) && Tallied(t, tally)
    ensures var out := TurnSpec(w, cfg, t, s); Tallied(out.t, CountedAll(tally, out.turn.log)) <==>
      AllFaithful(out.turn.log)
  {
    hide Balanced, OwnHeights, PoolReady, SyncBlocksSpec, SyncMempoolSpec, ValidScript, ValidWorld, SamePool,
      Tallied, AllFaithful;
    RestValid(w, s);
    NoCommits();
    if Live(s) {
      var blocks := SyncBlocksSpec(w, cfg, t, Rest(s));
      BlocksConsistent(w, cfg, t, commits, Rest(s));
      TalliedKept(t, blocks.t, tally);
      if blocks.result.Ok? {
        RoundTalliedIff(w, blocks.t, tally, blocks.s);
      }
    }
  }

  /** The rows are as tallied before the first turn and after each. */
  ghost predicate TalliedThroughout(w: World, cfg: Config, t: Tables, tally: map<Txid, seq<VMetaOut>>, s: Script)
    decreases |s|
  {
    && Tallied(t, tally)
    && (s == [] ||
        var out := TurnSpec(w, cfg, t, s);
        TalliedThroughout(w, cfg, out.t, CountedAll(tally, out.turn.log), out.s))
  }

  lemma NotTallied(w: World, cfg: Config, t: Tables, tally: map<Txid, seq<VMetaOut>>, s: Script)
    requires !Tallied(t, tally)
    ensures !TalliedThroughout(w, cfg, t, tally, s)
  {
  }

  lemma {:induction false} TalliedThroughoutIff(
    w: World, cfg: Config, t: Tables, commits: multiset<Hash>, tally: map<Txid, seq<VMetaOut>>, s: Script)
    requires ValidWorld(w) && ValidScript(w, s) && Consistent(w, cfg, t, commits) && Tallied(t, tally)
    ensures var out := Run(w, cfg, t, s);
      && (TalliedThroughout(w, cfg, t, tally, s) <==> AllFaithful(Logs(out.turns)))
      && (AllFaithful(Logs(out.turns)) ==> Tallied(out.t, CountedAll(tally, Logs(out.turns))))
    decreases |s|
  {
    hide Consistent, TurnSpec, ValidScript, ValidWorld, Tallied, AllFaithful;
    NoCommits();
    if s != [] {
      var out := TurnSpec(w, cfg, t, s);
      var rest := Run(w, cfg, out.t, out.s);
      var after := CountedAll(tally, out.turn.log);
      assert ([out.turn] + rest.turns)[1..] == rest.turns;
      FaithfulParts(out.turn.log, Logs(rest.turns));
      CountedConcat(tally, out.turn.log, Logs(rest.turns));
      TurnConsistent(w, cfg, t, commits, s);
      TurnTalliedIff(w, cfg, t, commits, tally, s);
      if Tallied(out.t, after) {
        TalliedThroughoutIff(w, cfg, out.t, commits + multiset(out.turn.stored), after, out.s);
      } else {
        NotTallied(w, cfg, out.t, after, out.s);
      }
    }
  }

  /**
   * From the migrated database each sentinel transaction has the rows it was inserted with, once, after every turn, if
   * and only if the last meta of each package belonged to the group's fetched transaction.
   */
  lemma EveryRunIsTalliedIff(w: World, cfg: Config, s: Script)
    requires ValidWorld(w) && ValidScript(w, s)
    ensures var out := Run(w, cfg, Migrated(), s);
      && (TalliedThroughout(w, cfg, Migrated(), map[], s) <==> AllFaithful(Logs(out.turns)))
      && (AllFaithful(Logs(out.turns)) ==> Tallied(out.t, CountedAll(map[], Logs(out.turns))))
  {
    MigratedConsistent(w, cfg);
    hide Consistent, Run, AllFaithful, CountedAll, TalliedThroughout;
    assert Tallied(Migrated(), map[]);
    TalliedThroughoutIff(w, cfg, Migrated(), multiset{}, map[], s);
  }

  /** In every run no spaces row of the sentinel block outlives its transaction, faithful or not. */
  lemma EveryRowHasItsTransaction(w: World, cfg: Config, s: Script)
    requires ValidWorld(w) && ValidScript(w, s)
    ensures var t := Run(w, cfg, Migrated(), s).t;
      forall i | 0 <= i < |t.vmetaouts| && t.vmetaouts[i].key.block == DEADBEEF ::
        t.vmetaouts[i].key.txid in MempoolTxids(t)
  {
    hide Run, MempoolTxids, Conserved, Accounted, Sequenced;
    EveryRunIsBalanced(w, cfg, s);
    var t := Run(w, cfg, Migrated(), s).t;
    hide Valid;
    forall i | 0 <= i < |t.vmetaouts| && t.vmetaouts[i].key.block == DEADBEEF
      ensures t.vmetaouts[i].key.txid in MempoolTxids(t)
    {
      RowTxid(t, i);
    }
  }

  // ---- The chain over every run --------------------------------------------------------

  /** What the turn stores, if anything, starts with a linked block. */
  ghost predicate TurnLinked(w: World, cfg: Config, t: Tables, base: nat, s: Script)
  {
    Live(s) ==>
      var out := SyncBlocksSpec(w, cfg, t, Rest(s));
      out.stored == [] || Linked(w, cfg, t, base, GetSyncedHeadSpec(t, Rest(s)).result.value, out.stored[0])
  }

  ghost predicate AllLinked(w: World, cfg: Config, t: Tables, base: nat, s: Script)
    decreases |s|
  {
    s == [] ||
    var out := TurnSpec(w, cfg, t, s);
    TurnLinked(w, cfg, t, base, s) && AllLinked(w, cfg, out.t, base, out.s)
  }

  /** The chain is there before the first turn and after each. */
  ghost predicate ChainThroughout(w: World, cfg: Config, t: Tables, base: nat, s: Script)
    decreases |s|
  {
    HasChain(w, t, base) && (s == [] || var out := TurnSpec(w, cfg, t, s); ChainThroughout(w, cfg, out.t, base, out.s))
  }

  lemma TurnChain(w: World, cfg: Config, t: Tables, commits: multiset<Hash>, base: nat, s: Script)
    requires ValidWorld(w) && ValidScript(w, s) && Consistent(w, cfg, t, commits) && HasChain(w, t, base)
    ensures HasChain(w, TurnSpec(w, cfg, t, s).t, base) <==> TurnLinked(w, cfg, t, base, s)
  {
    hide Consistent, SyncBlocksSpec, SyncMempoolSpec, ValidScript, ValidWorld, SamePool, Holds, GetSyncedHeadSpec;
    RestValid(w, s);
    if Live(s) {
      var blocks := SyncBlocksSpec(w, cfg, t, Rest(s));
      BlocksConsistent(w, cfg, t, commits, Rest(s));
      StoredHead(w, cfg, t, Rest(s));
      RoundKeepsChainIff(w, cfg, t, base, Rest(s));
      if blocks.result.Ok? {
        MempoolChain(w, cfg, blocks.t, commits + multiset(blocks.stored), base, blocks.s);
      }
    }
  }

  lemma StoredHead(w: World, cfg: Config, t: Tables, s: Script)
    ensures SyncBlocksSpec(w, cfg, t, s).stored != [] ==> GetSyncedHeadSpec(t, s).result.Ok?
  {
    hide GetSyncedHeadSpec, Walk;
  }

  lemma MempoolChain(w: World, cfg: Config, t: Tables, commits: multiset<Hash>, base: nat, s: Script)
    requires ValidWorld(w) && ValidScript(w, s) && Consistent(w, cfg, t, commits)
    ensures HasChain(w, SyncMempoolSpec(t, s).t, base) <==> HasChain(w, t, base)
  {
    hide Balanced, OwnHeights, PoolReady, SyncMempoolSpec, Holds;
    NeverDuplicate(w, t, s);
    var u := SyncMempoolSpec(t, s).t;
    if chain, kept :| Holds(w, t, base, chain, kept) {
      ChainUntouched(w, t, base, chain, kept, u);
    }
    if chain, kept :| Holds(w, u, base, chain, kept) {
      ChainUntouched(w, u, base, chain, kept, t);
    }
  }

  /** From any consistent tables, and for a chain from any base height. */
  lemma {:induction false} ChainThroughoutIff(
    w: World, cfg: Config, t: Tables, commits: multiset<Hash>, base: nat, s: Script)
    requires ValidWorld(w) && ValidScript(w, s) && Consistent(w, cfg, t, commits) && HasChain(w, t, base)
    ensures ChainThroughout(w, cfg, t, base, s) <==> AllLinked(w, cfg, t, base, s)
    ensures AllLinked(w, cfg, t, base, s) ==> HasChain(w, Run(w, cfg, t, s).t, base)
    decreases |s|
  {
    hide Consistent, TurnSpec, TurnLinked, ValidScript, ValidWorld, HasChain;
    if s != [] {
      var out := TurnSpec(w, cfg, t, s);
      TurnConsistent(w, cfg, t, commits, s);
      TurnChain(w, cfg, t, commits, base, s);
      if HasChain(w, out.t, base) {
        ChainThroughoutIff(w, cfg, out.t, commits + multiset(out.turn.stored), base, out.s);
      } else {
        NoChain(w, cfg, out.t, base, out.s);
      }
    }
  }

  lemma NoChain(w: World, cfg: Config, t: Tables, base: nat, s: Script)
    requires !HasChain(w, t, base)
    ensures !ChainThroughout(w, cfg, t, base, s)
  {
  }

  /**
   * Safety over whole runs, from the migrated database: the rows with height >= 0 are one parent-linked chain from the
   * base height after every turn, if and only if the first block that each turn stores is linked.
   */
  lemma EveryRunKeepsChainIff(w: World, cfg: Config, s: Script)
    requires ValidWorld(w) && ValidScript(w, s)
    ensures ChainThroughout(w, cfg, Migrated(), Base(cfg), s) <==> AllLinked(w, cfg, Migrated(), Base(cfg), s)
    ensures AllLinked(w, cfg, Migrated(), Base(cfg), s) ==> HasChain(w, Run(w, cfg, Migrated(), s).t, Base(cfg))
  {
    MigratedIsEmptyChain(w, cfg);
    MigratedConsistent(w, cfg);
    hide Balanced, OwnHeights;
    SettledHolds(w, Migrated(), Base(cfg), []);
    ChainThroughoutIff(w, cfg, Migrated(), multiset{}, Base(cfg), s);
  }
}
