/**
 * A history in which a reorganisation leaves a hole: fast synchronisation, a backfill down to the genesis block, and a
 * branch that parts below the fast-sync height.
 */
module BelowBase {
  import opened Outcomes
  import opened Node
  import opened Schema
  import opened Store
  import opened Sync
  import opened Chain
  import opened Safety
  import opened ForkPoint
  import opened Ledger
  import opened Accounts
  import opened Rows
  import opened Rebuild
  import opened Mempool
  import opened Service
  import opened Runs
  import opened Backfill
  import opened Genesis
  import opened Histories
  import opened Counterexamples

  /** A fresh database receives the block of height 2 first. */
  function FastSync(): Config
  {
    Config(100, 1)
  }

  /** The node's chain before and after it changes branch. */
  function Old(): seq<Hash>
  {
    [1, 2, 5]
  }

  function New(): seq<Hash>
  {
    [1, 3, 4]
  }

  /** Only block 5 is stored, at height 2. */
  function FastBlock(): Tables
  {
    Migrated().(blocks := map[DEADBEEF := BlockRow(-1, false), 5 := BlockRow(2, false)])
  }

  function Fast(): seq<Hash>
  {
    [5]
  }

  // ---- The fast-sync turn --------------------------------------------------------------

  lemma FastStep()
    ensures CanUpsert(Migrated(), 5, 2) && Upserted(Migrated(), 5, 2) == FastBlock()
    ensures BlockAt(Forked(), [1, 2, 5], 5) == Block(5, 2, 2, [], None) && 5 in Forked().tree
    ensures MempoolTxids(FastBlock()) == {}
  {
  }

  lemma FastWalk(s: Script)
    requires StartsWith(s, 3, On([1, 2, 5]))
    ensures Walk(Forked(), FastSync(), Migrated(), Some(5), s) == WalkOut(Ok(()), FastBlock(), s[3..], [5])
  {
    FastStep();
    assert FastSync().activation == 100;
    hide Forked, FastSync, Migrated, FastBlock, Upserted, CanUpsert, StoreBlockSpec, BlockAt, MempoolTxids;
    assert Rest(s) == s[1..] && s[1..][2..] == s[3..];
    StoreEmpty(FastSync(), Migrated(), BlockAt(Forked(), [1, 2, 5], 5), s[1..]);
    assert Walk(Forked(), FastSync(), FastBlock(), None, s[3..]) == WalkOut(Ok(()), FastBlock(), s[3..], []);
  }

  lemma FastTurn(s: Script)
    requires StartsWith(s, 8, On([1, 2, 5]))
    ensures TurnSpec(Forked(), FastSync(), Migrated(), s) == TurnOut(FastBlock(), s[8..], Turn([5], []))
  {
    FastStep();
    hide Forked, FastBlock, GetSyncedHeadSpec, Walk, SyncMempoolSpec, MempoolTxids, Migrated, CanUpsert, Upserted;
    assert Rest(s) == s[1..] && Rest(s[1..]) == s[2..] && Rest(s[2..]) == s[3..];
    assert s[3..][3..] == s[6..] && s[6..][2..] == s[8..];
    MigratedHead(s[1..]);
    assert BlockHashAnswer(s[2..], 2) == Ok(5);
    FastWalk(s[3..]);
    EmptyPool(FastBlock(), s[6..]);
  }

  lemma FastBlockHolds()
    ensures Holds(Forked(), FastBlock(), 2, Fast(), 1)
  {
    var t := FastBlock();
    forall b | b in t.blocks && b != DEADBEEF ensures b in Forked().tree && OnChain(t, 2, [5], b) {
      assert b == 5;
    }
  }

  // ---- The backfill --------------------------------------------------------------------

  /** All blocks can be stored: none has transactions, and none reaches the activation height. */
  lemma BlocksStorable(active: seq<Hash>)
    requires Path(Forked(), 0, active)
    ensures forall i | 0 <= i < |active| :: StorableAt(Forked(), FastSync(), active, i)
  {
    hide MetaFits;
    forall i | 0 <= i < |active| ensures StorableAt(Forked(), FastSync(), active, i) {
      assert Forked().tree[active[i]].txs == [] && Forked().tree[active[i]].height < 100;
    }
  }

  /** The moments of the backfill. */
  function Refilling(): Script
  {
    Times(110, On([1, 2, 5]))
  }

  lemma RefillHead()
    ensures var head := GetSyncedHeadSpec(FastBlock(), Refilling());
      head.result == Ok(Head(2, Some(5))) && Affordable(Old(), head)
  {
    FastBlockHolds();
    TopHeight(Forked(), FastBlock(), 2, [5], 1);
    RowOnChain(Forked(), FastBlock(), 2, [5], 1, 2);
    hide FastBlock, Holds, GetSyncedHeadSpec, RowAt, Flagged, Buried, Forked;
    MatchesTop(FastBlock(), 2, 5, Refilling());
    BudgetOf(PassCost(2, [1, 2, 5]) + 5);
  }

  lemma BudgetOf(cost: int)
    ensures Budget(3, cost) == 4 * cost
  {
    assert Budget(1, cost) == 2 * cost;
    assert Budget(2, cost) == 3 * cost;
  }

  // ---- The reorganisation --------------------------------------------------------------

  /** A completed round whose first height the tip reaches stores a block. */
  lemma TipReached(w: World, cfg: Config, t: Tables, commits: multiset<Hash>, s: Script, active: seq<Hash>)
    requires ValidWorld(w) && ValidScript(w, s) && Steady(s, active) && Balanced(w, cfg, t, commits) && OwnHeights(w, t)
    requires SyncBlocksSpec(w, cfg, t, s).result.Ok? && GetSyncedHeadSpec(t, s).result.Ok?
    requires FirstHeight(cfg, GetSyncedHeadSpec(t, s).result.value) < |active|
    ensures SyncBlocksSpec(w, cfg, t, s).stored != []
  {
    hide ValidWorld, ValidScript, Steady, Balanced, OwnHeights, GetSyncedHeadSpec, SyncBlocksSpec, RowAt, RowsAfter,
      Path, Unflagged;
    var out, head := SyncBlocksSpec(w, cfg, t, s), GetSyncedHeadSpec(t, s);
    var first := FirstHeight(cfg, head.result.value);
    FirstHeights(cfg, head.result.value);
    SteadyRoundRows(w, cfg, t, commits, s, active);
    TipStored(head.t, head.result.value.height, first, active, out.t);
    HeadCapped(w, cfg, t, commits, s, active, first);
    if out.stored == [] {
      IdleRound(w, cfg, t, s);
    }
  }

  /** The node moves from 1, 2, 5 to 1, 3, 4: the head is at height 0. */
  lemma HeadAtZero(w: World, t: Tables, s: Script)
    requires ValidWorld(w) && Settled(w, t, 0, Old()) && ValidScript(w, s) && Steady(s, New())
    requires GetSyncedHeadSpec(t, s).result.Ok?
    ensures GetSyncedHeadSpec(t, s).result.value.height == 0
  {
    hide ValidWorld, Holds, ValidScript, Steady, GetSyncedHeadSpec, IsAncestorsFork, Flagged, Buried;
    ForkPointReached(w, t, 0, Old(), 3, s, New());
  }

  lemma AgreesAtZero()
    ensures Top(0, Old()) < |New()| && Agree(0, Old(), New(), 0)
    ensures Enough(0, Old(), New()) == 22
    ensures 0 <= Base(FastSync())
  {
  }

  lemma NewStorable()
    ensures StorableFrom(Forked(), FastSync(), New(), Base(FastSync()))
  {
    BranchIsPath([3, 4]);
    assert [1] + [3, 4] == New();
    BlocksStorable(New());
    hide StorableAt, FastSync, Forked, New;
  }

  lemma SettledParts(w: World, t: Tables, chain: seq<Hash>)
    requires Settled(w, t, 0, chain)
    ensures Holds(w, t, 0, chain, |chain|)
  {
  }

  lemma MoveCompletes(t: Tables, commits: multiset<Hash>, s: Script)
    requires Balanced(Forked(), FastSync(), t, commits) && Settled(Forked(), t, 0, Old())
    requires ValidScript(Forked(), s) && Steady(s, New()) && |s| >= 22
    ensures SyncBlocksSpec(Forked(), FastSync(), t, s).result.Ok? && GetSyncedHeadSpec(t, s).result.Ok?
  {
    hide *;
    ForkedIsValid();
    AgreesAtZero();
    NewStorable();
    SettledParts(Forked(), t, Old());
    SteadyRoundCompletesIff(Forked(), FastSync(), t, commits, 0, Old(), |Old()|, s, New());
  }

  /** The round starts at height 2, which leaves a hole at height 1. */
  lemma RoundSkipsHeight(t: Tables, commits: multiset<Hash>, s: Script)
    requires Balanced(Forked(), FastSync(), t, commits) && Settled(Forked(), t, 0, Old())
    requires ValidScript(Forked(), s) && Steady(s, New()) && |s| >= 22
    ensures SyncBlocksSpec(Forked(), FastSync(), t, s).result.Ok?
    ensures !HasChain(Forked(), SyncBlocksSpec(Forked(), FastSync(), t, s).t, 0)
    ensures SyncBlocksSpec(Forked(), FastSync(), t, s).stored != []
  {
    ForkedIsValid();
    hide Forked, Holds, Balanced, ValidWorld, ValidScript, Steady, SyncBlocksSpec, GetSyncedHeadSpec, OwnHeights,
      HasChain;
    MoveCompletes(t, commits, s);
    HeadAtZero(Forked(), t, s);
    HoldsHasChain(Forked(), t, 0, Old());
    ChainOwnHeights(Forked(), t, 0, Old(), 3);
    TipReached(Forked(), FastSync(), t, commits, s, New());
    ReorgBelowFastSyncBreaks(Forked(), FastSync(), t, 0, s);
  }

  lemma HoldsHasChain(w: World, t: Tables, base: nat, chain: seq<Hash>)
    requires Settled(w, t, base, chain)
    ensures HasChain(w, t, base)
  {
    SettledHolds(w, t, base, chain);
  }

  lemma HeadCapped(
    w: World, cfg: Config, t: Tables, commits: multiset<Hash>, s: Script, active: seq<Hash>, h: int)
    requires ValidWorld(w) && ValidScript(w, s) && Steady(s, active) && Balanced(w, cfg, t, commits) && OwnHeights(w, t)
    requires GetSyncedHeadSpec(t, s).result.Ok? && GetSyncedHeadSpec(t, s).result.value.height < h
    ensures RowAt(GetSyncedHeadSpec(t, s).t.blocks, h).None?
  {
    hide ValidWorld, ValidScript, Steady, Balanced, OwnHeights, GetSyncedHeadSpec, Capped;
    HeadEnds(w, cfg, t, commits, s, active);
    NothingAbove(GetSyncedHeadSpec(t, s).t, GetSyncedHeadSpec(t, s).result.value.height);
  }

  lemma TipStored(u: Tables, k: int, first: nat, active: seq<Hash>, t: Tables)
    requires RowsAfter(u, k, first, active, t) && k < first < |active|
    ensures RowAt(t.blocks, first).Some?
  {
    hide RowAt;
  }

  lemma MovedRun(t: Tables, commits: multiset<Hash>, run: Script)
    requires Balanced(Forked(), FastSync(), t, commits) && Settled(Forked(), t, 0, Old())
    requires ValidScript(Forked(), run) && Steady(run, New()) && |run| >= 23
    ensures SyncBlocksSpec(Forked(), FastSync(), t, Rest(run)).result.Ok?
    ensures !HasChain(Forked(), SyncBlocksSpec(Forked(), FastSync(), t, Rest(run)).t, 0)
    ensures !AllLinked(Forked(), FastSync(), t, 0, run)
  {
    ForkedIsValid();
    assert Live(run);
    SteadyRest(run, New());
    hide Forked, FastSync, Holds, Balanced, ValidWorld, ValidScript, Steady, SyncBlocksSpec, GetSyncedHeadSpec,
      HasChain, Linked, TurnSpec;
    RestValid(Forked(), run);
    RoundSkipsHeight(t, commits, Rest(run));
    HoldsHasChain(Forked(), t, 0, Old());
    RoundKeepsChainIff(Forked(), FastSync(), t, 0, Rest(run));
  }

  // ---- The whole history ---------------------------------------------------------------

  function Before(): seq<Phase>
  {
    [Serve(Times(8, On(Old())))]
  }

  function Reorganised(): Script
  {
    Times(30, On(New()))
  }

  lemma ServesFastBlock()
    ensures History(Forked(), FastSync(), Migrated(), Before()).t == FastBlock()
  {
    hide Forked, FastSync, FastBlock, Migrated, TurnSpec;
    var s := Times(8, On(Old()));
    FastTurn(s);
    assert s[8..] == [];
    assert Run(Forked(), FastSync(), FastBlock(), []).t == FastBlock();
    assert Before()[1..] == [];
  }

  lemma OnePhase(w: World, cfg: Config, t: Tables, p: Phase)
    ensures History(w, cfg, t, [p]).t == PhaseSpec(w, cfg, t, p).t
  {
    hide PhaseSpec;
    assert [p][1..] == [];
  }

  lemma OnePhaseMore(w: World, cfg: Config, t: Tables, p: Phase, q: Phase)
    ensures History(w, cfg, t, [p, q]).t == PhaseSpec(w, cfg, History(w, cfg, t, [p]).t, q).t
  {
    OnePhase(w, cfg, t, p);
    hide PhaseSpec;
    OnePhase(w, cfg, PhaseSpec(w, cfg, t, p).t, q);
    assert [p, q][1..] == [q];
  }

  lemma ScriptsValid()
    ensures ValidWorld(Forked()) && ValidScript(Forked(), Times(8, On(Old())))
    ensures ValidScript(Forked(), Refilling()) && ValidScript(Forked(), Reorganised())
    ensures Steady(Refilling(), Old()) && Steady(Reorganised(), New())
  {
    ForkedIsValid();
    BranchIsPath([2, 5]);
    BranchIsPath([3, 4]);
    assert [1] + [2, 5] == Old() && [1] + [3, 4] == New();
    TimesIsValid(8, Old());
    TimesIsValid(110, Old());
    TimesIsValid(30, New());
    SteadyTimes(110, Old());
    SteadyTimes(30, New());
    hide Forked, ValidScript, Path, On, Times, Steady, ValidWorld;
  }

  /** The service's turn and then the backfill. */
  function Refilled(): seq<Phase>
  {
    Before() + [Refill(Refilling())]
  }

  lemma BothPhases()
    ensures ValidPhases(Forked(), Before()) && ValidPhases(Forked(), Refilled())
    ensures History(Forked(), FastSync(), Migrated(), Refilled()).t ==
      BackfillSpec(Forked(), FastSync(), FastBlock(), Refilling()).t
  {
    ScriptsValid();
    ServesFastBlock();
    hide Forked, FastSync, Migrated, FastBlock, BackfillSpec, Run, Refilling, ValidScript, History;
    assert Refilled() == [Before()[0], Refill(Refilling())] && Before() == [Before()[0]];
    OnePhaseMore(Forked(), FastSync(), Migrated(), Before()[0], Refill(Refilling()));
  }

  /** After the backfill the chain is the node's from the genesis block. */
  lemma RefillsChain(run: Script)
    requires ValidScript(Forked(), run)
    ensures var t := History(Forked(), FastSync(), Migrated(), Refilled()).t;
      && Settled(Forked(), t, 0, Old())
      && (ChainThroughout(Forked(), FastSync(), t, 0, run) <==> AllLinked(Forked(), FastSync(), t, 0, run))
  {
    hide *;
    ScriptsValid();
    FastBlockHolds();
    RefillHead();
    ServesFastBlock();
    BothPhases();
    RefillStorable();
    BackfilledRunKeepsChainIff(Forked(), FastSync(), Before(), 2, Fast(), 1, Refilling(), Old(), run);
    WholeChain(Forked(), History(Forked(), FastSync(), Migrated(), Refilled()).t);
  }

  /** Block 5 is stored, and the backfill finds the blocks below it storable. */
  lemma RefillStorable()
    ensures forall i | 0 <= i < 2 :: StorableAt(Forked(), FastSync(), Old(), i)
    ensures Fast() != [] && GetSyncedHeadSpec(FastBlock(), Refilling()).result.Ok?
    ensures GetSyncedHeadSpec(FastBlock(), Refilling()).result.value.height == 2
  {
    BranchIsPath([2, 5]);
    assert [1] + [2, 5] == Old();
    BlocksStorable(Old());
    RefillHead();
    hide Forked, FastBlock, GetSyncedHeadSpec, Refilling, StorableAt, Affordable, FastSync;
  }

  lemma WholeChain(w: World, t: Tables)
    requires IsNodeChain(w, t, 2, Old())
    ensures Settled(w, t, 0, Old())
  {
    hide Holds;
    assert Old()[..3] == Old();
  }

  /**
   * From the migrated database: the service stores block 5 at its fast-sync height, a backfill completes the chain
   * down to the genesis block, and the node moves to a branch that parts at height 0. The service's next round
   * completes, and the rows are no chain any more.
   */
  lemma ReorgBelowBaseLeavesHole()
    ensures var w, cfg := Forked(), FastSync();
      var t := History(w, cfg, Migrated(), Refilled()).t;
      && ValidWorld(w) && ValidPhases(w, Refilled()) && ValidScript(w, Reorganised())
      && Settled(w, t, 0, Old())
      && SyncBlocksSpec(w, cfg, t, Rest(Reorganised())).result.Ok?
      && !HasChain(w, SyncBlocksSpec(w, cfg, t, Rest(Reorganised())).t, 0)
      && !ChainThroughout(w, cfg, t, 0, Reorganised())
  {
    hide *;
    ScriptsValid();
    BothPhases();
    LongEnough();
    var past := History(Forked(), FastSync(), Migrated(), Refilled());
    RefillsChain(Reorganised());
    EveryHistoryIsBalanced(Forked(), FastSync(), Refilled());
    IsBalanced(Forked(), FastSync(), past.t, past.commits);
    MovedRun(past.t, past.commits, Reorganised());
  }

  lemma LongEnough()
    ensures |Reorganised()| >= 23
  {
  }

  lemma IsBalanced(w: World, cfg: Config, t: Tables, commits: multiset<Hash>)
    requires Consistent(w, cfg, t, commits)
    ensures Balanced(w, cfg, t, commits)
  {
    hide Balanced;
  }
}
