/** A block that cannot be stored: no round completes while it is on the node's chain, and no mempool is followed. */
module Blocked {
  import opened Node
  import opened Schema
  import opened Spaces
  import opened Store
  import opened Sync
  import opened Chain
  import opened Safety
  import opened ForkPoint
  import opened Accounts
  import opened Rows
  import opened Rebuild
  import opened Views
  import opened Mempool
  import opened Convergence
  import opened Service
  import opened Runs
  import opened Misplaced
  import opened Starved

  /** A round that completes, on any tables and however long its script, stores its way up to the tip. */
  lemma CompletedRoundStores(
    w: World, cfg: Config, t: Tables, commits: multiset<Hash>, s: Script, active: seq<Hash>)
    requires ValidWorld(w) && ValidScript(w, s) && Steady(s, active) && Balanced(w, cfg, t, commits) && OwnHeights(w, t)
    ensures var out, head := SyncBlocksSpec(w, cfg, t, s), GetSyncedHeadSpec(t, s);
      && Steady(out.s, active)
      && (out.result.Ok? ==>
            head.result.Ok? && StorableFrom(w, cfg, active, FirstHeight(cfg, head.result.value)))
  {
    hide Scan, ValidScript, ValidWorld, Steady, Balanced, Walk, BlockHashAnswer, StorableAt, OwnHeights, Capped,
      RowsBelow, Path;
    var head := GetSyncedHeadSpec(t, s);
    SteadyRest(s, active);
    ScanAgrees(t, MaxHeight(t.blocks), Rest(s), active);
    SteadyRest(head.s, active);
    if head.result.Ok? {
      HeadEnds(w, cfg, t, commits, s, active);
      FirstIsNat(cfg, head.result.value);
      FirstHeights(cfg, head.result.value);
      var first := FirstHeight(cfg, head.result.value);
      SteadyAnswer(head.s, active, first);
      RestValid(w, head.s);
      if first < |active| {
        SteadyWalk(w, cfg, head.t, commits, first, Rest(head.s), active);
      }
    }
  }

  /** On a stored chain such a round shows that all blocks of the node's chain can be stored. */
  lemma CompletedRoundStorable(
    w: World, cfg: Config, t: Tables, commits: multiset<Hash>, base: nat, chain: seq<Hash>, kept: nat, s: Script,
    active: seq<Hash>)
    requires ValidWorld(w) && ValidScript(w, s) && Steady(s, active) && Balanced(w, cfg, t, commits)
    requires Holds(w, t, base, chain, kept) && base <= Base(cfg) && SyncBlocksSpec(w, cfg, t, s).result.Ok?
    ensures StorableFrom(w, cfg, active, Base(cfg))
  {
    hide GetSyncedHeadSpec, SyncBlocksSpec, ValidScript, ValidWorld, Steady, Holds, Balanced, StorableAt, OwnHeights;
    ChainOwnHeights(w, t, base, chain, kept);
    CompletedRoundStores(w, cfg, t, commits, s, active);
    KeptStorable(w, cfg, t, commits, base, chain, kept, s, active);
    FirstHeights(cfg, GetSyncedHeadSpec(t, s).result.value);
  }

  lemma BlockedTurn(
    w: World, cfg: Config, t: Tables, commits: multiset<Hash>, base: nat, s: Script, active: seq<Hash>)
    requires ValidWorld(w) && ValidScript(w, s) && Steady(s, active) && Consistent(w, cfg, t, commits)
    requires HasChain(w, t, base) && base <= Base(cfg) && !StorableFrom(w, cfg, active, Base(cfg))
    ensures TurnSpec(w, cfg, t, s).turn.log == [] && Steady(TurnSpec(w, cfg, t, s).s, active)
  {
    hide GetSyncedHeadSpec, SyncBlocksSpec, SyncMempoolSpec, ValidScript, ValidWorld, Steady, Holds, Balanced,
      PoolReady, OwnHeights, StorableFrom;
    RestValid(w, s);
    SteadyRest(s, active);
    var chain, kept :| Holds(w, t, base, chain, kept);
    CompletedRoundStores(w, cfg, t, commits, Rest(s), active);
    if SyncBlocksSpec(w, cfg, t, Rest(s)).result.Ok? {
      CompletedRoundStorable(w, cfg, t, commits, base, chain, kept, Rest(s), active);
    }
  }

  /**
   * While the node stays on a chain with a block that cannot be stored, at or above the fast-sync height: in a whole
   * run from a stored chain, as long as its turns are linked, no turn follows the mempool.
   */
  lemma {:induction false} BlockedRunFollowsNoMempool(
    w: World, cfg: Config, t: Tables, commits: multiset<Hash>, base: nat, s: Script, active: seq<Hash>)
    requires ValidWorld(w) && ValidScript(w, s) && Steady(s, active) && Consistent(w, cfg, t, commits)
    requires HasChain(w, t, base) && base <= Base(cfg) && !StorableFrom(w, cfg, active, Base(cfg))
    requires AllLinked(w, cfg, t, base, s)
    ensures Logs(Run(w, cfg, t, s).turns) == []
    decreases |s|
  {
    hide Consistent, TurnSpec, ValidScript, ValidWorld, HasChain, Steady, StorableFrom, TurnLinked;
    if s != [] {
      var out := TurnSpec(w, cfg, t, s);
      BlockedTurn(w, cfg, t, commits, base, s, active);
      TurnConsistent(w, cfg, t, commits, s);
      TurnChain(w, cfg, t, commits, base, s);
      BlockedRunFollowsNoMempool(w, cfg, out.t, commits + multiset(out.turn.stored), base, out.s, active);
      var rest := Run(w, cfg, out.t, out.s);
      assert ([out.turn] + rest.turns)[1..] == rest.turns;
    }
  }

  // ---- Such a block --------------------------------------------------------------------

  /** Above the genesis block one whose meta has an unknown covenant type. */
  function Mysterious(): World
  {
    World(1, map[1 := BlockData(0, 0, [], []), 2 := BlockData(1, 1, [Parent()], [UnknownMeta()])])
  }

  /** Fetches the meta of all blocks. */
  function WithMetas(): Config
  {
    Config(0, -1)
  }

  lemma MysteriousIsValid()
    ensures ValidWorld(Mysterious()) && Path(Mysterious(), 0, [1, 2])
  {
  }

  lemma MysteryNotStorable()
    ensures !StorableAt(Mysterious(), WithMetas(), [1, 2], 1)
  {
    MysteryUnknown();
    hide Fits, RowCount;
    assert Mysterious().tree[2].meta == [UnknownMeta()] && Mysterious().tree[2].meta[0] == UnknownMeta();
  }

  lemma GenesisStorable()
    ensures StorableAt(Mysterious(), WithMetas(), [1, 2], 0)
  {
  }

  /** A fresh database finds no row to match. */
  lemma FreshHead(s: Script)
    requires ValidScript(Mysterious(), s) && GetSyncedHeadSpec(Migrated(), s).result.Ok?
    ensures FirstHeight(WithMetas(), GetSyncedHeadSpec(Migrated(), s).result.value) == 0
  {
    MysteriousIsValid();
    MigratedIsEmptyChain(Mysterious(), WithMetas());
    hide Mysterious, Migrated, ValidWorld, ValidScript, Path, Holds, Balanced, GetSyncedHeadSpec;
    HeadKeepsChain(Mysterious(), Migrated(), 0, [], 0, s);
  }

  lemma StopsAtMystery(stored: seq<Hash>)
    requires StopsAtUnstorable(Mysterious(), WithMetas(), [1, 2], 0, stored)
    ensures stored == [1]
  {
    GenesisStorable();
    hide StorableAt;
    assert |stored| < 2 && stored == [1, 2][0..|stored|];
  }

  lemma FreshParts()
    ensures Balanced(Mysterious(), WithMetas(), Migrated(), multiset{})
    ensures Holds(Mysterious(), Migrated(), 0, [], 0)
    ensures Enough(0, [], [1, 2]) == 12
    ensures !StorableFrom(Mysterious(), WithMetas(), [1, 2], 0)
  {
    MysteriousIsValid();
    MysteryNotStorable();
    MigratedIsEmptyChain(Mysterious(), WithMetas());
    assert Base(WithMetas()) == 0;
    hide Mysterious, Migrated, ValidWorld, Path, Holds, Balanced, StorableAt, WithMetas;
  }

  /** Against a node that stays on the two blocks, the first round from the migrated database fails after block 1. */
  lemma UnknownTypeBlocksChain(s: Script)
    requires ValidScript(Mysterious(), s) && Steady(s, [1, 2]) && |s| >= 12
    ensures ValidWorld(Mysterious())
    ensures var out := SyncBlocksSpec(Mysterious(), WithMetas(), Migrated(), s);
      out.result.Err? && out.stored == [1]
  {
    hide *;
    MysteriousIsValid();
    FreshParts();
    SteadyRoundCompletesIff(Mysterious(), WithMetas(), Migrated(), multiset{}, 0, [], 0, s, [1, 2]);
    FreshHead(s);
    StopsAtMystery(SyncBlocksSpec(Mysterious(), WithMetas(), Migrated(), s).stored);
  }
}
