/**
 * A completed round against an unchanging node: exactly when it leaves what a fresh database would hold, and exactly
 * when a round completes.
 */
module Rebuild {
  import opened Outcomes
  import opened Node
  import opened Schema
  import opened Store
  import opened Sync
  import opened Chain
  import opened Safety
  import opened ForkPoint
  import opened Ledger
  import opened Accounts
  import opened Rows

  /** The node's active chain from a base height. */
  function FromBase(active: seq<Hash>, base: nat): seq<Hash>
  {
    if base <= |active| then active[base..] else []
  }

  /** The block of height h can be stored. */
  ghost predicate StorableAt(w: World, cfg: Config, active: seq<Hash>, h: int)
  {
    0 <= h < |active| && active[h] in w.tree && Storable(w, cfg, active[h])
  }

  /** All of the node's blocks from height h on can be stored. */
  ghost predicate StorableFrom(w: World, cfg: Config, active: seq<Hash>, h: int)
  {
    forall i | h <= i < |active| && 0 <= i :: StorableAt(w, cfg, active, i)
  }

  function BlockAtHeight(active: seq<Hash>, h: nat): Option<Hash>
  {
    if h < |active| then Some(active[h]) else None
  }

  // ---- The walk along an unchanging chain ----------------------------------------------

  /**
   * The node's blocks from height h on, in order, each of which can be stored; if rows lie below and time suffices, the
   * walk ends at the tip or at the first block that cannot be stored.
   */
  ghost predicate WalkOutcome(w: World, cfg: Config, active: seq<Hash>, h: nat, s: Script, free: bool, out: WalkOut)
  {
    var n := |out.stored|;
    && Steady(out.s, active)
    && h + n <= |active| && out.stored == active[h..h + n]
    && (forall i | h <= i < h + n :: StorableAt(w, cfg, active, i))
    && (out.result.Ok? ==> h + n == |active|)
    && (free && out.result.Err? && |s| >= 4 * (|active| - h) ==> h + n < |active| && !StorableAt(w, cfg, active, h + n))
  }

  lemma WalkStops(w: World, cfg: Config, active: seq<Hash>, h: nat, s: Script, free: bool, out: WalkOut)
    requires h < |active| && Steady(out.s, active) && out.stored == [] && out.result.Err?
    requires free ==> |s| < 4 || !StorableAt(w, cfg, active, h)
    ensures WalkOutcome(w, cfg, active, h, s, free, out)
  {
    hide Steady, StorableAt;
    assert active[h..h] == [];
  }

  lemma WalkGoesOn(
    w: World, cfg: Config, active: seq<Hash>, h: nat, s: Script, s1: Script, free: bool, free1: bool, rest: WalkOut)
    requires h < |active| && |s1| + 4 >= |s| && (free ==> free1) && StorableAt(w, cfg, active, h)
    requires WalkOutcome(w, cfg, active, h + 1, s1, free1, rest)
    ensures WalkOutcome(w, cfg, active, h, s, free, Prepend([active[h]], rest))
  {
    hide Steady, StorableAt;
    assert active[h..h + 1 + |rest.stored|] == [active[h]] + active[h + 1..h + 1 + |rest.stored|];
  }

  lemma WalkEnds(w: World, cfg: Config, active: seq<Hash>, s: Script, free: bool, out: WalkOut)
    requires Steady(out.s, active) && out.stored == [] && out.result.Ok?
    ensures WalkOutcome(w, cfg, active, |active|, s, free, out)
  {
    hide Steady, StorableAt;
    assert active[|active|..|active|] == [];
  }

  lemma SteadyBlock(w: World, s: Script, active: seq<Hash>, h: nat)
    requires ValidScript(w, s) && Steady(s, active) && s != [] && h < |active|
    ensures BlockAnswer(w, s, active[h]).Ok?
    ensures var b := BlockAnswer(w, s, active[h]).value;
      FromTree(w, b) && b.hash == active[h] && b.height == h && b.next == BlockAtHeight(active, h + 1)
  {
    assert ValidMoment(w, s[0]);
  }

  lemma SteadyStore(w: World, cfg: Config, t: Tables, b: Block, s: Script, active: seq<Hash>)
    requires b.hash in w.tree && Steady(s, active)
    ensures var out := StoreBlockSpec(w, cfg, t, b, s); Steady(out.s, active) && |out.s| + 3 >= |s|
    ensures |s| >= 3 ==> forall i | 0 <= i < 3 :: s[i].up
  {
    SteadyRest(s, active);
    SteadyRest(Rest(s), active);
    SteadyRest(Rest(Rest(s)), active);
    hide BitcoinBlockStored, BlockStored;
  }

  /** Storing the node's block of height h: commits if the height is free, the block storable and three moments left. */
  lemma StoreNext(
    w: World, cfg: Config, t: Tables, commits: multiset<Hash>, h: nat, b: Block, s: Script, active: seq<Hash>)
    requires ValidWorld(w) && ValidScript(w, s) && Steady(s, active) && Balanced(w, cfg, t, commits)
    requires h < |active| && FromTree(w, b) && b.hash == active[h] && b.height == h
    ensures var out := StoreBlockSpec(w, cfg, t, b, s);
      && ValidScript(w, out.s) && Steady(out.s, active) && |out.s| + 3 >= |s|
      && (out.result.Ok? ==>
            && StorableAt(w, cfg, active, h) && Balanced(w, cfg, out.t, commits + multiset{b.hash})
            && (RowsBelow(t, h) ==> RowsBelow(out.t, h + 1)))
      && (out.result.Err? && RowsBelow(t, h) ==> |s| < 3 || !StorableAt(w, cfg, active, h))
  {
    hide Accounted, Valid, Conserved, StoreBlockSpec, ValidScript, ValidWorld, Steady, Storable, Committed,
      CanUpsert, RowsBelow;
    StoreScript(w, cfg, t, b, s);
    StoreBlockExactly(w, cfg, t, b, s);
    SteadyStore(w, cfg, t, b, s, active);
    var out := StoreBlockSpec(w, cfg, t, b, s);
    if RowsBelow(t, h) {
      BelowFree(t, b.hash, h);
    }
    if out.result.Ok? {
      StoredRow(w, cfg, t, b, s);
      BalancedStore(w, cfg, t, commits, b, s);
      if RowsBelow(t, h) {
        BelowAfter(t, b.hash, h, out.t);
      }
    }
  }

  lemma {:induction false} SteadyWalk(
    w: World, cfg: Config, t: Tables, commits: multiset<Hash>, h: nat, s: Script, active: seq<Hash>)
    requires ValidWorld(w) && ValidScript(w, s) && Steady(s, active) && Balanced(w, cfg, t, commits) && h <= |active|
    ensures WalkOutcome(w, cfg, active, h, s, RowsBelow(t, h), Walk(w, cfg, t, BlockAtHeight(active, h), s))
    decreases |s|
  {
    hide ValidScript, StoreBlockSpec, Balanced, ValidWorld, Steady, StorableAt, RowsBelow, WalkOutcome;
    RestValid(w, s);
    SteadyRest(s, active);
    SteadyIsLive(s, active);
    var free := RowsBelow(t, h);
    var out := Walk(w, cfg, t, BlockAtHeight(active, h), s);
    if h == |active| {
      WalkEnds(w, cfg, active, s, free, out);
    } else if s == [] {
      WalkStops(w, cfg, active, h, s, free, out);
    } else {
      SteadyBlock(w, s, active, h);
      var b := BlockAnswer(w, s, active[h]).value;
      StoreNext(w, cfg, t, commits, h, b, Rest(s), active);
      var first := StoreBlockSpec(w, cfg, t, b, Rest(s));
      if first.result.Ok? {
        SteadyWalk(w, cfg, first.t, commits + multiset{b.hash}, h + 1, first.s, active);
        var rest := Walk(w, cfg, first.t, b.next, first.s);
        WalkGoesOn(w, cfg, active, h, s, first.s, free, RowsBelow(first.t, h + 1), rest);
      } else {
        WalkStops(w, cfg, active, h, s, free, out);
      }
    }
  }

  // ---- The rows after a completed round ------------------------------------------------

  /** The row that the node's chain from a base height has at height j. */
  function Expected(active: seq<Hash>, base: nat, j: int): Option<Hash>
  {
    if base <= j < |active| then Some(active[j]) else None
  }

  /** The rows of u up to height k, and above them the node's blocks from height first on. */
  ghost predicate RowsAfter(u: Tables, k: int, first: nat, active: seq<Hash>, t: Tables)
  {
    forall j | j >= 0 :: RowAt(t.blocks, j) == if j <= k then RowAt(u.blocks, j) else Expected(active, first, j)
  }

  lemma StoredUnflagged(w: World, t: Tables, next: Option<Hash>, out: WalkOut)
    requires Unflagged(t) && StoredFrom(w, t, next, out)
    ensures Unflagged(out.t)
  {
  }

  lemma ValidHeights(t: Tables)
    requires Valid(t)
    ensures UniqueHeights(t.blocks)
  {
  }

  lemma WalkRows(w: World, t: Tables, k: int, first: nat, active: seq<Hash>, out: WalkOut)
    requires OwnHeights(w, t) && Capped(t, k) && k < first < |active| && Path(w, 0, active)
    requires StoredFrom(w, t, Some(active[first]), out) && out.stored == active[first..] && UniqueHeights(out.t.blocks)
    ensures RowsAfter(t, k, first, active, out.t)
  {
    NothingAbove(t, k);
    hide RowAt, OwnHeights, StoredFrom, UniqueHeights, Capped;
    forall i | 0 <= i < |out.stored| ensures out.stored[i] in w.tree && w.tree[out.stored[i]].height == first + i {
      assert out.stored[i] == active[first + i];
    }
    forall j | j >= 0
      ensures RowAt(out.t.blocks, j) == if j <= k then RowAt(t.blocks, j) else Expected(active, first, j)
    {
      RowAfter(w, t, Some(active[first]), out, j);
      if first <= j < |active| {
        assert out.stored[j - first] == active[j];
      }
    }
  }

  /** Nothing to add: the tip is below the first height. */
  lemma IdleRows(t: Tables, k: int, first: nat, active: seq<Hash>)
    requires Capped(t, k) && |active| <= first
    ensures RowsAfter(t, k, first, active, t)
  {
    NothingAbove(t, k);
    hide RowAt;
  }

  lemma FirstIsNat(cfg: Config, head: Head)
    requires head.height >= -1
    ensures FirstHeight(cfg, head) >= 0
  {
  }

  /** From the head on, on any tables whose rows sit at their heights. */
  lemma RestOfRound(
    w: World, cfg: Config, t: Tables, commits: multiset<Hash>, k: int, first: nat, s: Script, active: seq<Hash>,
      out: WalkOut)
    requires ValidWorld(w) && ValidScript(w, s) && Steady(s, active) && Balanced(w, cfg, t, commits)
    requires OwnHeights(w, t) && Capped(t, k) && k < first < |active| && Path(w, 0, active)
    requires out == Walk(w, cfg, t, Some(active[first]), s)
    ensures WalkOutcome(w, cfg, active, first, s, RowsBelow(t, first), out) && ValidScript(w, out.s)
    ensures Balanced(w, cfg, out.t, commits + multiset(out.stored)) && OwnHeights(w, out.t) && Unflagged(out.t)
    ensures out.result.Ok? ==> RowsAfter(t, k, first, active, out.t)
  {
    hide ValidScript, ValidWorld, Steady, Conserved, Accounted, Valid, OwnHeights, Walk, Path, RowsBelow, StoredFrom,
      RowsAfter, StorableAt;
    SteadyWalk(w, cfg, t, commits, first, s, active);
    BalancedWalk(w, cfg, t, commits, Some(active[first]), s);
    WalkStores(w, cfg, t, Some(active[first]), s);
    StoredOwnHeights(w, t, Some(active[first]), out);
    StoredUnflagged(w, t, Some(active[first]), out);
    if out.result.Ok? {
      ValidHeights(out.t);
      hide Capped;
      assert out.stored == active[first..];
      WalkRows(w, t, k, first, active, out);
    }
  }

  /** The whole table of heights after a completed round: the rows the head kept, and the node's blocks above them. */
  lemma SteadyRoundRows(w: World, cfg: Config, t: Tables, commits: multiset<Hash>, s: Script, active: seq<Hash>)
    requires ValidWorld(w) && ValidScript(w, s) && Steady(s, active) && Balanced(w, cfg, t, commits) && OwnHeights(w, t)
    requires SyncBlocksSpec(w, cfg, t, s).result.Ok?
    ensures GetSyncedHeadSpec(t, s).result.Ok? && FirstHeight(cfg, GetSyncedHeadSpec(t, s).result.value) >= 0
    ensures var out, head := SyncBlocksSpec(w, cfg, t, s), GetSyncedHeadSpec(t, s);
      var k := head.result.value.height;
      && -1 <= k < |active| && Path(w, 0, active)
      && RowsAfter(head.t, k, FirstHeight(cfg, head.result.value), active, out.t)
      && OwnHeights(w, out.t) && Unflagged(out.t) && Balanced(w, cfg, out.t, commits + multiset(out.stored))
  {
    hide GetSyncedHeadSpec, ValidScript, ValidWorld, Steady, Balanced, OwnHeights, Walk, BlockHashAnswer, RowsAfter,
      Path, WalkOutcome;
    HeadEnds(w, cfg, t, commits, s, active);
    var head := GetSyncedHeadSpec(t, s);
    var k := head.result.value.height;
    FirstIsNat(cfg, head.result.value);
    FirstHeights(cfg, head.result.value);
    var first := FirstHeight(cfg, head.result.value);
    SteadyAnswer(head.s, active, first);
    assert head.s != [];
    ActivePath(w, head.s, active);
    RestValid(w, head.s);
    SteadyRest(head.s, active);
    assert commits + multiset([]) == commits;
    if first < |active| {
      RestOfRound(w, cfg, head.t, commits, k, first, Rest(head.s), active, SyncBlocksSpec(w, cfg, t, s));
    } else {
      IdleRows(head.t, k, first, active);
    }
  }

  // ---- When the round follows the node -------------------------------------------------

  /** A table of own heights is a chain if and only if each height holds the chain's block, or no row. */
  lemma FollowsIff(w: World, t: Tables, base: nat, active: seq<Hash>)
    requires Path(w, 0, active) && OwnHeights(w, t) && Unflagged(t) && UniqueHeights(t.blocks)
    ensures Settled(w, t, base, FromBase(active, base)) <==>
      forall j | j >= 0 :: RowAt(t.blocks, j) == Expected(active, base, j)
  {
    var chain := FromBase(active, base);
    hide RowAt;
    if forall j | j >= 0 :: RowAt(t.blocks, j) == Expected(active, base, j) {
      ExpectedIsChain(w, t, base, active);
    }
    hide OwnHeights, Unflagged, UniqueHeights;
    if Settled(w, t, base, chain) {
      hide Holds;
      forall j | j >= 0 ensures RowAt(t.blocks, j) == Expected(active, base, j) {
        RowOnChain(w, t, base, chain, |chain|, j);
      }
    }
  }

  lemma ExpectedIsChain(w: World, t: Tables, base: nat, active: seq<Hash>)
    requires Path(w, 0, active) && OwnHeights(w, t) && Unflagged(t) && UniqueHeights(t.blocks)
    requires forall j | j >= 0 :: RowAt(t.blocks, j) == Expected(active, base, j)
    ensures Settled(w, t, base, FromBase(active, base))
  {
    hide RowAt;
    var chain := FromBase(active, base);
    forall i | 0 <= i < |chain| ensures chain[i] in t.blocks && t.blocks[chain[i]] == BlockRow(base + i, false) {
      assert RowAt(t.blocks, base + i) == Some(chain[i]);
    }
    forall b | b in t.blocks && b != DEADBEEF
      ensures b in w.tree && (t.blocks[b] == BlockRow(-2, true) || OnChain(t, base, chain, b))
    {
      if t.blocks[b] != BlockRow(-2, true) {
        OnlyRowAt(t, b, t.blocks[b].height);
      }
    }
  }

  /** The rows up to the head are the node's from the base height on, and there are none below it. */
  ghost predicate KeptFollows(u: Tables, k: int, base: nat, active: seq<Hash>)
  {
    forall j | 0 <= j <= k :: RowAt(u.blocks, j) == Expected(active, base, j)
  }

  function Max(a: int, b: int): int { if a < b then b else a }

  /** The round leaves out no height between the head and the tip. */
  predicate NoneSkipped(k: int, base: nat, first: int, active: seq<Hash>)
  {
    Max(k + 1, base) >= |active| || first == Max(k + 1, base)
  }

  lemma RowsFollowIff(u: Tables, k: int, base: nat, first: nat, active: seq<Hash>, t: Tables)
    requires RowsAfter(u, k, first, active, t) && -1 <= k < first && k < |active| && base <= first
    ensures (forall j | j >= 0 :: RowAt(t.blocks, j) == Expected(active, base, j)) <==>
      KeptFollows(u, k, base, active) && NoneSkipped(k, base, first, active)
  {
    hide RowAt;
    var gap := Max(k + 1, base);
    if KeptFollows(u, k, base, active) && !NoneSkipped(k, base, first, active) {
      assert RowAt(t.blocks, gap) != Expected(active, base, gap);
    }
    if !KeptFollows(u, k, base, active) {
      var j :| 0 <= j <= k && RowAt(u.blocks, j) != Expected(active, base, j);
      assert RowAt(t.blocks, j) != Expected(active, base, j);
    }
  }

  /**
   * From any tables whose rows sit at their heights, a completed round against an unchanging node leaves exactly the
   * node's chain from a base height if and only if the rows that the head keeps are that chain's, and no height between
   * head and tip is skipped, as happens when the head lies below the fast-sync height.
   */
  lemma SteadyRoundIff(
    w: World, cfg: Config, t: Tables, commits: multiset<Hash>, base: nat, s: Script, active: seq<Hash>)
    requires ValidWorld(w) && ValidScript(w, s) && Steady(s, active) && Balanced(w, cfg, t, commits) && OwnHeights(w, t)
    requires SyncBlocksSpec(w, cfg, t, s).result.Ok? && base <= Base(cfg)
    ensures GetSyncedHeadSpec(t, s).result.Ok?
    ensures var head := GetSyncedHeadSpec(t, s);
      var k := head.result.value.height;
      Settled(w, SyncBlocksSpec(w, cfg, t, s).t, base, FromBase(active, base)) <==>
        KeptFollows(head.t, k, base, active) && NoneSkipped(k, base, FirstHeight(cfg, head.result.value), active)
  {
    hide GetSyncedHeadSpec, SyncBlocksSpec, ValidScript, ValidWorld, Steady, Conserved, Accounted, OwnHeights,
      RowsAfter, Path, KeptFollows, NoneSkipped, Unflagged, RowAt;
    SteadyRoundRows(w, cfg, t, commits, s, active);
    var out, head := SyncBlocksSpec(w, cfg, t, s), GetSyncedHeadSpec(t, s);
    ValidHeights(out.t);
    hide Valid;
    FirstHeights(cfg, head.result.value);
    FollowsIff(w, out.t, base, active);
    RowsFollowIff(head.t, head.result.value.height, base, FirstHeight(cfg, head.result.value), active, out.t);
  }

  // ---- On a stored chain ---------------------------------------------------------------

  /** The matched row, if any, was not left flagged by a crash. */
  ghost predicate MatchUnflagged(t: Tables, out: Out<Head>)
  {
    out.result.Ok? && out.result.value.hash.Some? ==>
      out.result.value.hash.value in t.blocks && !t.blocks[out.result.value.hash.value].orphan
  }

  lemma ChainOwnHeights(w: World, t: Tables, base: nat, chain: seq<Hash>, kept: nat)
    requires Holds(w, t, base, chain, kept)
    ensures OwnHeights(w, t)
  {
    forall b | b in t.blocks && b != DEADBEEF
      ensures b in w.tree && (t.blocks[b] == BlockRow(-2, true) || t.blocks[b].height == w.tree[b].height)
    {
      assert t.blocks[b] == BlockRow(-2, true) || OnChain(t, base, chain, b);
    }
  }

  /** The rows that a successful head keeps of a chain are the node's. */
  lemma HeadKeepsNodeRows(
    w: World, t: Tables, base: nat, chain: seq<Hash>, kept: nat, s: Script, active: seq<Hash>)
    requires ValidWorld(w) && ValidScript(w, s) && Steady(s, active)
    requires Holds(w, t, base, chain, kept) && chain != [] && GetSyncedHeadSpec(t, s).result.Ok?
    ensures var head := GetSyncedHeadSpec(t, s);
      var k := head.result.value.height;
      && base <= k < |active| && k < base + |chain| && head.result.value.hash == Some(chain[k - base])
      && forall j | 0 <= j ::
            RowAt(head.t.blocks, j) == if j <= k && j < base + kept then Expected(active, base, j) else None
  {
    hide ValidScript, Steady, GetSyncedHeadSpec, ValidWorld, RowAt, Holds, IsAncestorsFork, Flagged, Buried;
    var head := GetSyncedHeadSpec(t, s);
    var k := head.result.value.height;
    ForkPointReached(w, t, base, chain, kept, s, active);
    HeadKeepsChain(w, t, base, chain, kept, s);
    HoldsSize(w, t, base, chain, kept);
    var rest := chain[..Min(kept, k + 1 - base)];
    assert Settled(w, head.t, base, rest);
    forall j | 0 <= j
      ensures RowAt(head.t.blocks, j) == if j <= k && j < base + kept then Expected(active, base, j) else None
    {
      RowOnChain(w, head.t, base, rest, |rest|, j);
      if base <= j <= k {
        assert Agree(base, chain, active, j);
      }
    }
  }

  /** On a stored chain the kept rows follow the node if and only if the matched row was not flagged. */
  lemma KeptFollowsIff(
    w: World, t: Tables, base: nat, chain: seq<Hash>, kept: nat, s: Script, active: seq<Hash>)
    requires ValidWorld(w) && ValidScript(w, s) && Steady(s, active)
    requires Holds(w, t, base, chain, kept) && GetSyncedHeadSpec(t, s).result.Ok?
    ensures var head := GetSyncedHeadSpec(t, s);
      KeptFollows(head.t, head.result.value.height, base, active) <==> MatchUnflagged(t, head)
  {
    hide ValidScript, Steady, GetSyncedHeadSpec, ValidWorld, RowAt;
    var head := GetSyncedHeadSpec(t, s);
    var k := head.result.value.height;
    if chain == [] {
      HeadKeepsChain(w, t, base, chain, kept, s);
    } else {
      HeadKeepsNodeRows(w, t, base, chain, kept, s, active);
      MatchedFlag(w, t, base, chain, kept, k);
      hide Holds;
      if k >= base + kept {
        assert RowAt(head.t.blocks, k) != Expected(active, base, k);
      }
    }
  }

  /**
   * On a stored chain, whatever orphan update was pending: a completed round against an unchanging node leaves exactly
   * the node's chain from the base height if and only if the row it matched was not left flagged by a crash.
   */
  lemma SteadyRoundFollowsNodeIff(
    w: World, cfg: Config, t: Tables, commits: multiset<Hash>, chain: seq<Hash>, kept: nat, s: Script,
      active: seq<Hash>)
    requires ValidWorld(w) && ValidScript(w, s) && Steady(s, active)
    requires Balanced(w, cfg, t, commits) && Holds(w, t, Base(cfg), chain, kept)
    requires SyncBlocksSpec(w, cfg, t, s).result.Ok?
    ensures Settled(w, SyncBlocksSpec(w, cfg, t, s).t, Base(cfg), FromBase(active, Base(cfg))) <==>
      MatchUnflagged(t, GetSyncedHeadSpec(t, s))
  {
    hide GetSyncedHeadSpec, SyncBlocksSpec, ValidScript, ValidWorld, Steady, Holds, Balanced, MatchUnflagged,
      KeptFollows, OwnHeights;
    ChainOwnHeights(w, t, Base(cfg), chain, kept);
    SteadyRoundIff(w, cfg, t, commits, Base(cfg), s, active);
    KeptFollowsIff(w, t, Base(cfg), chain, kept, s, active);
    HeadHeight(w, t, Base(cfg), chain, kept, s);
    AtBaseNoneSkipped(cfg, GetSyncedHeadSpec(t, s).result.value, active);
  }

  lemma HeadHeight(w: World, t: Tables, base: nat, chain: seq<Hash>, kept: nat, s: Script)
    requires ValidWorld(w) && ValidScript(w, s) && Holds(w, t, base, chain, kept) && GetSyncedHeadSpec(t, s).result.Ok?
    ensures GetSyncedHeadSpec(t, s).result.value.height >= -1
  {
    hide GetSyncedHeadSpec, Holds;
    HeadOutcomes(w, t, base, chain, kept, s);
  }

  lemma AtBaseNoneSkipped(cfg: Config, head: Head, active: seq<Hash>)
    requires head.height >= -1
    ensures NoneSkipped(head.height, Base(cfg), FirstHeight(cfg, head), active)
  {
  }

  // ---- When a round completes ----------------------------------------------------------

  /** Scripts of this length are not exhausted by a round. */
  function Enough(base: nat, chain: seq<Hash>, active: seq<Hash>): int
  {
    2 * Top(base, chain) + 6 + 4 * |active|
  }

  /** With moments enough, the head is found if and only if the tip is high enough and the base blocks are the same. */
  lemma SteadyHeadFoundIff(
    w: World, t: Tables, base: nat, chain: seq<Hash>, kept: nat, s: Script, active: seq<Hash>)
    requires ValidWorld(w) && ValidScript(w, s) && Steady(s, active) && |s| >= Enough(base, chain, active)
    requires Holds(w, t, base, chain, kept)
    ensures var head := GetSyncedHeadSpec(t, s);
      && (head.result.Ok? <==> chain == [] || (Top(base, chain) < |active| && Agree(base, chain, active, base)))
      && (head.result.Ok? ==> Steady(head.s, active) && |head.s| > 4 * |active|)
      && (head.result.Err? ==> head.t == t)
  {
    hide GetSyncedHeadSpec, ValidScript, ValidWorld, Steady, Holds;
    var head := GetSyncedHeadSpec(t, s);
    assert s != [] && |Rest(s)| + 1 == |s|;
    HeadSteady(w, t, base, chain, kept, s, active);
    HeadOutcomes(w, t, base, chain, kept, s);
    HeadUnchanged(t, s);
    if head.result.Ok? && chain != [] {
      ForkPointReached(w, t, base, chain, kept, s, active);
    }
  }

  lemma HeadUnchanged(t: Tables, s: Script)
    ensures GetSyncedHeadSpec(t, s).result.Err? && GetSyncedHeadSpec(t, s).result.error != Unavailable ==>
      GetSyncedHeadSpec(t, s).t == t
  {
    hide Scan;
    ScanUnchanged(t, MaxHeight(t.blocks), Rest(s));
  }

  /** The blocks that a successful head keeps of a stored chain can be stored: each was committed once. */
  lemma KeptStorable(
    w: World, cfg: Config, t: Tables, commits: multiset<Hash>, base: nat, chain: seq<Hash>, kept: nat, s: Script,
    active: seq<Hash>)
    requires ValidWorld(w) && ValidScript(w, s) && Steady(s, active) && Balanced(w, cfg, t, commits)
    requires Holds(w, t, base, chain, kept) && GetSyncedHeadSpec(t, s).result.Ok?
    ensures forall i | base <= i <= GetSyncedHeadSpec(t, s).result.value.height :: StorableAt(w, cfg, active, i)
  {
    hide GetSyncedHeadSpec, ValidScript, ValidWorld, Steady, Valid, Conserved, Storable, Holds, IsAncestorsFork,
      Flagged, Buried;
    if chain == [] {
      HeadKeepsChain(w, t, base, chain, kept, s);
    } else {
      ForkPointReached(w, t, base, chain, kept, s, active);
      var k := GetSyncedHeadSpec(t, s).result.value.height;
      forall i | base <= i <= k ensures StorableAt(w, cfg, active, i) {
        assert Agree(base, chain, active, i);
        MatchedFlag(w, t, base, chain, kept, i);
        NotSentinel(w, t, base, chain, kept, i);
      }
    }
  }

  lemma NotSentinel(w: World, t: Tables, base: nat, chain: seq<Hash>, kept: nat, i: int)
    requires ValidWorld(w) && Holds(w, t, base, chain, kept) && base <= i < base + |chain|
    ensures chain[i - base] != DEADBEEF
  {
  }

  /**
   * With moments enough, a round on a stored chain, also with an orphan update pending, finds its head if and only if
   * nothing is stored yet, or the node's tip is not below the stored top and the two share the block of the base
   * height; without a head it changes nothing. It completes if and only if it finds its head and all blocks of the
   * node's chain from the first height on can be stored; otherwise it stops at the first that cannot, having stored
   * those below. For a base not above the fast-sync height that is a property of the node's chain alone, whatever is
   * stored.
   */
  lemma SteadyRoundCompletesIff(
    w: World, cfg: Config, t: Tables, commits: multiset<Hash>, base: nat, chain: seq<Hash>, kept: nat, s: Script,
    active: seq<Hash>)
    requires ValidWorld(w) && ValidScript(w, s) && Steady(s, active) && |s| >= Enough(base, chain, active)
    requires Balanced(w, cfg, t, commits) && Holds(w, t, base, chain, kept)
    ensures var out, head := SyncBlocksSpec(w, cfg, t, s), GetSyncedHeadSpec(t, s);
      && (head.result.Ok? <==> chain == [] || (Top(base, chain) < |active| && Agree(base, chain, active, base)))
      && (head.result.Err? ==> out.result.Err? && out.t == t)
      && (head.result.Ok? ==>
            var first := FirstHeight(cfg, head.result.value);
            && (out.result.Ok? <==> StorableFrom(w, cfg, active, first))
            && (base <= Base(cfg) ==>
                  (StorableFrom(w, cfg, active, first) <==> StorableFrom(w, cfg, active, Base(cfg))))
            && (out.result.Err? ==> StopsAtUnstorable(w, cfg, active, first, out.stored)))
  {
    hide GetSyncedHeadSpec, ValidScript, ValidWorld, Steady, Holds, Balanced, Walk, BlockHashAnswer, StorableAt,
      Agree, OwnHeights, Capped, RowsBelow, Path;
    var head := GetSyncedHeadSpec(t, s);
    SteadyHeadFoundIff(w, t, base, chain, kept, s, active);
    if head.result.Ok? {
      ChainOwnHeights(w, t, base, chain, kept);
      KeptStorable(w, cfg, t, commits, base, chain, kept, s, active);
      HeadEnds(w, cfg, t, commits, s, active);
      FirstIsNat(cfg, head.result.value);
      FirstHeights(cfg, head.result.value);
      FirstAtBase(cfg, head.result.value);
      var first := FirstHeight(cfg, head.result.value);
      SteadyAnswer(head.s, active, first);
      RestValid(w, head.s);
      SteadyRest(head.s, active);
      ActivePath(w, head.s, active);
      if first < |active| {
        CappedBelow(head.t, head.result.value.height, first);
        SteadyWalk(w, cfg, head.t, commits, first, Rest(head.s), active);
      }
    }
  }

  /** The blocks from height first on up to the first that cannot be stored. */
  ghost predicate StopsAtUnstorable(w: World, cfg: Config, active: seq<Hash>, first: int, stored: seq<Hash>)
  {
    var h := first + |stored|;
    && 0 <= first <= h < |active| && stored == active[first..h]
    && (forall i | first <= i < h :: StorableAt(w, cfg, active, i)) && !StorableAt(w, cfg, active, h)
  }

  lemma FirstAtBase(cfg: Config, head: Head)
    requires head.height >= -1
    ensures FirstHeight(cfg, head) >= Base(cfg)
  {
  }
}
