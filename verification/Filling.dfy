/** Against a node that keeps its active chain: gaps are filled with the node's blocks and meet the chain above them. */
module Filling {
  import opened Outcomes
  import opened Node
  import opened Schema
  import opened Store
  import opened Sync
  import opened Chain
  import opened ForkPoint
  import opened Ledger
  import opened Accounts
  import opened Rows
  import opened Rebuild
  import opened Backfill
  import opened Gaps

  // ---- Rows and accounts ---------------------------------------------------------------

  /** A fill keeps every block's rows and accounts for each commit, whatever the node does. */
  lemma {:induction false} BalancedFill(
    w: World, cfg: Config, t: Tables, commits: multiset<Hash>, next: Option<Hash>, beginning: int, s: Script)
    requires ValidWorld(w) && ValidScript(w, s) && Balanced(w, cfg, t, commits)
    ensures var out := Fill(w, cfg, t, next, beginning, s); Balanced(w, cfg, out.t, commits + multiset(out.stored))
    decreases |s|
  {
    hide Balanced, StoreBlockSpec, ValidScript, ValidWorld;
    RestValid(w, s);
    RestValid(w, Rest(s));
    assert commits + multiset([]) == commits;
    if next.Some? {
      var answer := BlockAnswer(w, s, next.value);
      if answer.Ok? {
        var b := answer.value;
        NextIsChild(w, s, next.value);
        if b.height <= beginning {
          StoreScript(w, cfg, t, b, Rest(s));
          var out := StoreBlockSpec(w, cfg, t, b, Rest(s));
          if out.result.Ok? {
            BalancedStore(w, cfg, t, commits, b, Rest(s));
            BalancedFill(w, cfg, out.t, commits + multiset{b.hash}, b.next, beginning, out.s);
            var rest := Fill(w, cfg, out.t, b.next, beginning, out.s);
            assert multiset([b.hash] + rest.stored) == multiset{b.hash} + multiset(rest.stored);
            assert commits + multiset{b.hash} + multiset(rest.stored) == commits + multiset([b.hash] + rest.stored);
          }
        } else if Live(Rest(s)) {
          BalancedFill(w, cfg, t, commits, b.next, beginning, Rest(Rest(s)));
        }
      }
    }
  }

  /** So does a whole run of the backfill, which also keeps every row at the height of its block. */
  lemma {:induction false} BalancedBackfill(w: World, cfg: Config, t: Tables, commits: multiset<Hash>, s: Script)
    requires ValidWorld(w) && ValidScript(w, s) && Balanced(w, cfg, t, commits) && OwnHeights(w, t)
    ensures var out := BackfillSpec(w, cfg, t, s);
      Balanced(w, cfg, out.t, commits + multiset(out.stored)) && OwnHeights(w, out.t)
    decreases |s|
  {
    hide Balanced, OwnHeights, SyncGapBlocksSpec, ValidScript, ValidWorld;
    assert commits + multiset([]) == commits;
    if s != [] {
      BalancedPass(w, cfg, t, commits, s);
      var out := SyncGapBlocksSpec(w, cfg, t, s);
      if out.result.Err? {
        BalancedBackfill(w, cfg, out.t, commits + multiset(out.stored), out.s);
        var rest := BackfillSpec(w, cfg, out.t, out.s);
        assert commits + multiset(out.stored) + multiset(rest.stored) == commits + multiset(out.stored + rest.stored);
      }
    }
  }

  lemma BalancedPass(w: World, cfg: Config, t: Tables, commits: multiset<Hash>, s: Script)
    requires ValidWorld(w) && ValidScript(w, s) && Balanced(w, cfg, t, commits) && OwnHeights(w, t)
    ensures var out := SyncGapBlocksSpec(w, cfg, t, s);
      && ValidScript(w, out.s) && Balanced(w, cfg, out.t, commits + multiset(out.stored)) && OwnHeights(w, out.t)
  {
    hide Balanced, OwnHeights, GetSyncedHeadSpec, Search, Fill, ValidScript, ValidWorld, OnlyOrphans,
      BlockHashAnswer, StoredFrom;
    assert commits + multiset([]) == commits;
    HeadOwnHeights(w, t, s);
    var head := GetSyncedHeadSpec(t, s);
    BalancedOrphans(w, cfg, t, commits, head.t);
    if head.result.Ok? {
      SearchScript(w, head.t, head.result.value.height, None, head.s);
      var found := Search(head.t, head.result.value.height, None, head.s);
      RestValid(w, found.s);
      if found.result.Ok? && found.result.value.beginning.Some? {
        var first := BlockHashAnswer(found.s, found.result.value.end + 1);
        var beginning := found.result.value.beginning.value;
        if first.Ok? {
          BalancedFill(w, cfg, head.t, commits, Some(first.value), beginning, Rest(found.s));
          FillStores(w, cfg, head.t, Some(first.value), beginning, Rest(found.s));
          StoredOwnHeights(w, head.t, Some(first.value),
            Fill(w, cfg, head.t, Some(first.value), beginning, Rest(found.s)));
        }
      }
    }
  }

  // ---- The search ----------------------------------------------------------------------

  lemma {:induction false} SearchSteady(t: Tables, h: int, beginning: Option<int>, s: Script, active: seq<Hash>)
    requires Steady(s, active) && h >= -1
    ensures var f := Search(t, h, beginning, s);
      Steady(f.s, active) && |f.s| + h + 1 >= |s| && (|s| > h ==> f.result.Ok?)
    decreases h + 1
  {
    hide RowAt, Steady;
    SteadyRest(s, active);
    SteadyIsLive(s, active);
    if h > -1 && Live(s) {
      if RowAt(t.blocks, h).None? {
        SearchSteady(t, h - 1, if beginning.None? then Some(h) else beginning, Rest(s), active);
      } else if beginning.None? {
        SearchSteady(t, h - 1, None, Rest(s), active);
      }
    }
  }

  // ---- The fill ------------------------------------------------------------------------

  /** Storing the block of a missing height leaves the heights above it missing. */
  lemma StillAbsent(w: World, t: Tables, b: Hash, h: int, high: int, u: Tables)
    requires Absent(t, h - 1, high) && u.blocks == t.blocks[b := BlockRow(h, false)]
    ensures Absent(u, h, high)
  {
    hide RowAt;
    forall j | h < j <= high ensures RowAt(u.blocks, j).None? {
      assert RowAt(t.blocks, j).None?;
    }
  }

  lemma AbsentFree(t: Tables, b: Hash, h: nat, high: int)
    requires Absent(t, h - 1, high) && h <= high
    ensures CanUpsert(t, b, h)
  {
    hide RowAt;
    assert RowAt(t.blocks, h).None?;
  }

  /**
   * From the missing height h on: the node's blocks in order, each of which can be stored; if time suffices, up to high
   * or to the first block that cannot be stored.
   */
  ghost predicate FillOutcome(w: World, cfg: Config, active: seq<Hash>, h: nat, high: int, s: Script, out: WalkOut)
  {
    var n := |out.stored|;
    && Steady(out.s, active)
    && h + n <= |active| && out.stored == active[h..h + n]
    && h + n <= high + 1
    && (forall i | h <= i < h + n :: StorableAt(w, cfg, active, i))
    && (|s| >= 4 * (high + 1 - h) ==> h + n == high + 1 || !StorableAt(w, cfg, active, h + n))
    && |out.s| + 4 * (|active| - h) + 1 >= |s|
  }

  lemma {:induction false} PastSteady(
    w: World, cfg: Config, t: Tables, h: nat, high: int, s: Script, active: seq<Hash>)
    requires ValidScript(w, s) && Steady(s, active) && high < h <= |active|
    ensures var out := Fill(w, cfg, t, BlockAtHeight(active, h), high, s);
      Steady(out.s, active) && out.stored == [] && |out.s| + 2 * (|active| - h) + 1 >= |s|
    decreases |s|
  {
    hide StoreBlockSpec, ValidScript, Steady;
    RestValid(w, s);
    RestValid(w, Rest(s));
    SteadyRest(s, active);
    SteadyRest(Rest(s), active);
    SteadyIsLive(s, active);
    if h < |active| && s != [] {
      SteadyBlock(w, s, active, h);
      if Live(Rest(s)) {
        PastSteady(w, cfg, t, h + 1, high, Rest(Rest(s)), active);
      }
    }
  }

  lemma FillGoesOn(w: World, cfg: Config, active: seq<Hash>, h: nat, high: int, s: Script, s1: Script, rest: WalkOut)
    requires h <= high < |active| && |s1| + 4 >= |s| && StorableAt(w, cfg, active, h)
    requires FillOutcome(w, cfg, active, h + 1, high, s1, rest)
    ensures FillOutcome(w, cfg, active, h, high, s, Prepend([active[h]], rest))
  {
    hide Steady, StorableAt;
    assert active[h..h + 1 + |rest.stored|] == [active[h]] + active[h + 1..h + 1 + |rest.stored|];
  }

  lemma FillStops(w: World, cfg: Config, active: seq<Hash>, h: nat, high: int, s: Script, out: WalkOut)
    requires h <= high < |active| && Steady(out.s, active) && out.stored == [] && |out.s| + 4 >= |s|
    requires |s| < 4 || !StorableAt(w, cfg, active, h)
    ensures FillOutcome(w, cfg, active, h, high, s, out)
  {
    hide Steady, StorableAt;
    assert active[h..h] == [];
  }

  /** What storing the block of a missing height does. */
  lemma StoreMissing(
    w: World, cfg: Config, t: Tables, commits: multiset<Hash>, h: nat, high: int, b: Block, s: Script,
      active: seq<Hash>)
    requires ValidWorld(w) && ValidScript(w, s) && Steady(s, active) && Balanced(w, cfg, t, commits)
    requires h <= high < |active| && Absent(t, h - 1, high) && FromTree(w, b) && b.hash == active[h] && b.height == h
    ensures var out := StoreBlockSpec(w, cfg, t, b, s);
      && ValidScript(w, out.s) && Steady(out.s, active) && |out.s| + 3 >= |s|
      && (out.result.Ok? ==>
            && StorableAt(w, cfg, active, h) && Absent(out.t, h, high)
            && Balanced(w, cfg, out.t, commits + multiset{b.hash}))
      && (out.result.Err? ==> |s| < 3 || !StorableAt(w, cfg, active, h))
  {
    hide Accounted, Valid, Conserved, StoreBlockSpec, ValidScript, ValidWorld, Steady, Absent, Storable, Committed,
      CanUpsert;
    AbsentFree(t, b.hash, h, high);
    StoreScript(w, cfg, t, b, s);
    StoreBlockExactly(w, cfg, t, b, s);
    SteadyStore(w, cfg, t, b, s, active);
    var out := StoreBlockSpec(w, cfg, t, b, s);
    if out.result.Ok? {
      StoredRow(w, cfg, t, b, s);
      StillAbsent(w, t, b.hash, h, high, out.t);
      BalancedStore(w, cfg, t, commits, b, s);
    }
  }

  lemma {:induction false} FillSteady(
    w: World, cfg: Config, t: Tables, commits: multiset<Hash>, h: nat, high: int, s: Script, active: seq<Hash>)
    requires ValidWorld(w) && ValidScript(w, s) && Steady(s, active) && Balanced(w, cfg, t, commits)
    requires h <= high + 1 <= |active| && Absent(t, h - 1, high)
    ensures FillOutcome(w, cfg, active, h, high, s, Fill(w, cfg, t, BlockAtHeight(active, h), high, s))
    decreases |s|
  {
    hide Balanced, StoreBlockSpec, ValidScript, ValidWorld, Steady, Absent, StorableAt, FillOutcome;
    RestValid(w, s);
    SteadyRest(s, active);
    SteadyIsLive(s, active);
    var out := Fill(w, cfg, t, BlockAtHeight(active, h), high, s);
    if h == high + 1 {
      PastSteady(w, cfg, t, h, high, s, active);
      NothingLeft(w, cfg, active, h, high, s, out);
    } else if s == [] {
      FillStops(w, cfg, active, h, high, s, out);
    } else {
      SteadyBlock(w, s, active, h);
      var b := BlockAnswer(w, s, active[h]).value;
      StoreMissing(w, cfg, t, commits, h, high, b, Rest(s), active);
      var first := StoreBlockSpec(w, cfg, t, b, Rest(s));
      if first.result.Ok? {
        FillSteady(w, cfg, first.t, commits + multiset{b.hash}, h + 1, high, first.s, active);
        FillGoesOn(w, cfg, active, h, high, s, first.s, Fill(w, cfg, first.t, b.next, high, first.s));
      } else {
        FillStops(w, cfg, active, h, high, s, out);
      }
    }
  }

  lemma NothingLeft(w: World, cfg: Config, active: seq<Hash>, h: nat, high: int, s: Script, out: WalkOut)
    requires h == high + 1 <= |active| && Steady(out.s, active) && out.stored == []
      && |out.s| + 2 * (|active| - h) + 1 >= |s|
    ensures FillOutcome(w, cfg, active, h, high, s, out)
  {
    hide Steady, StorableAt;
    assert active[h..h] == [];
  }
}
