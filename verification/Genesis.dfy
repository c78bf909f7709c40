/**
 * Passes of the backfill against an unchanging node: gaps meet the chain above, and retries reach the genesis block.
 */
module Genesis {
  import opened Outcomes
  import opened Node
  import opened Schema
  import opened Store
  import opened Sync
  import opened Chain
  import opened ForkPoint
  import opened Ledger
  import opened Accounts
  import opened Rows
  import opened Rebuild
  import opened Backfill
  import opened Gaps
  import opened Filling

  // ---- One pass ------------------------------------------------------------------------

  /** Where both heights have a row, the upper block is a child of the lower. */
  ghost predicate LinkedAt(w: World, t: Tables, h: int)
  {
    RowAt(t.blocks, h).Some? && RowAt(t.blocks, h + 1).Some? ==>
      ChildOf(w, RowAt(t.blocks, h + 1).value, RowAt(t.blocks, h).value)
  }

  ghost predicate AdjacentLinked(w: World, t: Tables)
  {
    forall h | h >= 0 :: LinkedAt(w, t, h)
  }

  /** Heights above end up to high hold the node's blocks, every other height what it held. */
  ghost predicate FilledWith(t: Tables, end: int, high: int, active: seq<Hash>, u: Tables)
  {
    && -1 <= end <= high < |active|
    && (forall j | end < j <= high :: RowAt(u.blocks, j) == Some(active[j]))
    && (forall j | j >= 0 && !(end < j <= high) :: RowAt(u.blocks, j) == RowAt(t.blocks, j))
  }

  lemma StoredFills(w: World, t: Tables, next: Option<Hash>, out: WalkOut, end: int, high: int, active: seq<Hash>)
    requires OwnHeights(w, t) && StoredFrom(w, t, next, out) && UniqueHeights(out.t.blocks) && Absent(t, end, high)
    requires -1 <= end <= high < |active| && out.stored == active[end + 1..high + 1] && Path(w, 0, active)
    ensures FilledWith(t, end, high, active, out.t)
  {
    hide RowAt, OwnHeights, StoredFrom, UniqueHeights;
    forall i | 0 <= i < |out.stored| ensures out.stored[i] in w.tree && w.tree[out.stored[i]].height == end + 1 + i {
      assert out.stored[i] == active[end + 1 + i];
    }
    forall j | j >= 0
      ensures RowAt(out.t.blocks, j) == if end < j <= high then Some(active[j]) else RowAt(t.blocks, j)
    {
      RowAfter(w, t, next, out, j);
      if end < j <= high {
        assert out.stored[j - end - 1] == active[j];
      }
    }
  }

  /** Going down from an agreeing row over linked rows, every row agrees. */
  lemma {:induction false} AgreesDown(w: World, t: Tables, low: int, k: int, active: seq<Hash>)
    requires Path(w, 0, active) && AdjacentLinked(w, t) && -1 <= low <= k < |active| && Present(t, low, k)
    requires low < k ==> RowAt(t.blocks, k) == Some(active[k])
    ensures forall j | low < j <= k :: RowAt(t.blocks, j) == Some(active[j])
    decreases k - low
  {
    hide RowAt;
    if low + 1 < k {
      assert LinkedAt(w, t, k - 1);
      assert w.tree[active[k]].prev == active[k - 1];
      AgreesDown(w, t, low, k - 1, active);
    }
  }

  /** The block on top of the filled gap is the parent of the one in the row just above it. */
  lemma MeetsChain(w: World, t: Tables, end: int, high: int, k: int, active: seq<Hash>, u: Tables)
    requires Path(w, 0, active) && AdjacentLinked(w, t) && FilledWith(t, end, high, active, u)
    requires end < high < k < |active| && Present(t, high, k) && RowAt(t.blocks, k) == Some(active[k])
    ensures RowAt(u.blocks, high) == Some(active[high]) && RowAt(u.blocks, high + 1) == Some(active[high + 1])
    ensures ChildOf(w, active[high + 1], active[high])
  {
    hide RowAt;
    AgreesDown(w, t, high, k, active);
  }

  /** All rows stay linked if and only if the row just below the gap is the node's, too. */
  lemma LinkedAfterFillIff(w: World, t: Tables, end: int, high: int, k: int, active: seq<Hash>, u: Tables)
    requires Path(w, 0, active) && AdjacentLinked(w, t) && FilledWith(t, end, high, active, u)
    requires HighestGap(t, k, end, high) && k < |active| && Capped(t, k)
    requires high < k ==> RowAt(t.blocks, k) == Some(active[k])
    ensures AdjacentLinked(w, u) <==> end == -1 || RowAt(t.blocks, end) == Some(active[end])
  {
    NothingAbove(t, k);
    AgreesDown(w, t, high, k, active);
    hide RowAt, Capped;
    if end == -1 || RowAt(t.blocks, end) == Some(active[end]) {
      forall h | h >= 0 ensures LinkedAt(w, u, h) {
        assert LinkedAt(w, t, h);
        if end <= h <= high {
          assert h + 1 < |active| ==> ChildOf(w, active[h + 1], active[h]);
        }
      }
    } else {
      assert RowAt(u.blocks, end + 1) == Some(active[end + 1]) && w.tree[active[end + 1]].prev == active[end];
      assert !LinkedAt(w, u, end);
    }
  }

  /** The moments one pass takes after its head is found. */
  function PassCost(k: int, active: seq<Hash>): int
  {
    k + 3 + 4 * |active|
  }

  /**
   * A pass that finds a gap against an unchanging node: the node's blocks, from the bottom of the gap on, each of which
   * can be stored; with moments enough, all of them up to the gap's beginning or to the first that cannot be stored.
   */
  lemma PassSteady(
    w: World, cfg: Config, t: Tables, commits: multiset<Hash>, s: Script, active: seq<Hash>, end: int, high: int)
    requires ValidWorld(w) && ValidScript(w, s) && Steady(s, active) && Balanced(w, cfg, t, commits) && OwnHeights(w, t)
    requires GetSyncedHeadSpec(t, s).result.Ok?
    requires HighestGap(GetSyncedHeadSpec(t, s).t, GetSyncedHeadSpec(t, s).result.value.height, end, high)
    ensures var head := GetSyncedHeadSpec(t, s);
      var k := head.result.value.height;
      var out := SyncGapBlocksSpec(w, cfg, t, s);
      var n := |out.stored|;
      && out.result.Err? && high < |active|
      && ValidScript(w, out.s) && Steady(out.s, active)
      && Balanced(w, cfg, out.t, commits + multiset(out.stored)) && OwnHeights(w, out.t) && Capped(out.t, k)
      && n <= high - end && out.stored == active[end + 1..end + 1 + n]
      && FilledWith(head.t, end, end + n, active, out.t)
      && (forall i | end < i <= end + n :: StorableAt(w, cfg, active, i))
      && (|head.s| >= PassCost(k, active) ==>
            && |out.s| + PassCost(k, active) >= |head.s|
            && (n == high - end || !StorableAt(w, cfg, active, end + 1 + n)))
  {
    hide ValidScript, Steady, OwnHeights, GetSyncedHeadSpec, ValidWorld, Balanced, RowAt, Search, Fill, StorableAt,
      Capped, StoredFrom, BlockHashAnswer, Present, FilledWith, Path;
    var head := GetSyncedHeadSpec(t, s);
    var k := head.result.value.height;
    var out := SyncGapBlocksSpec(w, cfg, t, s);
    HeadCaps(w, cfg, t, commits, s, active);
    SearchSteady(head.t, k, None, head.s, active);
    SearchScript(w, head.t, k, None, head.s);
    var found := Search(head.t, k, None, head.s);
    RestValid(w, found.s);
    SteadyRest(found.s, active);
    SteadyAnswer(found.s, active, end + 1);
    assert commits + multiset([]) == commits;
    NothingFilledWith(head.t, end, active);
    if found.result.Ok? {
      SearchedGap(head.t, k, end, high, head.s);
      if found.s != [] {
        ActivePath(w, found.s, active);
        GapFilled(w, cfg, head.t, commits, Rest(found.s), active, end, high, k);
      }
    }
  }

  /** The fill of a gap, from any tables. */
  lemma GapFilled(
    w: World, cfg: Config, t: Tables, commits: multiset<Hash>, s: Script, active: seq<Hash>, end: int, high: int,
    k: int)
    requires ValidWorld(w) && ValidScript(w, s) && Steady(s, active) && Balanced(w, cfg, t, commits)
    requires OwnHeights(w, t) && Capped(t, k) && Path(w, 0, active)
    requires Absent(t, end, high) && -1 <= end < high <= k && high < |active|
    ensures var out := Fill(w, cfg, t, Some(active[end + 1]), high, s);
      var n := |out.stored|;
      && FillOutcome(w, cfg, active, end + 1, high, s, out) && ValidScript(w, out.s)
      && Balanced(w, cfg, out.t, commits + multiset(out.stored)) && OwnHeights(w, out.t) && Capped(out.t, k)
      && FilledWith(t, end, end + n, active, out.t)
  {
    hide ValidScript, Steady, OwnHeights, ValidWorld, Conserved, Accounted, Valid, RowAt, Fill, StorableAt, Capped,
      StoredFrom, FilledWith, Path, UniqueHeights, Absent;
    var next := Some(active[end + 1]);
    var out := Fill(w, cfg, t, next, high, s);
    FillSteady(w, cfg, t, commits, end + 1, high, s, active);
    BalancedFill(w, cfg, t, commits, next, high, s);
    FillStores(w, cfg, t, next, high, s);
    StoredOwnHeights(w, t, next, out);
    StoredCapped(w, t, next, out, k);
    ValidHeights(out.t);
    AbsentBelow(t, end, end + |out.stored|, high);
    StoredFills(w, t, next, out, end, end + |out.stored|, active);
  }

  lemma NothingFilledWith(t: Tables, end: int, active: seq<Hash>)
    ensures -1 <= end < |active| ==> FilledWith(t, end, end, active, t)
  {
    hide RowAt;
  }

  lemma AbsentBelow(t: Tables, end: int, top: int, high: int)
    requires Absent(t, end, high) && top <= high
    ensures Absent(t, end, top)
  {
    hide RowAt;
  }

  lemma StoredCapped(w: World, t: Tables, next: Option<Hash>, out: WalkOut, k: int)
    requires Capped(t, k) && StoredFrom(w, t, next, out)
    requires forall i | 0 <= i < |out.stored| :: w.tree[out.stored[i]].height <= k
    ensures Capped(out.t, k)
  {
  }

  // ---- Linked rows through a pass ------------------------------------------------------

  lemma ChainLinked(w: World, t: Tables, base: nat, chain: seq<Hash>, kept: nat)
    requires Holds(w, t, base, chain, kept)
    ensures AdjacentLinked(w, t)
  {
    HoldsPath(w, t, base, chain, kept);
    hide RowAt, Holds;
    forall h | h >= 0 ensures LinkedAt(w, t, h) {
      RowOnChain(w, t, base, chain, kept, h);
      RowOnChain(w, t, base, chain, kept, h + 1);
    }
  }

  lemma OrphanRowAt(t: Tables, k: int, h: int)
    requires UniqueHeights(t.blocks) && h >= 0
    ensures RowAt(Flagged(t, k).blocks, h).Some? ==> RowAt(Flagged(t, k).blocks, h) == RowAt(t.blocks, h)
    ensures RowAt(Buried(t).blocks, h).Some? ==> RowAt(Buried(t).blocks, h) == RowAt(t.blocks, h)
  {
  }

  lemma FewerRowsLinked(w: World, t: Tables, u: Tables)
    requires AdjacentLinked(w, t)
    requires forall h | h >= 0 && RowAt(u.blocks, h).Some? :: RowAt(u.blocks, h) == RowAt(t.blocks, h)
    ensures AdjacentLinked(w, u)
  {
    hide RowAt;
    forall h | h >= 0 ensures LinkedAt(w, u, h) {
      assert LinkedAt(w, t, h);
    }
  }

  /** The orphan updates only take rows away. */
  lemma OrphansKeepLinked(w: World, t: Tables, u: Tables)
    requires Valid(t) && AdjacentLinked(w, t) && OnlyOrphans(t, u)
    ensures AdjacentLinked(w, u)
  {
    hide RowAt, Flagged, Buried, Valid, AdjacentLinked, UniqueHeights;
    if u != t {
      var k: nat :| u == Flagged(t, k) || u == Buried(Flagged(t, k));
      OrphaningKeepsValid(t, k);
      ValidHeights(t);
      ValidHeights(Flagged(t, k));
      forall h | h >= 0 && RowAt(u.blocks, h).Some? ensures RowAt(u.blocks, h) == RowAt(t.blocks, h) {
        OrphanRowAt(t, k, h);
        OrphanRowAt(Flagged(t, k), k, h);
      }
      FewerRowsLinked(w, t, u);
    }
  }

  /**
   * A pass on linked rows whose walk goes past the beginning of the gap: the block on top of the gap is the parent of
   * the one in the row just above it, and all rows are linked again if and only if the row just below the gap is the
   * node's, too.
   */
  lemma PassMeetsChainIff(
    w: World, cfg: Config, t: Tables, commits: multiset<Hash>, s: Script, active: seq<Hash>, end: int, high: int)
    requires ValidWorld(w) && ValidScript(w, s) && Steady(s, active) && Balanced(w, cfg, t, commits) && OwnHeights(w, t)
    requires AdjacentLinked(w, t) && GetSyncedHeadSpec(t, s).result.Ok?
    requires HighestGap(GetSyncedHeadSpec(t, s).t, GetSyncedHeadSpec(t, s).result.value.height, end, high)
    requires |SyncGapBlocksSpec(w, cfg, t, s).stored| == high - end
    ensures var head, out := GetSyncedHeadSpec(t, s), SyncGapBlocksSpec(w, cfg, t, s);
      var k := head.result.value.height;
      && k < |active| && Path(w, 0, active)
      && (high < k ==>
            && RowAt(out.t.blocks, high) == Some(active[high])
            && RowAt(out.t.blocks, high + 1) == Some(active[high + 1])
            && ChildOf(w, active[high + 1], active[high]))
      && (AdjacentLinked(w, out.t) <==> end == -1 || RowAt(head.t.blocks, end) == Some(active[end]))
  {
    hide ValidScript, Steady, OwnHeights, GetSyncedHeadSpec, SyncGapBlocksSpec, ValidWorld, Conserved, Accounted,
      RowAt, AdjacentLinked, OnlyOrphans, Capped, Present, Absent, Path, FilledWith, Valid;
    var head := GetSyncedHeadSpec(t, s);
    var k := head.result.value.height;
    HasScript(s, t);
    ActivePath(w, s, active);
    HeadCaps(w, cfg, t, commits, s, active);
    HeadOwnHeights(w, t, s);
    OrphansKeepLinked(w, t, head.t);
    PassSteady(w, cfg, t, commits, s, active, end, high);
    var out := SyncGapBlocksSpec(w, cfg, t, s);
    AtHead(head.t, k, end, high, active);
    LinkedAfterFillIff(w, head.t, end, high, k, active, out.t);
    if high < k {
      MeetsChain(w, head.t, end, high, k, active, out.t);
    }
  }

  // ---- All passes ----------------------------------------------------------------------

  /** The highest row is the node's, and no orphan update is pending. */
  ghost predicate Topped(t: Tables, k: int, active: seq<Hash>)
  {
    0 <= k < |active| && Capped(t, k) && RowAt(t.blocks, k) == Some(active[k])
  }

  lemma ToppedOrphans(t: Tables, k: int)
    requires Capped(t, k)
    ensures Flagged(t, k) == t && Buried(t) == t
  {
    assert Flagged(t, k).blocks == t.blocks;
    assert Buried(t).blocks == t.blocks;
  }

  /** If the head is found it is the top, at once; with or without it nothing changes. */
  lemma ToppedHead(w: World, t: Tables, k: int, s: Script, active: seq<Hash>)
    requires Topped(t, k, active) && Steady(s, active)
    ensures var head := GetSyncedHeadSpec(t, s);
      && head.t == t && Steady(head.s, active)
      && (head.result.Ok? ==> head.result == Ok(Head(k, Some(active[k]))))
      && (|s| >= 5 ==> head.result.Ok? && |head.s| + 5 == |s|)
  {
    hide Flagged, Buried;
    assert MaxHeight(t.blocks) == k by {
      assert IsMaxHeight(t.blocks, MaxHeight(t.blocks));
    }
    hide RowAt;
    ToppedOrphans(t, k);
    SteadyRest(s, active);
    SteadyRest(Rest(s), active);
    SteadyRest(Rest(Rest(s)), active);
    SteadyRest(Rest(Rest(Rest(s))), active);
    SteadyRest(Rest(Rest(Rest(Rest(s)))), active);
    SteadyAnswer(Rest(Rest(s)), active, k);
  }

  function Budget(passes: nat, cost: int): int
  {
    if passes == 0 then cost else cost + Budget(passes - 1, cost)
  }

  /** Missing heights up to k now hold the node's blocks, the others what they held. */
  ghost predicate Completed(t: Tables, k: int, active: seq<Hash>, u: Tables)
  {
    && k < |active|
    && forall j | 0 <= j <= k :: RowAt(u.blocks, j) == if RowAt(t.blocks, j).Some? then RowAt(t.blocks, j)
        else Some(active[j])
  }

  lemma CompletedAfter(t: Tables, end: int, high: int, k: int, active: seq<Hash>, u: Tables, v: Tables)
    requires HighestGap(t, k, end, high) && FilledWith(t, end, high, active, u) && Completed(u, k, active, v)
    ensures Completed(t, k, active, v)
  {
    hide RowAt;
  }

  lemma MissingFew(t: Tables, k: int)
    requires k >= -1
    ensures |Missing(t, k)| <= k + 1
    ensures Missing(t, k) == {} ==> Present(t, -1, k)
  {
    hide RowAt;
    assert Missing(t, k) <= Heights(0, k + 1);
    FewerThan(Missing(t, k), Heights(0, k + 1));
    if Missing(t, k) == {} {
      forall j | -1 < j <= k ensures RowAt(t.blocks, j).Some? {
        assert j !in Missing(t, k);
      }
    }
  }

  lemma FewerThan(a: set<int>, b: set<int>)
    requires a <= b
    ensures |a| <= |b|
  {
    assert b == a + (b - a);
  }

  /** Is there a gap below k? */
  lemma GapOrNone(t: Tables, k: int) returns (gap: Option<(int, int)>)
    requires k >= -1
    ensures gap.None? ==> Present(t, -1, k)
    ensures gap.Some? ==> HighestGap(t, k, gap.value.0, gap.value.1)
  {
    hide RowAt, Search, Present;
    var idle := Moment(true, [], [], map[], []);
    var s := seq(k + 1, _ => idle);
    SearchFinds(t, k, s);
    SearchSteady(t, k, None, s, []);
    var found := Search(t, k, None, s).result.value;
    gap := if found.beginning.None? then None else Some((found.end, found.beginning.value));
  }

  lemma NoGapInside(t: Tables, k: int, end: int, high: int)
    requires Present(t, -1, k)
    ensures !HighestGap(t, k, end, high)
  {
    hide RowAt;
    assert HighestGap(t, k, end, high) ==> RowAt(t.blocks, high).None?;
  }

  /** A pass that finds no gap ends the program. */
  lemma NoGapEnds(w: World, cfg: Config, t: Tables, s: Script, active: seq<Hash>)
    requires Steady(s, active) && GetSyncedHeadSpec(t, s).result.Ok?
    requires var head := GetSyncedHeadSpec(t, s);
      head.result.value.height >= -1 && Present(head.t, -1, head.result.value.height)
      && Steady(head.s, active) && |head.s| > head.result.value.height
    ensures s != [] && SyncGapBlocksSpec(w, cfg, t, s).result.Ok?
      && BackfillSpec(w, cfg, t, s) == BackfillOut(true, GetSyncedHeadSpec(t, s).t, [])
  {
    hide RowAt, Search, Fill, BlockHashAnswer, Steady;
    var head := GetSyncedHeadSpec(t, s);
    var k := head.result.value.height;
    SearchSteady(head.t, k, None, head.s, active);
    SearchFinds(head.t, k, head.s);
    var gap := Search(head.t, k, None, head.s).result.value;
    if gap.beginning.Some? {
      NoGapInside(head.t, k, gap.end, gap.beginning.value);
    }
  }

  /**
   * From a topped state with at most n missing heights, whose blocks can be stored, at most n passes fill them all and
   * one more ends the program.
   */
  lemma {:induction false} FillsAll(
    w: World, cfg: Config, t: Tables, commits: multiset<Hash>, k: int, n: nat, s: Script, active: seq<Hash>)
    requires ValidWorld(w) && ValidScript(w, s) && Steady(s, active) && Balanced(w, cfg, t, commits) && OwnHeights(w, t)
    requires Topped(t, k, active) && MissingStorable(w, cfg, t, k, active) && |Missing(t, k)| <= n
    requires |s| >= Budget(n, PassCost(k, active) + 5)
    ensures var out := BackfillSpec(w, cfg, t, s);
      out.done && Completed(t, k, active, out.t) && Capped(out.t, k) && OwnHeights(w, out.t) && Valid(out.t)
    decreases n
  {
    hide ValidScript, Steady, Conserved, Accounted, OwnHeights, GetSyncedHeadSpec, ValidWorld, Valid, RowAt,
      StorableAt, Capped, Present, SyncGapBlocksSpec, FilledWith, HighestGap, FillsGap, Missing, Completed,
      MissingStorable;
    BudgetAtLeast(n, PassCost(k, active) + 5);
    ToppedHead(w, t, k, s, active);
    HeadCaps(w, cfg, t, commits, s, active);
    var gap := GapOrNone(t, k);
    if gap.None? {
      NoGapEnds(w, cfg, t, s, active);
      CompletedSelf(t, k, active);
    } else {
      var (end, high) := gap.value;
      GapStorable(w, cfg, t, k, active, end, high);
      PassSteady(w, cfg, t, commits, s, active, end, high);
      PassFillsGap(w, cfg, t, s, end, high);
      var out := SyncGapBlocksSpec(w, cfg, t, s);
      StillStorable(w, cfg, t, k, active, end, high, out.t);
      FewerLeft(w, t, k, end, high, out);
      ToppedAfterGap(t, end, high, k, active, out.t);
      FillsAll(w, cfg, out.t, commits + multiset(out.stored), k, n - 1, out.s, active);
      CompletedAfter(t, end, high, k, active, out.t, BackfillSpec(w, cfg, out.t, out.s).t);
    }
  }

  lemma {:induction false} BudgetAtLeast(n: nat, cost: int)
    requires cost >= 0
    ensures Budget(n, cost) >= cost && (n > 0 ==> Budget(n, cost) == cost + Budget(n - 1, cost))
  {
    if n > 0 {
      BudgetAtLeast(n - 1, cost);
    }
  }

  lemma CompletedSelf(t: Tables, k: int, active: seq<Hash>)
    requires Present(t, -1, k) && k < |active|
    ensures Completed(t, k, active, t)
  {
    hide RowAt;
  }

  /** The node's blocks of all heights up to k that have no row can be stored. */
  ghost predicate MissingStorable(w: World, cfg: Config, t: Tables, k: int, active: seq<Hash>)
  {
    forall i | 0 <= i <= k && RowAt(t.blocks, i).None? :: StorableAt(w, cfg, active, i)
  }

  lemma GapStorable(w: World, cfg: Config, t: Tables, k: int, active: seq<Hash>, end: int, high: int)
    requires MissingStorable(w, cfg, t, k, active) && HighestGap(t, k, end, high)
    ensures forall i | end < i <= high :: StorableAt(w, cfg, active, i)
    ensures -1 <= end < high
  {
    hide StorableAt, RowAt;
  }

  lemma StillStorable(
    w: World, cfg: Config, t: Tables, k: int, active: seq<Hash>, end: int, high: int, u: Tables)
    requires MissingStorable(w, cfg, t, k, active) && FilledWith(t, end, high, active, u)
    ensures MissingStorable(w, cfg, u, k, active)
  {
    hide StorableAt, RowAt;
  }

  lemma FewerLeft(w: World, t: Tables, k: int, end: int, high: int, out: WalkOut)
    requires HighestGap(t, k, end, high) && FillsGap(w, t, k, end, high, out) && |out.stored| == high - end
    ensures |Missing(out.t, k)| < |Missing(t, k)|
  {
  }

  lemma ToppedAfter(t: Tables, end: int, high: int, k: int, active: seq<Hash>, u: Tables)
    requires FilledWith(t, end, high, active, u) && Capped(u, k) && 0 <= k < |active|
    requires high < k && RowAt(t.blocks, k) == Some(active[k])
    ensures Topped(u, k, active)
  {
    hide RowAt, Capped;
  }

  lemma ToppedAfterGap(t: Tables, end: int, high: int, k: int, active: seq<Hash>, u: Tables)
    requires HighestGap(t, k, end, high) && FilledWith(t, end, high, active, u) && Capped(u, k) && 0 <= k < |active|
    requires high < k ==> RowAt(t.blocks, k) == Some(active[k])
    ensures Topped(u, k, active)
  {
    hide RowAt, Capped;
  }

  // ---- Passes that may leave heights missing -------------------------------------------

  /** Some of the missing heights up to k now hold the node's blocks, the others what they held. */
  ghost predicate Partly(t: Tables, k: int, active: seq<Hash>, u: Tables)
  {
    && k < |active|
    && forall j | 0 <= j <= k :: RowAt(u.blocks, j) == RowAt(t.blocks, j)
        || (RowAt(t.blocks, j).None? && RowAt(u.blocks, j) == Some(active[j]))
  }

  lemma PartlyTwice(t: Tables, k: int, active: seq<Hash>, u: Tables, v: Tables)
    requires Partly(t, k, active, u) && Partly(u, k, active, v)
    ensures Partly(t, k, active, v)
  {
    hide RowAt;
  }

  lemma PartlyFilled(t: Tables, end: int, top: int, high: int, k: int, active: seq<Hash>, u: Tables)
    requires HighestGap(t, k, end, high) && FilledWith(t, end, top, active, u) && top <= high && k < |active|
    ensures Partly(t, k, active, u)
  {
    hide RowAt;
  }

  lemma PartlyPresent(t: Tables, k: int, active: seq<Hash>, u: Tables)
    requires Partly(t, k, active, u) && Present(u, -1, k)
    ensures Completed(t, k, active, u)
  {
    hide RowAt;
    forall j | 0 <= j <= k
      ensures RowAt(u.blocks, j) == if RowAt(t.blocks, j).Some? then RowAt(t.blocks, j) else Some(active[j])
    {
      assert RowAt(u.blocks, j).Some?;
    }
  }

  /** A pass that finds no gap changes nothing. */
  lemma NoGapPass(w: World, cfg: Config, t: Tables, s: Script, active: seq<Hash>)
    requires GetSyncedHeadSpec(t, s).result.Ok?
    requires var head := GetSyncedHeadSpec(t, s);
      Steady(head.s, active) && head.result.value.height >= -1 && Present(head.t, -1, head.result.value.height)
    ensures var out := SyncGapBlocksSpec(w, cfg, t, s);
      out.t == GetSyncedHeadSpec(t, s).t && out.stored == [] && Steady(out.s, active)
  {
    hide RowAt, Search, Fill, BlockHashAnswer, Steady, GetSyncedHeadSpec;
    var head := GetSyncedHeadSpec(t, s);
    var k := head.result.value.height;
    SearchSteady(head.t, k, None, head.s, active);
    SearchFinds(head.t, k, head.s);
    if Search(head.t, k, None, head.s).result.Ok? {
      var gap := Search(head.t, k, None, head.s).result.value;
      if gap.beginning.Some? {
        NoGapInside(head.t, k, gap.end, gap.beginning.value);
      }
    }
  }

  /** A pass on a topped state, whichever blocks can be stored and wherever it stops. */
  lemma ToppedPass(
    w: World, cfg: Config, t: Tables, commits: multiset<Hash>, k: int, s: Script, active: seq<Hash>)
    requires ValidWorld(w) && ValidScript(w, s) && Steady(s, active) && Balanced(w, cfg, t, commits) && OwnHeights(w, t)
    requires Topped(t, k, active)
    ensures var out := SyncGapBlocksSpec(w, cfg, t, s);
      && Steady(out.s, active) && Topped(out.t, k, active) && Partly(t, k, active, out.t)
      && (out.result.Ok? ==> Present(out.t, -1, k))
  {
    hide ValidScript, Steady, Balanced, OwnHeights, GetSyncedHeadSpec, ValidWorld, RowAt, StorableAt, Capped,
      Present, Search, Fill, FilledWith, HighestGap, BlockHashAnswer;
    ToppedHead(w, t, k, s, active);
    if GetSyncedHeadSpec(t, s).result.Ok? {
      var gap := GapOrNone(t, k);
      if gap.None? {
        NoGapPass(w, cfg, t, s, active);
      } else {
        var (end, high) := gap.value;
        PassSteady(w, cfg, t, commits, s, active, end, high);
        var out := SyncGapBlocksSpec(w, cfg, t, s);
        PartlyFilled(t, end, end + |out.stored|, high, k, active, out.t);
        GapInside(t, k, end, high);
        ToppedAfter(t, end, end + |out.stored|, k, active, out.t);
      }
    }
  }

  lemma GapInside(t: Tables, k: int, end: int, high: int)
    requires HighestGap(t, k, end, high)
    ensures -1 <= end < high <= k && (RowAt(t.blocks, k).Some? ==> high < k)
  {
    hide RowAt;
    assert RowAt(t.blocks, high).None?;
  }

  /** Passes from a topped state write nothing but the node's blocks, and end only when no height is missing. */
  lemma {:induction false} ToppedPasses(
    w: World, cfg: Config, t: Tables, commits: multiset<Hash>, k: int, s: Script, active: seq<Hash>)
    requires ValidWorld(w) && ValidScript(w, s) && Steady(s, active) && Balanced(w, cfg, t, commits) && OwnHeights(w, t)
    requires Topped(t, k, active)
    ensures var out := BackfillSpec(w, cfg, t, s); out.done ==> Completed(t, k, active, out.t)
    ensures Partly(t, k, active, BackfillSpec(w, cfg, t, s).t)
    decreases |s|
  {
    hide ValidScript, Steady, Balanced, OwnHeights, ValidWorld, RowAt, Topped, Present, SyncGapBlocksSpec, Partly,
      Completed;
    ToppedInside(t, k, active);
    PartlySelf(t, k, active);
    if s != [] {
      ToppedPass(w, cfg, t, commits, k, s, active);
      var out := SyncGapBlocksSpec(w, cfg, t, s);
      if out.result.Ok? {
        PartlyPresent(t, k, active, out.t);
      } else {
        BalancedPass(w, cfg, t, commits, s);
        ToppedPasses(w, cfg, out.t, commits + multiset(out.stored), k, out.s, active);
        var rest := BackfillSpec(w, cfg, out.t, out.s);
        PartlyTwice(t, k, active, out.t, rest.t);
        if rest.done {
          CompletedAgain(t, k, active, out.t, rest.t);
        }
      }
    }
  }

  lemma PartlySelf(t: Tables, k: int, active: seq<Hash>)
    requires k < |active|
    ensures Partly(t, k, active, t)
  {
    hide RowAt;
  }

  lemma ToppedInside(t: Tables, k: int, active: seq<Hash>)
    requires Topped(t, k, active)
    ensures 0 <= k < |active|
  {
  }

  lemma CompletedAgain(t: Tables, k: int, active: seq<Hash>, u: Tables, v: Tables)
    requires Partly(t, k, active, u) && Completed(u, k, active, v)
    ensures Completed(t, k, active, v)
  {
    hide RowAt;
  }

  // ---- When the retries end ------------------------------------------------------------

  /** There are moments left for a pass per missing height. */
  ghost predicate Affordable(active: seq<Hash>, head: Out<Head>)
  {
    head.result.Ok? ==>
      var k := head.result.value.height;
      k >= -1 ==> |head.s| >= PassCost(k, active) + Budget(k + 1, PassCost(k, active) + 5)
  }

  /** All missing heights up to the head are filled with the node's blocks, and nothing else is changed. */
  ghost predicate Reached(head: Out<Head>, active: seq<Hash>, out: BackfillOut)
  {
    head.result.Ok? && out.done && Completed(head.t, head.result.value.height, active, out.t)
  }

  lemma BackfillCompletes(w: World, cfg: Config, t: Tables, commits: multiset<Hash>, s: Script, active: seq<Hash>)
    requires ValidWorld(w) && ValidScript(w, s) && Steady(s, active) && Balanced(w, cfg, t, commits) && OwnHeights(w, t)
    requires GetSyncedHeadSpec(t, s).result.Ok? && GetSyncedHeadSpec(t, s).result.value.height >= 0
    requires Affordable(active, GetSyncedHeadSpec(t, s))
    requires MissingStorable(w, cfg, GetSyncedHeadSpec(t, s).t, GetSyncedHeadSpec(t, s).result.value.height, active)
    ensures Reached(GetSyncedHeadSpec(t, s), active, BackfillSpec(w, cfg, t, s))
    ensures Capped(BackfillSpec(w, cfg, t, s).t, GetSyncedHeadSpec(t, s).result.value.height)
  {
    hide ValidScript, Steady, Conserved, Accounted, OwnHeights, GetSyncedHeadSpec, ValidWorld, Valid, RowAt,
      StorableAt, Capped, Present, SyncGapBlocksSpec, FilledWith, HighestGap, Missing, Completed, MissingStorable;
    var head := GetSyncedHeadSpec(t, s);
    var k := head.result.value.height;
    HeadCaps(w, cfg, t, commits, s, active);
    BudgetAtLeast(k + 1, PassCost(k, active) + 5);
    var gap := GapOrNone(head.t, k);
    if gap.None? {
      NoGapEnds(w, cfg, t, s, active);
      CompletedSelf(head.t, k, active);
    } else {
      var (end, high) := gap.value;
      GapStorable(w, cfg, head.t, k, active, end, high);
      PassSteady(w, cfg, t, commits, s, active, end, high);
      var out := SyncGapBlocksSpec(w, cfg, t, s);
      StillStorable(w, cfg, head.t, k, active, end, high, out.t);
      AtHead(head.t, k, end, high, active);
      ToppedAfterGap(head.t, end, high, k, active, out.t);
      MissingFew(out.t, k);
      FillsAll(w, cfg, out.t, commits + multiset(out.stored), k, k + 1, out.s, active);
      CompletedAfter(head.t, end, high, k, active, out.t, BackfillSpec(w, cfg, out.t, out.s).t);
    }
  }

  /** A row that holds the node's block shows that the block can be stored. */
  lemma RowStorable(w: World, cfg: Config, t: Tables, commits: multiset<Hash>, active: seq<Hash>, i: int)
    requires Balanced(w, cfg, t, commits) && OwnHeights(w, t)
    requires 0 <= i < |active| && RowAt(t.blocks, i) == Some(active[i])
    ensures StorableAt(w, cfg, active, i)
  {
    hide Valid, Conserved, Storable;
    assert active[i] in t.blocks && t.blocks[active[i]].height == i;
  }

  lemma CompletedStorable(
    w: World, cfg: Config, t: Tables, k: int, active: seq<Hash>, u: Tables, commits: multiset<Hash>)
    requires Balanced(w, cfg, u, commits) && OwnHeights(w, u) && Completed(t, k, active, u)
    ensures MissingStorable(w, cfg, t, k, active)
  {
    hide RowAt, Balanced, OwnHeights, StorableAt;
    forall i | 0 <= i <= k && RowAt(t.blocks, i).None? ensures StorableAt(w, cfg, active, i) {
      RowStorable(w, cfg, u, commits, active, i);
    }
  }

  /** The blocks of the heights above the highest row, up to k, can be stored. */
  ghost predicate TopStorable(w: World, cfg: Config, t: Tables, k: int, active: seq<Hash>)
  {
    forall i | 0 <= i <= k && Absent(t, i - 1, k) :: StorableAt(w, cfg, active, i)
  }

  lemma TopGapStorable(w: World, cfg: Config, t: Tables, k: int, active: seq<Hash>, end: int, high: int)
    requires TopStorable(w, cfg, t, k, active) && HighestGap(t, k, end, high)
    ensures high == k ==> forall i | end < i <= k :: StorableAt(w, cfg, active, i)
  {
    hide StorableAt, RowAt;
    if high == k {
      forall i | end < i <= k ensures StorableAt(w, cfg, active, i) {
        assert Absent(t, i - 1, k);
      }
    }
  }

  /** Once the highest row is at the head, the retries do not end in any other way. */
  lemma EndsCompleted(w: World, cfg: Config, t: Tables, commits: multiset<Hash>, s: Script, active: seq<Hash>)
    requires ValidWorld(w) && ValidScript(w, s) && Steady(s, active) && Balanced(w, cfg, t, commits) && OwnHeights(w, t)
    requires GetSyncedHeadSpec(t, s).result.Ok? && GetSyncedHeadSpec(t, s).result.value.height >= 0
    requires TopStorable(w, cfg, GetSyncedHeadSpec(t, s).t, GetSyncedHeadSpec(t, s).result.value.height, active)
    requires Affordable(active, GetSyncedHeadSpec(t, s))
    ensures BackfillSpec(w, cfg, t, s).done ==> Reached(GetSyncedHeadSpec(t, s), active, BackfillSpec(w, cfg, t, s))
  {
    hide ValidScript, Steady, Balanced, OwnHeights, GetSyncedHeadSpec, ValidWorld, RowAt, StorableAt, Capped,
      Present, SyncGapBlocksSpec, FilledWith, HighestGap, Completed, Partly, TopStorable;
    var head := GetSyncedHeadSpec(t, s);
    var k := head.result.value.height;
    HeadCaps(w, cfg, t, commits, s, active);
    BudgetAtLeast(k + 1, PassCost(k, active) + 5);
    HasScript(s, t);
    var out := SyncGapBlocksSpec(w, cfg, t, s);
    var gap := GapOrNone(head.t, k);
    if gap.None? {
      NoGapPass(w, cfg, t, s, active);
      CompletedSelf(head.t, k, active);
      PresentTop(head.t, k);
    } else {
      var (end, high) := gap.value;
      PassSteady(w, cfg, t, commits, s, active, end, high);
      PartlyFilled(head.t, end, end + |out.stored|, high, k, active, out.t);
      GapInside(head.t, k, end, high);
      TopGapStorable(w, cfg, head.t, k, active, end, high);
      if high == k {
        ToppedAfterGap(head.t, end, high, k, active, out.t);
      } else {
        AtHead(head.t, k, end, high, active);
        ToppedAfter(head.t, end, end + |out.stored|, k, active, out.t);
      }
    }
    PartlySelf(head.t, k, active);
    BalancedPass(w, cfg, t, commits, s);
    if out.result.Err? {
      ToppedPasses(w, cfg, out.t, commits + multiset(out.stored), k, out.s, active);
      if BackfillSpec(w, cfg, out.t, out.s).done {
        CompletedAgain(head.t, k, active, out.t, BackfillSpec(w, cfg, out.t, out.s).t);
      }
    }
  }

  lemma PresentTop(t: Tables, k: int)
    requires Present(t, -1, k) && k >= 0
    ensures RowAt(t.blocks, k).Some?
  {
  }

  lemma KeptIsTop(w: World, cfg: Config, t: Tables, k: int, active: seq<Hash>)
    ensures RowAt(t.blocks, k).Some? ==> TopStorable(w, cfg, t, k, active)
  {
    hide StorableAt, RowAt;
  }

  /**
   * Against an unchanging node, from any state whose rows sit at their heights, once a head is found and with moments
   * enough: retrying ends, with every missing height up to the head filled with the node's block and nothing else
   * changed, if and only if the blocks of all missing heights can be stored. It does not end otherwise if the matched
   * row is kept, or at least the blocks above the highest row can be stored.
   */
  lemma BackfillCompletesIff(w: World, cfg: Config, t: Tables, commits: multiset<Hash>, s: Script, active: seq<Hash>)
    requires ValidWorld(w) && ValidScript(w, s) && Steady(s, active) && Balanced(w, cfg, t, commits) && OwnHeights(w, t)
    requires GetSyncedHeadSpec(t, s).result.Ok? && GetSyncedHeadSpec(t, s).result.value.height >= 0
    requires Affordable(active, GetSyncedHeadSpec(t, s))
    ensures var head := GetSyncedHeadSpec(t, s);
      var k := head.result.value.height;
      var out := BackfillSpec(w, cfg, t, s);
      && (Reached(head, active, out) <==> MissingStorable(w, cfg, head.t, k, active))
      && (Reached(head, active, out) ==> Capped(out.t, k))
      && (TopStorable(w, cfg, head.t, k, active) ==> (out.done <==> MissingStorable(w, cfg, head.t, k, active)))
      && (RowAt(head.t.blocks, k).Some? ==> TopStorable(w, cfg, head.t, k, active))
      && Balanced(w, cfg, out.t, commits + multiset(out.stored)) && OwnHeights(w, out.t)
  {
    hide ValidScript, Steady, Balanced, OwnHeights, GetSyncedHeadSpec, ValidWorld, RowAt, Capped, BackfillSpec,
      Completed, MissingStorable, Affordable, TopStorable;
    var head := GetSyncedHeadSpec(t, s);
    var k := head.result.value.height;
    var out := BackfillSpec(w, cfg, t, s);
    BalancedBackfill(w, cfg, t, commits, s);
    if MissingStorable(w, cfg, head.t, k, active) {
      BackfillCompletes(w, cfg, t, commits, s, active);
    }
    if Reached(head, active, out) {
      CompletedStorable(w, cfg, head.t, k, active, out.t, commits + multiset(out.stored));
    }
    KeptIsTop(w, cfg, head.t, k, active);
    if TopStorable(w, cfg, head.t, k, active) {
      EndsCompleted(w, cfg, t, commits, s, active);
    }
  }

  lemma AtHead(t: Tables, k: int, end: int, high: int, active: seq<Hash>)
    requires HighestGap(t, k, end, high) && 0 <= k < |active|
    requires RowAt(t.blocks, k).Some? ==> RowAt(t.blocks, k) == Some(active[k])
    ensures high < k ==> RowAt(t.blocks, k) == Some(active[k])
  {
    hide RowAt;
  }

  // ---- The chain from the genesis block ------------------------------------------------

  /** The stored chain is the node's from the genesis block up to height k. */
  ghost predicate IsNodeChain(w: World, t: Tables, k: int, active: seq<Hash>)
  {
    0 <= k < |active| && Settled(w, t, 0, active[..k + 1])
  }

  /**
   * After completion the stored chain is the node's from the genesis block if and only if every row kept was the
   * node's.
   */
  lemma CompletedIsChainIff(w: World, t: Tables, k: int, active: seq<Hash>, u: Tables)
    requires Path(w, 0, active) && OwnHeights(w, u) && Capped(u, k) && 0 <= k && Completed(t, k, active, u) && Valid(u)
    ensures IsNodeChain(w, u, k, active) <==>
      forall j | 0 <= j <= k && RowAt(t.blocks, j).Some? :: RowAt(t.blocks, j) == Some(active[j])
  {
    ValidHeights(u);
    NothingAbove(u, k);
    hide RowAt, OwnHeights, Holds, Valid, UniqueHeights;
    var chain := active[..k + 1];
    assert FromBase(chain, 0) == chain;
    FollowsIff(w, u, 0, chain);
    hide Path, Capped;
    forall j | j >= 0
      ensures RowAt(u.blocks, j) == Expected(chain, 0, j) <==>
        j > k || RowAt(t.blocks, j).None? || RowAt(t.blocks, j) == Some(active[j])
    {
    }
  }

  /**
   * A chain from a fast-sync base, with or without a pending orphan update, once the head is found: with moments enough
   * the backfill ends with the node's chain from the genesis block up to it, if and only if the node's blocks below the
   * base can be stored. It does not end otherwise, unless even the base row was flagged.
   */
  lemma BackfillReachesGenesisIff(
    w: World, cfg: Config, t: Tables, commits: multiset<Hash>, base: nat, chain: seq<Hash>, kept: nat, s: Script,
    active: seq<Hash>)
    requires ValidWorld(w) && ValidScript(w, s) && Steady(s, active) && Balanced(w, cfg, t, commits)
    requires Holds(w, t, base, chain, kept) && chain != [] && GetSyncedHeadSpec(t, s).result.Ok?
    requires Affordable(active, GetSyncedHeadSpec(t, s))
    ensures var out := BackfillSpec(w, cfg, t, s);
      var k := GetSyncedHeadSpec(t, s).result.value.height;
      var storable := forall i | 0 <= i < base :: StorableAt(w, cfg, active, i);
      && (out.done && IsNodeChain(w, out.t, k, active) <==> storable)
      && (kept > 0 ==> (out.done <==> storable))
  {
    hide ValidScript, Steady, Balanced, OwnHeights, GetSyncedHeadSpec, ValidWorld, RowAt, StorableAt, Capped,
      BackfillSpec, Holds, Completed, Affordable, Path;
    var head := GetSyncedHeadSpec(t, s);
    var k := head.result.value.height;
    var out := BackfillSpec(w, cfg, t, s);
    ChainOwnHeights(w, t, base, chain, kept);
    HasScript(s, t);
    ActivePath(w, s, active);
    HeadKeepsNodeRows(w, t, base, chain, kept, s, active);
    KeptStorable(w, cfg, t, commits, base, chain, kept, s, active);
    BackfillCompletesIff(w, cfg, t, commits, s, active);
    assert (forall i | 0 <= i < base :: StorableAt(w, cfg, active, i)) ==> MissingStorable(w, cfg, head.t, k, active);
    if kept > 0 {
      assert RowAt(head.t.blocks, base) == Some(active[base]);
      ChainTop(w, cfg, head.t, base, k, active);
    }
    if Reached(head, active, out) {
      ReachedChain(w, cfg, head.t, k, active, out.t, commits + multiset(out.stored));
    }
    if IsNodeChain(w, out.t, k, active) {
      ChainStorable(w, cfg, out.t, commits + multiset(out.stored), k, active);
    }
  }

  lemma ChainTop(w: World, cfg: Config, t: Tables, base: nat, k: int, active: seq<Hash>)
    requires base <= k && RowAt(t.blocks, base).Some?
    requires forall i | base <= i <= k :: StorableAt(w, cfg, active, i)
    ensures TopStorable(w, cfg, t, k, active)
  {
    hide StorableAt, RowAt;
  }

  lemma ReachedChain(w: World, cfg: Config, t: Tables, k: int, active: seq<Hash>, u: Tables, commits: multiset<Hash>)
    requires Path(w, 0, active) && OwnHeights(w, u) && Capped(u, k) && 0 <= k && Completed(t, k, active, u)
    requires Balanced(w, cfg, u, commits)
    requires forall j | 0 <= j <= k && RowAt(t.blocks, j).Some? :: RowAt(t.blocks, j) == Some(active[j])
    ensures IsNodeChain(w, u, k, active)
  {
    hide Path, OwnHeights, Capped, Completed, RowAt, Conserved, Accounted, Valid;
    CompletedIsChainIff(w, t, k, active, u);
  }

  lemma ChainStorable(w: World, cfg: Config, u: Tables, commits: multiset<Hash>, k: int, active: seq<Hash>)
    requires Balanced(w, cfg, u, commits) && OwnHeights(w, u) && IsNodeChain(w, u, k, active)
    ensures forall i | 0 <= i <= k :: StorableAt(w, cfg, active, i)
  {
    hide Balanced, OwnHeights, Holds, RowAt, StorableAt;
    forall i | 0 <= i <= k ensures StorableAt(w, cfg, active, i) {
      RowOnChain(w, u, 0, active[..k + 1], k + 1, i);
      RowStorable(w, cfg, u, commits, active, i);
    }
  }

  lemma HasScript(s: Script, t: Tables)
    requires GetSyncedHeadSpec(t, s).result.Ok?
    ensures s != []
  {
  }
}
