/** Against a node that keeps its active chain, GetSyncedHead stops at the fork point. */
module ForkPoint {
  import opened Outcomes
  import opened Node
  import opened Schema
  import opened Store
  import opened Chain

  /** Every operation gets through and the node keeps this active chain. */
  ghost predicate Steady(s: Script, active: seq<Hash>)
  {
    forall i | 0 <= i < |s| :: s[i].up && s[i].active == active
  }

  lemma SteadyRest(s: Script, active: seq<Hash>)
    requires Steady(s, active)
    ensures Steady(Rest(s), active) && |Rest(s)| == if s == [] then 0 else |s| - 1
  {
  }

  lemma SteadyAnswer(s: Script, active: seq<Hash>, h: int)
    requires Steady(s, active)
    ensures s == [] ==> BlockHashAnswer(s, h) == Err(Unavailable)
    ensures s != [] ==> BlockHashAnswer(s, h) == if 0 <= h < |active| then Ok(active[h]) else Err(OutOfRange)
  {
  }

  /** The stored block of height k is the node's. */
  predicate Agree(base: nat, chain: seq<Hash>, active: seq<Hash>, k: int)
  {
    base <= k < base + |chain| && k < |active| && chain[k - base] == active[k]
  }

  /** Where a scan from height h ends; failing for lack of moments is ruled out by 2h + 4 of them. */
  ghost predicate SteadyOutcome(base: nat, chain: seq<Hash>, active: seq<Hash>, h: int, s: Script, out: Out<Head>)
  {
    && Steady(out.s, active)
    && match out.result
       case Ok(Head(k, Some(_))) =>
         Agree(base, chain, active, k) && (forall j | k < j <= h :: !Agree(base, chain, active, j))
         && h < |active| && |out.s| + 2 * h + 4 >= |s|
       case Ok(Head(_, None)) => h < 0 && out.s == s
       case Err(Unavailable) => |s| < 2 * h + 4
       case Err(OutOfRange) => h >= |active|
       case Err(NoRows) => h >= 0 && forall j | base <= j <= h :: !Agree(base, chain, active, j)
       case Err(_) => false
  }

  lemma SettleSteady(t: Tables, base: nat, chain: seq<Hash>, active: seq<Hash>, h: nat, s: Script)
    requires Steady(s, active) && Agree(base, chain, active, h)
    ensures var out := Settle(t, h, chain[h - base], s);
      && Steady(out.s, active) && |out.s| + 2 >= |s|
      && (out.result == Ok(Head(h, Some(chain[h - base]))) || (out.result == Err(Unavailable) && |s| < 2))
  {
    hide Flagged, Buried;
    SteadyRest(s, active);
    SteadyRest(Rest(s), active);
  }

  /** Where height h does not agree, the scan ends as it does from below. */
  lemma OutcomeBelow(base: nat, chain: seq<Hash>, active: seq<Hash>, h: int, s: Script, s1: Script, out: Out<Head>)
    requires SteadyOutcome(base, chain, active, h - 1, s1, out) && |s1| + 2 >= |s|
    requires 0 < h < |active| && !Agree(base, chain, active, h)
    ensures SteadyOutcome(base, chain, active, h, s, out)
  {
    hide Steady, Agree;
  }

  lemma OutcomeHere(base: nat, chain: seq<Hash>, active: seq<Hash>, h: nat, s: Script, s1: Script, out: Out<Head>)
    requires Steady(out.s, active) && |out.s| + 2 >= |s1| && |s1| + 2 >= |s| && Agree(base, chain, active, h)
    requires out.result == Ok(Head(h, Some(chain[h - base]))) || (out.result == Err(Unavailable) && |s1| < 2)
    ensures SteadyOutcome(base, chain, active, h, s, out)
  {
    hide Steady;
  }

  lemma OutcomeEnds(base: nat, chain: seq<Hash>, active: seq<Hash>, h: int, s: Script, out: Out<Head>)
    requires Steady(out.s, active)
    requires (h < 0 && out.s == s && out.result == Ok(Head(-1, None)))
      || (|s| < 2 * h + 4 && out.result == Err(Unavailable))
      || (h >= |active| && out.result == Err(OutOfRange)) || (0 <= h < base && out.result == Err(NoRows))
    ensures SteadyOutcome(base, chain, active, h, s, out)
  {
    hide Steady;
  }

  lemma {:induction false} ScanSteady(
    w: World, t: Tables, base: nat, chain: seq<Hash>, kept: nat, h: int, s: Script, active: seq<Hash>)
    requires ValidWorld(w) && Holds(w, t, base, chain, kept) && h < base + |chain|
    requires ValidScript(w, s) && Steady(s, active)
    ensures SteadyOutcome(base, chain, active, h, s, Scan(t, h, s))
    decreases h + 1
  {
    hide Holds, ValidWorld, ValidScript, Steady, RowAt, Settle, BlockHashAnswer, SteadyOutcome;
    SteadyIsLive(s, active);
    SteadyRest(s, active);
    var s1 := Rest(s);
    SteadyRest(s1, active);
    var out := Scan(t, h, s);
    if h >= 0 && s != [] {
      RowOnChain(w, t, base, chain, kept, h);
      RestValid(w, s);
      RestValid(w, s1);
      SteadyAnswer(s1, active, h);
      if h < base || s1 == [] || h >= |active| {
        OutcomeEnds(base, chain, active, h, s, out);
      } else if active[h] == chain[h - base] {
        SettleSteady(t, base, chain, active, h, Rest(s1));
        OutcomeHere(base, chain, active, h, s, Rest(s1), out);
      } else {
        if h == 0 {
          GenesisAgrees(w, t, chain, kept, s1);
        }
        ScanSteady(w, t, base, chain, kept, h - 1, Rest(s1), active);
        OutcomeBelow(base, chain, active, h, s, Rest(s1), out);
      }
    } else {
      OutcomeEnds(base, chain, active, h, s, out);
    }
  }

  lemma SteadyIsLive(s: Script, active: seq<Hash>)
    requires Steady(s, active)
    ensures s != [] ==> Live(s)
  {
  }

  function Top(base: nat, chain: seq<Hash>): int
  {
    if chain == [] then -1 else base + |chain| - 1
  }

  lemma HeadSteady(w: World, t: Tables, base: nat, chain: seq<Hash>, kept: nat, s: Script, active: seq<Hash>)
    requires ValidWorld(w) && Holds(w, t, base, chain, kept) && ValidScript(w, s) && Steady(s, active)
    ensures s != [] ==> SteadyOutcome(base, chain, active, Top(base, chain), Rest(s), GetSyncedHeadSpec(t, s))
    ensures s == [] ==> GetSyncedHeadSpec(t, s).result == Err(Unavailable)
  {
    hide Holds, ValidScript;
    TopHeight(w, t, base, chain, kept);
    SteadyIsLive(s, active);
    SteadyRest(s, active);
    RestValid(w, s);
    if s != [] {
      ScanSteady(w, t, base, chain, kept, Top(base, chain), Rest(s), active);
    }
  }

  // ---- Agreement goes down the chain ---------------------------------------------------

  /** Two parent-linked chains that agree at one height agree at every stored height below. */
  lemma {:induction false} AgreesBelow(w: World, base: nat, chain: seq<Hash>, active: seq<Hash>, k: int, j: int)
    requires Path(w, base, chain) && Path(w, 0, active) && Agree(base, chain, active, k) && base <= j <= k
    ensures Agree(base, chain, active, j)
    decreases k
  {
    if j < k {
      assert w.tree[chain[k - base]].prev == chain[k - 1 - base] && w.tree[active[k]].prev == active[k - 1];
      AgreesBelow(w, base, chain, active, k - 1, j);
    }
  }

  // ---- Lowest common ancestors in the block tree ---------------------------------------

  /** a is b or one of the blocks below it. */
  predicate IsAncestor(w: World, a: Hash, b: Hash)
    requires b in w.tree
    decreases w.tree[b].height
  {
    a == b || (w.tree[b].height > 0 && w.tree[b].prev in w.tree && w.tree[w.tree[b].prev].height < w.tree[b].height
               && IsAncestor(w, a, w.tree[b].prev))
  }

  ghost predicate IsLowestCommonAncestor(w: World, c: Hash, x: Hash, y: Hash)
    requires x in w.tree && y in w.tree && c in w.tree
  {
    && IsAncestor(w, c, x) && IsAncestor(w, c, y)
    && forall a | IsAncestor(w, a, x) && IsAncestor(w, a, y) :: IsAncestor(w, a, c)
  }

  lemma {:induction false} PathAncestors(w: World, base: nat, chain: seq<Hash>, i: nat, j: nat)
    requires Path(w, base, chain) && i <= j < |chain|
    ensures IsAncestor(w, chain[i], chain[j])
  {
    if i < j {
      assert w.tree[chain[j]].prev == chain[j - 1];
      PathAncestors(w, base, chain, i, j - 1);
    }
  }

  /** An ancestor of a chain's block is an ancestor of every block of the chain above it, down to its own place. */
  lemma {:induction false} AncestorThrough(w: World, base: nat, chain: seq<Hash>, i: nat, j: nat, a: Hash)
    requires Path(w, base, chain) && i <= j < |chain| && IsAncestor(w, a, chain[j])
    requires a in w.tree && w.tree[a].height <= base + i
    ensures IsAncestor(w, a, chain[i])
  {
    if i < j {
      assert w.tree[chain[j]].prev == chain[j - 1] && w.tree[chain[j]].height == base + j;
      AncestorThrough(w, base, chain, i, j - 1, a);
    }
  }

  lemma {:induction false} AncestorInTree(w: World, a: Hash, b: Hash)
    requires b in w.tree && IsAncestor(w, a, b)
    ensures a in w.tree && w.tree[a].height <= w.tree[b].height && (w.tree[a].height == w.tree[b].height ==> a == b)
    decreases w.tree[b].height
  {
    if a != b {
      AncestorInTree(w, a, w.tree[b].prev);
    }
  }

  /** The block at the highest agreeing height is the lowest common ancestor of the two tops. */
  lemma HighestAgreementIsAncestor(w: World, base: nat, chain: seq<Hash>, active: seq<Hash>, k: int)
    requires Path(w, base, chain) && Path(w, 0, active) && Agree(base, chain, active, k)
    requires forall j | k < j < base + |chain| :: !Agree(base, chain, active, j)
    ensures IsLowestCommonAncestor(w, active[k], chain[|chain| - 1], active[|active| - 1])
  {
    var top, tip := chain[|chain| - 1], active[|active| - 1];
    PathAncestors(w, base, chain, k - base, |chain| - 1);
    PathAncestors(w, 0, active, k, |active| - 1);
    forall a | IsAncestor(w, a, top) && IsAncestor(w, a, tip) ensures IsAncestor(w, a, active[k]) {
      AncestorInTree(w, a, top);
      AncestorInTree(w, a, tip);
      var h := w.tree[a].height;
      if h <= k {
        AncestorThrough(w, base, chain, k - base, |chain| - 1, a);
      } else {
        AncestorThrough(w, base, chain, h - base, |chain| - 1, a);
        AncestorThrough(w, 0, active, h, |active| - 1, a);
        AncestorInTree(w, a, chain[h - base]);
        AncestorInTree(w, a, active[h]);
        assert Agree(base, chain, active, h);
        assert false;
      }
    }
  }

  /**
   * When GetSyncedHead succeeds on a stored chain: it answers the lowest common ancestor of the stored top and the
   * node's tip; stored heights agree with the node exactly up to it; and exactly the rows above it become orphans.
   */
  lemma HeadIsForkPoint(w: World, t: Tables, base: nat, chain: seq<Hash>, s: Script, active: seq<Hash>)
    requires ValidWorld(w) && Settled(w, t, base, chain) && ValidScript(w, s) && Steady(s, active)
    requires GetSyncedHeadSpec(t, s).result.Ok? && chain != []
    ensures var head := GetSyncedHeadSpec(t, s).result.value;
      && head.hash.Some? && base <= head.height < |active| && head.hash.value == active[head.height]
      && IsAncestorsFork(w, head.hash.value, chain, active)
      && (forall j | base <= j < base + |chain| :: Agree(base, chain, active, j) <==> j <= head.height)
      && GetSyncedHeadSpec(t, s).t == OrphanedAbove(t, head.height)
  {
    hide GetSyncedHeadSpec, IsAncestorsFork;
    ForkPointReached(w, t, base, chain, |chain|, s, active);
    ExactOrphans(w, t, base, chain, GetSyncedHeadSpec(t, s).result.value.height);
  }

  /** The rows above h turned into orphans at height -2, every other row as it was. */
  function OrphanedAbove(t: Tables, h: int): Tables
  {
    t.(blocks := map b | b in t.blocks :: if t.blocks[b].height > h then BlockRow(-2, true) else t.blocks[b])
  }

  lemma ExactOrphans(w: World, t: Tables, base: nat, chain: seq<Hash>, h: nat)
    requires Settled(w, t, base, chain)
    ensures Buried(Flagged(t, h)) == OrphanedAbove(t, h)
  {
    forall b | b in t.blocks ensures Buried(Flagged(t, h)).blocks[b] == OrphanedAbove(t, h).blocks[b] {
      assert b == DEADBEEF || t.blocks[b] == BlockRow(-2, true) || OnChain(t, base, chain, b);
    }
    assert Buried(Flagged(t, h)).blocks == OrphanedAbove(t, h).blocks;
  }

  ghost predicate IsAncestorsFork(w: World, c: Hash, chain: seq<Hash>, active: seq<Hash>)
  {
    && chain != [] && active != [] && c in w.tree && chain[|chain| - 1] in w.tree && active[|active| - 1] in w.tree
    && IsLowestCommonAncestor(w, c, chain[|chain| - 1], active[|active| - 1])
  }

  lemma ActivePath(w: World, s: Script, active: seq<Hash>)
    requires ValidScript(w, s) && Steady(s, active) && s != []
    ensures Path(w, 0, active)
  {
    assert ValidMoment(w, s[0]);
  }

  /** The fork point itself, also while an orphan update is pending. */
  lemma ForkPointReached(w: World, t: Tables, base: nat, chain: seq<Hash>, kept: nat, s: Script, active: seq<Hash>)
    requires ValidWorld(w) && Holds(w, t, base, chain, kept) && ValidScript(w, s) && Steady(s, active)
    requires GetSyncedHeadSpec(t, s).result.Ok? && chain != []
    ensures var head := GetSyncedHeadSpec(t, s).result.value;
      && head.hash.Some? && base <= head.height < |active| && head.height < base + |chain|
      && head.hash.value == active[head.height] == chain[head.height - base]
      && IsAncestorsFork(w, head.hash.value, chain, active)
      && (forall j | base <= j < base + |chain| :: Agree(base, chain, active, j) <==> j <= head.height)
      && GetSyncedHeadSpec(t, s).t == Buried(Flagged(t, head.height))
  {
    hide Holds, GetSyncedHeadSpec, ValidScript, Steady, Flagged, Buried, IsLowestCommonAncestor;
    HeadSteady(w, t, base, chain, kept, s, active);
    HeadOutcomes(w, t, base, chain, kept, s);
    HoldsPath(w, t, base, chain, kept);
    ActivePath(w, s, active);
    var k := GetSyncedHeadSpec(t, s).result.value.height;
    forall j | base <= j <= k ensures Agree(base, chain, active, j) {
      AgreesBelow(w, base, chain, active, k, j);
    }
    HighestAgreementIsAncestor(w, base, chain, active, k);
  }

  // ---- A crash between the two orphan updates ------------------------------------------

  /** Finishing the pending orphan update changes nothing that a later successful scan would not have done. */
  lemma SameTablesAfterCrash(t: Tables, base: nat, chain: seq<Hash>, kept: nat, k: int, k1: int, w: World)
    requires Holds(w, t, base, chain, kept) && base <= k < base + |chain| && base <= k1
    requires k1 == Min(k, base + kept - 1)
    ensures Buried(Flagged(t, k)) == Buried(Flagged(Buried(t), k1))
  {
    var a, c := Buried(Flagged(t, k)), Buried(Flagged(Buried(t), k1));
    forall b | b in t.blocks ensures a.blocks[b] == c.blocks[b] {
      if b != DEADBEEF && t.blocks[b] != BlockRow(-2, true) {
        assert OnChain(t, base, chain, b);
        assert t.blocks[b] == BlockRow(t.blocks[b].height, t.blocks[b].height - base >= kept);
      }
    }
    assert a.blocks == c.blocks;
  }

  /**
   * From a state with a pending orphan update, the next successful GetSyncedHead leaves the same tables as if the two
   * updates had been one; it also answers the same head if and only if the row it matches was not flagged,
   * that is, if it agrees no higher than the crashed call did.
   */
  lemma CrashRecovery(
    w: World, t: Tables, base: nat, chain: seq<Hash>, kept: nat, active: seq<Hash>, s: Script, s1: Script)
    requires ValidWorld(w) && Holds(w, t, base, chain, kept) && kept > 0
    requires ValidScript(w, s) && Steady(s, active) && ValidScript(w, s1) && Steady(s1, active)
    requires GetSyncedHeadSpec(t, s).result.Ok? && GetSyncedHeadSpec(Buried(t), s1).result.Ok?
    ensures GetSyncedHeadSpec(t, s).t == GetSyncedHeadSpec(Buried(t), s1).t
    ensures GetSyncedHeadSpec(t, s).result.value.hash.Some?
    ensures var hash := GetSyncedHeadSpec(t, s).result.value.hash.value;
      && hash in t.blocks
      && (GetSyncedHeadSpec(t, s).result == GetSyncedHeadSpec(Buried(t), s1).result <==> !t.blocks[hash].orphan)
    ensures GetSyncedHeadSpec(t, s).result == GetSyncedHeadSpec(Buried(t), s1).result <==>
      GetSyncedHeadSpec(t, s).result.value.height < base + kept
  {
    hide GetSyncedHeadSpec, Flagged, Buried, IsAncestorsFork, Steady, ValidScript;
    BuriedHolds(w, t, base, chain, kept);
    ForkPointReached(w, t, base, chain, kept, s, active);
    ForkPointReached(w, Buried(t), base, chain[..kept], kept, s1, active);
    var k := GetSyncedHeadSpec(t, s).result.value.height;
    var k1 := GetSyncedHeadSpec(Buried(t), s1).result.value.height;
    assert t.blocks[chain[k - base]] == BlockRow(k, k - base >= kept);
    hide Holds;
    assert Agree(base, chain[..kept], active, k1);
    assert Agree(base, chain, active, k1);
    if k - base < kept {
      assert Agree(base, chain[..kept], active, k);
    } else {
      assert Agree(base, chain, active, base + kept - 1);
      assert Agree(base, chain[..kept], active, base + kept - 1);
    }
    SameTablesAfterCrash(t, base, chain, kept, k, k1, w);
  }
}
