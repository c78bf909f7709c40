/** Tables whose rows sit at the heights of their blocks, linked or not, and what the scan does to them. */
module Rows {
  import opened Outcomes
  import opened Node
  import opened Schema
  import opened Store
  import opened Sync
  import opened Chain
  import opened ForkPoint
  import opened Ledger
  import opened Accounts

  // ---- Rows at their heights -----------------------------------------------------------

  /** Rows with a height sit at the height of their block; all others are orphans, besides the sentinel. */
  ghost predicate OwnHeights(w: World, t: Tables)
  {
    && DEADBEEF in t.blocks && t.blocks[DEADBEEF] == BlockRow(-1, false)
    && forall b | b in t.blocks && b != DEADBEEF ::
      b in w.tree && (t.blocks[b] == BlockRow(-2, true) || t.blocks[b].height == w.tree[b].height)
  }

  lemma OrphansOwnHeights(w: World, t: Tables, u: Tables)
    requires OwnHeights(w, t) && OnlyOrphans(t, u)
    ensures OwnHeights(w, u)
  {
  }

  lemma StoredOwnHeights(w: World, t: Tables, next: Option<Hash>, out: WalkOut)
    requires ValidWorld(w) && OwnHeights(w, t) && StoredFrom(w, t, next, out)
    ensures OwnHeights(w, out.t)
  {
    assert DEADBEEF !in out.stored;
  }

  lemma OnlyRowAt(t: Tables, b: Hash, h: int)
    requires UniqueHeights(t.blocks) && b in t.blocks && t.blocks[b].height == h >= 0
    ensures RowAt(t.blocks, h) == Some(b)
  {
  }

  /** After a fill: the stored blocks at their heights, every other height as it was. */
  lemma RowAfter(w: World, t: Tables, next: Option<Hash>, out: WalkOut, h: int)
    requires OwnHeights(w, t) && StoredFrom(w, t, next, out) && h >= 0 && UniqueHeights(out.t.blocks)
    requires forall i | 0 <= i < |out.stored| :: RowAt(t.blocks, w.tree[out.stored[i]].height).None?
    ensures forall i | 0 <= i < |out.stored| :: RowAt(out.t.blocks, w.tree[out.stored[i]].height) == Some(out.stored[i])
    ensures (forall i | 0 <= i < |out.stored| :: w.tree[out.stored[i]].height != h) ==>
      RowAt(out.t.blocks, h) == RowAt(t.blocks, h)
  {
    hide RowAt;
    forall i | 0 <= i < |out.stored| ensures RowAt(out.t.blocks, w.tree[out.stored[i]].height) == Some(out.stored[i]) {
      OnlyRowAt(out.t, out.stored[i], w.tree[out.stored[i]].height);
    }
    if forall i | 0 <= i < |out.stored| :: w.tree[out.stored[i]].height != h {
      if RowAt(t.blocks, h).Some? {
        var b := RowAt(t.blocks, h).value;
        assert b !in out.stored;
        OnlyRowAt(out.t, b, h);
      }
    }
  }

  // ---- The head, on any tables ---------------------------------------------------------

  /** Every height above lo up to hi has a row. */
  ghost predicate Present(t: Tables, lo: int, hi: int)
  {
    forall j | lo < j <= hi :: RowAt(t.blocks, j).Some?
  }

  ghost predicate ScanFound(t: Tables, h: int, out: Out<Head>)
  {
    match out.result
    case Ok(Head(k, Some(hash))) =>
      0 <= k <= h && RowAt(t.blocks, k) == Some(hash) && Present(t, k - 1, h) && out.t == Buried(Flagged(t, k))
    case Ok(Head(k, None)) => k == -1 && Present(t, -1, h) && out.t == t
    case Err(_) => true
  }

  lemma {:induction false} ScanFinds(t: Tables, top: int, h: int, s: Script)
    requires -1 <= h <= top && Present(t, h, top)
    ensures ScanFound(t, top, Scan(t, h, s))
    decreases h + 1
  {
    hide RowAt, Flagged, Buried, BlockHashAnswer;
    if h >= 0 && Live(s) && RowAt(t.blocks, h).Some? {
      var answer := BlockHashAnswer(Rest(s), h);
      if answer.Ok? && answer.value != RowAt(t.blocks, h).value {
        ScanFinds(t, top, h - 1, Rest(Rest(s)));
      }
    }
  }

  lemma BuriedAbove(t: Tables, k: int)
    requires k >= 0
    ensures forall b | b in Buried(Flagged(t, k)).blocks :: Buried(Flagged(t, k)).blocks[b].height <= k
  {
  }

  /** Nothing is left above the head. */
  lemma HeadIsTop(t: Tables, s: Script)
    requires GetSyncedHeadSpec(t, s).result.Ok?
    ensures var head := GetSyncedHeadSpec(t, s);
      var k := head.result.value.height;
      && k >= -1
      && (k == -1 ==> head.t == t && Present(t, -1, MaxHeight(t.blocks)))
      && (k >= 0 ==> forall b | b in head.t.blocks :: head.t.blocks[b].height <= k)
  {
    hide Flagged, Buried, RowAt;
    var m := MaxHeight(t.blocks);
    if m >= 0 {
      ScanFinds(t, m, m, Rest(s));
    }
    var head := GetSyncedHeadSpec(t, s);
    var k := head.result.value.height;
    if k >= 0 {
      BuriedAbove(t, k);
    }
  }

  /** GetSyncedHead keeps rows at their heights, whatever it finds. */
  lemma HeadOwnHeights(w: World, t: Tables, s: Script)
    requires ValidScript(w, s) && OwnHeights(w, t)
    ensures OwnHeights(w, GetSyncedHeadSpec(t, s).t) && ValidScript(w, GetSyncedHeadSpec(t, s).s)
    ensures OnlyOrphans(t, GetSyncedHeadSpec(t, s).t)
  {
    hide ValidScript, OwnHeights, Scan;
    RestValid(w, s);
    assert OnlyOrphans(t, t);
    if Live(s) {
      ScanOnlyOrphans(w, t, MaxHeight(t.blocks), Rest(s));
    }
    OrphansOwnHeights(w, t, GetSyncedHeadSpec(t, s).t);
  }

  lemma SentinelTop(w: World, t: Tables)
    requires OwnHeights(w, t)
    ensures MaxHeight(t.blocks) >= -1
  {
    assert IsMaxHeight(t.blocks, MaxHeight(t.blocks)) && t.blocks[DEADBEEF].height == -1;
  }

  // ---- The head against an unchanging node ---------------------------------------------

  lemma {:induction false} ScanAgrees(t: Tables, h: int, s: Script, active: seq<Hash>)
    requires Steady(s, active)
    ensures var out := Scan(t, h, s);
      Steady(out.s, active) &&
      (out.result.Ok? && out.result.value.hash.Some? ==>
         0 <= out.result.value.height < |active| && out.result.value.hash.value == active[out.result.value.height])
    decreases h + 1
  {
    hide RowAt, Flagged, Buried, Steady, BlockHashAnswer;
    SteadyRest(s, active);
    SteadyRest(Rest(s), active);
    SteadyRest(Rest(Rest(s)), active);
    SteadyRest(Rest(Rest(Rest(s))), active);
    if h >= 0 && Live(s) && RowAt(t.blocks, h).Some? {
      SteadyAnswer(Rest(s), active, h);
      var answer := BlockHashAnswer(Rest(s), h);
      if answer.Ok? && answer.value != RowAt(t.blocks, h).value {
        ScanAgrees(t, h - 1, Rest(Rest(s)), active);
      }
    }
  }

  /** No orphan update is pending. */
  ghost predicate Unflagged(t: Tables)
  {
    forall b | b in t.blocks && t.blocks[b].orphan :: t.blocks[b].height == -2
  }

  /** Rows above k are gone and so are all flagged ones. */
  ghost predicate Capped(t: Tables, k: int)
  {
    (forall b | b in t.blocks :: t.blocks[b].height <= k) && Unflagged(t)
  }

  lemma NothingAbove(t: Tables, k: int)
    requires Capped(t, k)
    ensures forall j | j > k :: RowAt(t.blocks, j).None?
  {
  }

  lemma BuriedCapped(t: Tables, k: int)
    requires k >= 0
    ensures Capped(Buried(Flagged(t, k)), k)
  {
  }

  ghost predicate OnlyRow(t: Tables, k: int, b: Hash)
  {
    forall c | c in t.blocks && t.blocks[c].height == k :: c == b
  }

  lemma OnlyRowOf(w: World, cfg: Config, t: Tables, commits: multiset<Hash>, k: int, b: Hash)
    requires Balanced(w, cfg, t, commits) && k >= 0 && RowAt(t.blocks, k) == Some(b)
    ensures OnlyRow(t, k, b)
  {
    hide Conserved, Accounted;
  }

  lemma SameRowAt(t: Tables, k: int, b: Hash)
    requires k >= 0 && RowAt(t.blocks, k) == Some(b)
    requires OnlyRow(t, k, b)
    ensures RowAt(Buried(Flagged(t, k)).blocks, k).Some? ==> RowAt(Buried(Flagged(t, k)).blocks, k) == Some(b)
  {
  }

  /** The head that a pass starts from, on any tables. */
  lemma HeadCaps(w: World, cfg: Config, t: Tables, commits: multiset<Hash>, s: Script, active: seq<Hash>)
    requires ValidWorld(w) && ValidScript(w, s) && Steady(s, active) && Balanced(w, cfg, t, commits) && OwnHeights(w, t)
    requires GetSyncedHeadSpec(t, s).result.Ok? && GetSyncedHeadSpec(t, s).result.value.height >= 0
    ensures var head := GetSyncedHeadSpec(t, s);
      var k := head.result.value.height;
      && k < |active| && Capped(head.t, k) && Balanced(w, cfg, head.t, commits) && OwnHeights(w, head.t)
      && ValidScript(w, head.s) && Steady(head.s, active)
      && (RowAt(head.t.blocks, k).Some? ==> RowAt(head.t.blocks, k) == Some(active[k]))
  {
    hide ValidScript, Steady, Balanced, OwnHeights, Scan, Flagged, Buried, RowAt, OnlyOrphans;
    var m := MaxHeight(t.blocks);
    SteadyRest(s, active);
    SentinelTop(w, t);
    ScanFinds(t, m, m, Rest(s));
    ScanAgrees(t, m, Rest(s), active);
    HeadOwnHeights(w, t, s);
    var head := GetSyncedHeadSpec(t, s);
    BalancedOrphans(w, cfg, t, commits, head.t);
    var k := head.result.value.height;
    BuriedCapped(t, k);
    OnlyRowOf(w, cfg, t, commits, k, head.result.value.hash.value);
    SameRowAt(t, k, head.result.value.hash.value);
  }

  /** A scan that matches nothing had nothing to compare: at height 0 the node always agrees. */
  lemma {:induction false} ScanNone(w: World, t: Tables, h: int, s: Script)
    requires ValidWorld(w) && ValidScript(w, s) && OwnHeights(w, t)
    ensures Scan(t, h, s).result.Ok? && Scan(t, h, s).result.value.hash.None? ==> h < 0
    decreases h + 1
  {
    hide Flagged, Buried, ValidWorld, ValidScript, OwnHeights, RowAt, BlockHashAnswer;
    RestValid(w, s);
    RestValid(w, Rest(s));
    if h >= 0 && Live(s) && RowAt(t.blocks, h).Some? {
      var answer := BlockHashAnswer(Rest(s), h);
      if answer.Ok? && answer.value != RowAt(t.blocks, h).value {
        if h == 0 {
          GenesisRow(w, t, Rest(s));
        }
        ScanNone(w, t, h - 1, Rest(Rest(s)));
      }
    }
  }

  lemma GenesisRow(w: World, t: Tables, s: Script)
    requires ValidWorld(w) && ValidScript(w, s) && OwnHeights(w, t)
    requires RowAt(t.blocks, 0).Some? && BlockHashAnswer(s, 0).Ok?
    ensures RowAt(t.blocks, 0).value == BlockHashAnswer(s, 0).value
  {
    assert ValidMoment(w, s[0]);
  }

  lemma EmptyCapped(w: World, t: Tables)
    requires OwnHeights(w, t) && MaxHeight(t.blocks) == -1
    ensures Capped(t, -1)
  {
    assert IsMaxHeight(t.blocks, MaxHeight(t.blocks));
  }

  /** Every successful head, matched or not, on any tables whose rows sit at their heights. */
  lemma HeadEnds(w: World, cfg: Config, t: Tables, commits: multiset<Hash>, s: Script, active: seq<Hash>)
    requires ValidWorld(w) && ValidScript(w, s) && Steady(s, active) && Balanced(w, cfg, t, commits) && OwnHeights(w, t)
    requires GetSyncedHeadSpec(t, s).result.Ok?
    ensures var head := GetSyncedHeadSpec(t, s);
      var k := head.result.value.height;
      && -1 <= k < |active| && Capped(head.t, k) && Balanced(w, cfg, head.t, commits) && OwnHeights(w, head.t)
      && ValidScript(w, head.s) && Steady(head.s, active)
  {
    hide ValidScript, Steady, Balanced, OwnHeights, Scan, RowAt, ValidWorld, Capped;
    var m := MaxHeight(t.blocks);
    SteadyRest(s, active);
    RestValid(w, s);
    SentinelTop(w, t);
    ScanFinds(t, m, m, Rest(s));
    ScanNone(w, t, m, Rest(s));
    if GetSyncedHeadSpec(t, s).result.value.height >= 0 {
      HeadCaps(w, cfg, t, commits, s, active);
    } else {
      EmptyCapped(w, t);
      ScanAgrees(t, m, Rest(s), active);
      HeadOwnHeights(w, t, s);
    }
  }

  /** Only an interrupted scan leaves a pending orphan update. */
  lemma {:induction false} ScanUnchanged(t: Tables, h: int, s: Script)
    ensures Scan(t, h, s).result.Err? && Scan(t, h, s).result.error != Unavailable ==> Scan(t, h, s).t == t
    decreases h + 1
  {
    hide Flagged, Buried, RowAt, BlockHashAnswer;
    if h >= 0 && Live(s) && RowAt(t.blocks, h).Some? {
      var answer := BlockHashAnswer(Rest(s), h);
      if answer.Ok? && answer.value != RowAt(t.blocks, h).value {
        ScanUnchanged(t, h - 1, Rest(Rest(s)));
      }
    }
  }

  // ---- Room above the rows -------------------------------------------------------------

  ghost predicate RowsBelow(t: Tables, h: int)
  {
    forall b | b in t.blocks :: t.blocks[b].height < h
  }

  lemma BelowFree(t: Tables, b: Hash, h: nat)
    requires RowsBelow(t, h)
    ensures CanUpsert(t, b, h)
  {
  }

  lemma BelowAfter(t: Tables, b: Hash, h: nat, u: Tables)
    requires RowsBelow(t, h) && u.blocks == t.blocks[b := BlockRow(h, false)]
    ensures RowsBelow(u, h + 1)
  {
  }

  lemma CappedBelow(t: Tables, k: int, h: int)
    requires Capped(t, k) && k < h
    ensures RowsBelow(t, h)
  {
  }
}
