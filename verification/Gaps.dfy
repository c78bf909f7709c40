/** What a pass of the backfill finds and fills, against any behaviour of the node. */
module Gaps {
  import opened Outcomes
  import opened Node
  import opened Schema
  import opened Store
  import opened Sync
  import opened Chain
  import opened Safety
  import opened Accounts
  import opened Rows
  import opened Backfill

  // ---- The search ----------------------------------------------------------------------

  ghost predicate Absent(t: Tables, lo: int, hi: int)
  {
    forall j | lo < j <= hi :: RowAt(t.blocks, j).None?
  }

  /** The highest maximal run of missing heights at or below h: above end, up to high. */
  ghost predicate HighestGap(t: Tables, h: int, end: int, high: int)
  {
    -1 <= end < high <= h && Absent(t, end, high) && Present(t, high, h) && (end >= 0 ==> RowAt(t.blocks, end).Some?)
  }

  ghost predicate SearchOutcome(t: Tables, top: int, f: Found)
  {
    match f.result
    case Ok(Gap(end, Some(high))) => HighestGap(t, top, end, high)
    case Ok(Gap(end, None)) => end == -1 && Present(t, -1, top)
    case Err(e) => e == Unavailable
  }

  lemma {:induction false} SearchContinues(t: Tables, top: int, h: int, beginning: Option<int>, s: Script)
    requires -1 <= h <= top
    requires beginning.None? ==> Present(t, h, top)
    requires beginning.Some? ==>
      h < beginning.value <= top && Absent(t, h, beginning.value) && Present(t, beginning.value, top)
    ensures SearchOutcome(t, top, Search(t, h, beginning, s))
    decreases h + 1
  {
    hide RowAt;
    if h > -1 && Live(s) {
      if RowAt(t.blocks, h).None? {
        SearchContinues(t, top, h - 1, if beginning.None? then Some(h) else beginning, Rest(s));
      } else if beginning.None? {
        SearchContinues(t, top, h - 1, None, Rest(s));
      }
    }
  }

  /** The search finds the highest maximal run of missing heights below the head, or that there is none. */
  lemma SearchFinds(t: Tables, head: int, s: Script)
    requires head >= -1
    ensures SearchOutcome(t, head, Search(t, head, None, s))
  {
    SearchContinues(t, head, head, None, s);
  }

  // ---- The end of the program ----------------------------------------------------------

  /** The program ends by itself only when every height up to the highest stored one has a row. */
  lemma {:induction false} StopsOnlyWhenFull(w: World, cfg: Config, t: Tables, s: Script)
    requires BackfillSpec(w, cfg, t, s).done
    ensures var out := BackfillSpec(w, cfg, t, s); Present(out.t, -1, MaxHeight(out.t.blocks))
    decreases |s|
  {
    hide GetSyncedHeadSpec, Fill, RowAt, BlockHashAnswer, Search;
    var out := SyncGapBlocksSpec(w, cfg, t, s);
    if out.result.Err? {
      StopsOnlyWhenFull(w, cfg, out.t, out.s);
    } else {
      var head := GetSyncedHeadSpec(t, s);
      HeadIsTop(t, s);
      SearchFinds(head.t, head.result.value.height, head.s);
      assert IsMaxHeight(head.t.blocks, MaxHeight(head.t.blocks));
    }
  }

  // ---- The fill ------------------------------------------------------------------------

  /** From any tables: blocks of consecutive heights up to the gap's beginning are stored, and no other row changes. */
  lemma {:induction false} FillStores(w: World, cfg: Config, t: Tables, next: Option<Hash>, beginning: int, s: Script)
    requires ValidScript(w, s)
    ensures var out := Fill(w, cfg, t, next, beginning, s);
      && ValidScript(w, out.s)
      && StoredFrom(w, t, next, out)
      && (forall i | 0 <= i < |out.stored| :: w.tree[out.stored[i]].height <= beginning)
    decreases |s|
  {
    hide StoreBlockSpec, ValidScript, StoredFrom;
    RestValid(w, s);
    RestValid(w, Rest(s));
    NothingStored(w, t, next, Fill(w, cfg, t, next, beginning, s));
    if next.Some? {
      var answer := BlockAnswer(w, s, next.value);
      if answer.Ok? {
        var b := answer.value;
        NextIsChild(w, s, next.value);
        if b.height <= beginning {
          StoreScript(w, cfg, t, b, Rest(s));
          var out := StoreBlockSpec(w, cfg, t, b, Rest(s));
          if out.result.Ok? {
            StoredRow(w, cfg, t, b, Rest(s));
            FillStores(w, cfg, out.t, b.next, beginning, out.s);
            PrependStored(w, t, out.t, b.hash, b.next, Fill(w, cfg, out.t, b.next, beginning, out.s));
          }
        } else if Live(Rest(s)) {
          FillStores(w, cfg, t, b.next, beginning, Rest(Rest(s)));
          FilledPast(w, cfg, t, b, beginning, Rest(Rest(s)));
          NothingStored(w, t, next, Fill(w, cfg, t, b.next, beginning, Rest(Rest(s))));
        }
      }
    }
  }

  lemma NothingStored(w: World, t: Tables, next: Option<Hash>, out: WalkOut)
    ensures out.stored == [] && out.t == t ==> StoredFrom(w, t, next, out)
  {
  }

  /** Past the gap's beginning nothing is stored any more. */
  lemma {:induction false} FilledPast(w: World, cfg: Config, t: Tables, b: Block, beginning: int, s: Script)
    requires ValidScript(w, s) && b.hash in w.tree && b.height == w.tree[b.hash].height > beginning
    requires b.next.Some? ==> ChildOf(w, b.next.value, b.hash)
    ensures Fill(w, cfg, t, b.next, beginning, s).stored == [] && Fill(w, cfg, t, b.next, beginning, s).t == t
    decreases |s|
  {
    hide StoreBlockSpec, ValidScript;
    RestValid(w, s);
    RestValid(w, Rest(s));
    if b.next.Some? {
      var answer := BlockAnswer(w, s, b.next.value);
      if answer.Ok? {
        NextIsChild(w, s, b.next.value);
        if Live(Rest(s)) {
          FilledPast(w, cfg, t, answer.value, beginning, Rest(Rest(s)));
        }
      }
    }
  }

  // ---- Progress ------------------------------------------------------------------------

  ghost function Missing(t: Tables, head: int): set<int>
  {
    set h | 0 <= h <= head && RowAt(t.blocks, h).None?
  }

  function Heights(lo: int, n: nat): (hs: set<int>)
    ensures |hs| == n
    ensures forall h :: h in hs <==> lo <= h < lo + n
  {
    if n == 0 then {} else Heights(lo, n - 1) + {lo + n - 1}
  }

  /**
   * A row exists at a height after the fill if and only if it did before or one of the blocks stored has that height.
   */
  lemma PresentAfter(w: World, t: Tables, next: Option<Hash>, out: WalkOut, h: int)
    requires OwnHeights(w, t) && StoredFrom(w, t, next, out) && h >= 0
    requires forall i | 0 <= i < |out.stored| :: RowAt(t.blocks, w.tree[out.stored[i]].height).None?
    ensures RowAt(out.t.blocks, h).Some? <==>
      RowAt(t.blocks, h).Some? || (out.stored != [] && h in Heights(w.tree[next.value].height, |out.stored|))
  {
    hide RowAt;
    if RowAt(t.blocks, h).Some? {
      var b := RowAt(t.blocks, h).value;
      assert b !in out.stored;
    }
    if out.stored != [] && h in Heights(w.tree[next.value].height, |out.stored|) {
      var i := h - w.tree[next.value].height;
      assert out.t.blocks[out.stored[i]].height == h;
    }
    if RowAt(out.t.blocks, h).Some? && RowAt(t.blocks, h).None? {
      var b := RowAt(out.t.blocks, h).value;
      var i :| 0 <= i < |out.stored| && out.stored[i] == b;
    }
  }

  lemma SameGap(t: Tables, h: int, end: int, high: int, end1: int, high1: int)
    requires HighestGap(t, h, end, high) && HighestGap(t, h, end1, high1)
    ensures end == end1 && high == high1
  {
    hide RowAt;
    assert RowAt(t.blocks, high).None? && RowAt(t.blocks, high1).None?;
    assert (end >= 0 ==> RowAt(t.blocks, end).Some?) && (end1 >= 0 ==> RowAt(t.blocks, end1).Some?);
  }

  lemma SearchedGap(t: Tables, head: int, end: int, high: int, s: Script)
    requires HighestGap(t, head, end, high) && Search(t, head, None, s).result.Ok?
    ensures Search(t, head, None, s).result.value == Gap(end, Some(high))
  {
    hide RowAt, Search;
    SearchFinds(t, head, s);
    var gap := Search(t, head, None, s).result.value;
    assert RowAt(t.blocks, high).None?;
    if gap.beginning.Some? {
      SameGap(t, head, end, high, gap.end, gap.beginning.value);
    }
  }

  lemma {:induction false} SearchScript(w: World, t: Tables, h: int, beginning: Option<int>, s: Script)
    requires ValidScript(w, s)
    ensures ValidScript(w, Search(t, h, beginning, s).s)
    decreases h + 1
  {
    hide ValidScript, RowAt;
    RestValid(w, s);
    if h > -1 && Live(s) {
      if RowAt(t.blocks, h).None? {
        SearchScript(w, t, h - 1, if beginning.None? then Some(h) else beginning, Rest(s));
      } else if beginning.None? {
        SearchScript(w, t, h - 1, None, Rest(s));
      }
    }
  }

  /** What a walk that starts just above end and stays below high changes. */
  ghost predicate FillsGap(w: World, t: Tables, head: int, end: int, high: int, out: WalkOut)
  {
    && |out.stored| <= high - end
    && Missing(out.t, head) == Missing(t, head) - Heights(end + 1, |out.stored|)
    && |Missing(out.t, head)| + |out.stored| == |Missing(t, head)|
    && (Present(out.t, end, high) <==> |out.stored| == high - end)
  }

  lemma FilledGap(w: World, t: Tables, head: int, end: int, high: int, next: Option<Hash>, out: WalkOut)
    requires OwnHeights(w, t) && HighestGap(t, head, end, high) && StoredFrom(w, t, next, out)
    requires out.stored != [] ==> next.Some? && next.value in w.tree && w.tree[next.value].height == end + 1
    requires forall i | 0 <= i < |out.stored| :: out.stored[i] in w.tree && w.tree[out.stored[i]].height <= high
    ensures FillsGap(w, t, head, end, high, out)
  {
    hide RowAt, OwnHeights, StoredFrom, Missing;
    StoredHeights(w, t, next, out);
    var n := |out.stored|;
    if n > 0 {
      assert w.tree[out.stored[n - 1]].height == end + n;
    }
    forall h | h >= 0
      ensures RowAt(out.t.blocks, h).Some? <==> RowAt(t.blocks, h).Some? || h in Heights(end + 1, n)
    {
      PresentAfter(w, t, next, out, h);
    }
    FewerMissing(t, out.t, head, end, high, n);
  }

  lemma MissingAt(t: Tables, head: int, h: int)
    ensures h in Missing(t, head) <==> 0 <= h <= head && RowAt(t.blocks, h).None?
  {
    hide RowAt;
  }

  lemma GapIsMissing(t: Tables, head: int, end: int, high: int, h: int)
    requires HighestGap(t, head, end, high) && end < h <= high
    ensures RowAt(t.blocks, h).None?
  {
    hide RowAt;
  }

  lemma FewerMissing(t: Tables, u: Tables, head: int, end: int, high: int, n: nat)
    requires HighestGap(t, head, end, high) && n <= high - end
    requires forall h | h >= 0 :: RowAt(u.blocks, h).Some? <==> RowAt(t.blocks, h).Some? || h in Heights(end + 1, n)
    ensures Missing(u, head) == Missing(t, head) - Heights(end + 1, n)
    ensures |Missing(u, head)| + n == |Missing(t, head)|
    ensures Present(u, end, high) <==> n == high - end
  {
    hide RowAt, Heights, Missing, Present, Absent;
    var before, after, run := Missing(t, head), Missing(u, head), Heights(end + 1, n);
    forall h | h in run ensures h in before {
      MissingAt(t, head, h);
      GapIsMissing(t, head, end, high, h);
    }
    forall h | h in before - run ensures h in after {
      MissingAt(t, head, h);
      MissingAt(u, head, h);
    }
    forall h | h in after ensures h in before - run {
      MissingAt(t, head, h);
      MissingAt(u, head, h);
    }
    Remaining(before, after, run);
    ClosedIff(t, u, head, end, high, n);
  }

  lemma ClosedIff(t: Tables, u: Tables, head: int, end: int, high: int, n: nat)
    requires HighestGap(t, head, end, high) && n <= high - end
    requires forall h | h >= 0 :: RowAt(u.blocks, h).Some? <==> RowAt(t.blocks, h).Some? || h in Heights(end + 1, n)
    ensures Present(u, end, high) <==> n == high - end
  {
    hide RowAt, Heights;
    if n < high - end {
      GapIsMissing(t, head, end, high, end + 1 + n);
      assert RowAt(u.blocks, end + 1 + n).None?;
    }
  }

  lemma Remaining(all: set<int>, rest: set<int>, part: set<int>)
    requires part <= all && rest == all - part
    ensures |rest| + |part| == |all|
  {
    assert all == rest + part;
  }

  lemma StoredHeights(w: World, t: Tables, next: Option<Hash>, out: WalkOut)
    requires StoredFrom(w, t, next, out)
    ensures out.stored != [] ==> next.Some? && next.value in w.tree
    ensures forall i | 0 <= i < |out.stored| ::
      out.stored[i] in w.tree && w.tree[out.stored[i]].height == w.tree[next.value].height + i
  {
  }

  lemma NothingFilled(w: World, t: Tables, head: int, end: int, high: int, out: WalkOut)
    requires HighestGap(t, head, end, high) && out.t == t && out.stored == []
    ensures FillsGap(w, t, head, end, high, out)
  {
    hide RowAt;
    assert Missing(t, head) - Heights(end + 1, 0) == Missing(t, head);
    assert RowAt(t.blocks, high).None?;
  }

  /**
   * Whatever the node does during the pass: each block stored turns one missing height below the head into a present
   * one, from the bottom of the highest gap upwards, and the gap is closed if and only if all its heights were stored.
   */
  lemma PassFillsGap(w: World, cfg: Config, t: Tables, s: Script, end: int, high: int)
    requires ValidScript(w, s) && OwnHeights(w, t) && GetSyncedHeadSpec(t, s).result.Ok?
    requires HighestGap(GetSyncedHeadSpec(t, s).t, GetSyncedHeadSpec(t, s).result.value.height, end, high)
    ensures FillsGap(w, GetSyncedHeadSpec(t, s).t, GetSyncedHeadSpec(t, s).result.value.height, end, high,
      SyncGapBlocksSpec(w, cfg, t, s))
  {
    hide ValidScript, OwnHeights, GetSyncedHeadSpec, HighestGap, Search, Fill, StoredFrom, FillsGap, BlockHashAnswer,
      OnlyOrphans;
    HeadOwnHeights(w, t, s);
    var head := GetSyncedHeadSpec(t, s);
    var k := head.result.value.height;
    var out := SyncGapBlocksSpec(w, cfg, t, s);
    var found := Search(head.t, k, None, head.s);
    SearchScript(w, head.t, k, None, head.s);
    RestValid(w, found.s);
    if found.result.Ok? {
      SearchedGap(head.t, k, end, high, head.s);
      var first := BlockHashAnswer(found.s, end + 1);
      if first.Ok? {
        AnsweredHash(w, found.s, end + 1);
        FillStores(w, cfg, head.t, Some(first.value), high, Rest(found.s));
        StoredHeights(w, head.t, Some(first.value), out);
        FilledGap(w, head.t, k, end, high, Some(first.value), out);
      } else {
        NothingFilled(w, head.t, k, end, high, out);
      }
    } else {
      NothingFilled(w, head.t, k, end, high, out);
    }
  }
}
