/** cmd/backfill: filling missing heights below the synced head. */
module Backfill {
  import opened Outcomes
  import opened Node
  import opened Schema
  import opened Database
  import opened Store
  import opened Sync

  // ---- The downward search -------------------------------------------------------------

  /** Where the search stops, and the height at which a gap began, if one did. */
  datatype Gap = Gap(end: int, beginning: Option<int>)

  datatype Found = Found(result: Result<Gap>, s: Script)

  ghost function Search(t: Tables, height: int, beginning: Option<int>, s: Script): (f: Found)
    ensures |f.s| <= |s|
    decreases height + 1
  {
    if height <= -1 then Found(Ok(Gap(-1, beginning)), s)
    else if !Live(s) then Found(Err(Unavailable), Rest(s))
    else if RowAt(t.blocks, height).None? then
      Search(t, height - 1, if beginning.None? then Some(height) else beginning, Rest(s))
    else if beginning.None? then Search(t, height - 1, None, Rest(s))
    else Found(Ok(Gap(height, beginning)), Rest(s))
  }

  method FindGap(db: Connection, c: Clients, maxHeight: int) returns (r: Result<Gap>)
    requires db.Sound()
    modifies c
    ensures Found(r, c.script) == Search(db.State(), maxHeight, None, old(c.script))
  {
    var gapStarted := false;
    var gapBeginning := 0;
    var height := maxHeight;
    while true
      invariant Search(db.State(), maxHeight, None, old(c.script)) ==
        Search(db.State(), height, if gapStarted then Some(gapBeginning) else None, c.script)
      decreases height + 1
    {
      if height <= -1 {
        height := -1;
        break;
      }
      var up := c.Reach();
      if !up {
        return Err(Unavailable);
      }
      var block := db.GetBlockHashByHeight(height);
      if block.None? {
        if !gapStarted {
          gapBeginning := height;
        }
        gapStarted := true;
      } else if gapStarted {
        return Ok(Gap(height, Some(gapBeginning)));
      }
      height := height - 1;
    }
    r := Ok(Gap(-1, if gapStarted then Some(gapBeginning) else None));
  }

  // ---- The upward fill -----------------------------------------------------------------

  /** A block's successor is asked for even if there is none: the pointer to an empty hash is not nil. */
  function Asked(w: World, s: Script, next: Option<Hash>): Result<Block>
  {
    if next.Some? then BlockAnswer(w, s, next.value)
    else if Live(s) then Err(NotFound)
    else Err(Unavailable)
  }

  /** Stores blocks up to the gap's beginning; above it each block takes one transaction that updates spenders. */
  function Fill(w: World, cfg: Config, t: Tables, next: Option<Hash>, beginning: int, s: Script): (out: WalkOut)
    ensures |out.s| <= |s|
    ensures out.result.Err?
    decreases |s|
  {
    var answer := Asked(w, s, next);
    if answer.Err? then WalkOut(Err(answer.error), t, Rest(s), [])
    else if answer.value.height <= beginning then
      var out := StoreBlockSpec(w, cfg, t, answer.value, Rest(s));
      if out.result.Err? then WalkOut(out.result, t, out.s, [])
      else Prepend([next.value], Fill(w, cfg, out.t, answer.value.next, beginning, out.s))
    else if !Live(Rest(s)) then WalkOut(Err(Unavailable), t, Rest(Rest(s)), [])
    else Fill(w, cfg, t, answer.value.next, beginning, Rest(Rest(s)))
  }

  method FillForward(db: Connection, c: Clients, cfg: Config, first: Hash, gapBeginning: int)
    returns (r: Result<()>, ghost stored: seq<Hash>)
    requires db.Sound() && db.saved.None?
    modifies db, c
    ensures db.Sound() && db.saved.None?
    ensures WalkOut(r, db.State(), c.script, stored) ==
      Fill(c.w, cfg, old(db.State()), Some(first), gapBeginning, old(c.script))
  {
    hide StoreBlockSpec;
    stored := [];
    var nextBlockHash := Some(first);
    ghost var t0, s0 := db.State(), c.script;
    while true
      invariant db.Sound() && db.saved.None?
      invariant Fill(c.w, cfg, t0, Some(first), gapBeginning, s0) ==
        Prepend(stored, Fill(c.w, cfg, db.State(), nextBlockHash, gapBeginning, c.script))
      decreases |c.script|
    {
      assert stored + [] == stored;
      if nextBlockHash.None? {
        var up := c.Reach();
        return Err(if up then NotFound else Unavailable), stored;
      }
      var block := c.GetBlock(nextBlockHash.value);
      if block.Err? {
        return Err(block.error), stored;
      }
      if block.value.height <= gapBeginning {
        r := StoreBlock(db, c, cfg, block.value);
        if r.Err? {
          return;
        }
        PrependTwice(stored, nextBlockHash.value, Fill(c.w, cfg, db.State(), block.value.next, gapBeginning, c.script));
        stored := stored + [nextBlockHash.value];
      } else {
        var up := c.Reach();
        if !up {
          return Err(Unavailable), stored;
        }
      }
      nextBlockHash := block.value.next;
    }
  }

  // ---- One pass, and the retries -------------------------------------------------------

  ghost function SyncGapBlocksSpec(w: World, cfg: Config, t: Tables, s: Script): (out: WalkOut)
    ensures |out.s| <= |s| && (s != [] ==> |out.s| < |s|)
  {
    var head := GetSyncedHeadSpec(t, s);
    if head.result.Err? then WalkOut(Err(head.result.error), head.t, head.s, [])
    else
      var found := Search(head.t, head.result.value.height, None, head.s);
      if found.result.Err? then WalkOut(Err(found.result.error), head.t, found.s, [])
      else if found.result.value.beginning.None? then WalkOut(Ok(()), head.t, found.s, [])
      else
        var first := BlockHashAnswer(found.s, found.result.value.end + 1);
        if first.Err? then WalkOut(Err(first.error), head.t, Rest(found.s), [])
        else Fill(w, cfg, head.t, Some(first.value), found.result.value.beginning.value, Rest(found.s))
  }

  method SyncGapBlocks(db: Connection, c: Clients, cfg: Config) returns (r: Result<()>, ghost stored: seq<Hash>)
    requires db.Sound() && db.saved.None?
    modifies db, c
    ensures db.Sound() && db.saved.None?
    ensures WalkOut(r, db.State(), c.script, stored) == SyncGapBlocksSpec(c.w, cfg, old(db.State()), old(c.script))
  {
    hide GetSyncedHeadSpec, Search, Fill, BlockHashAnswer, Valid;
    stored := [];
    var head := GetSyncedHead(db, c);
    if head.Err? {
      return Err(head.error), stored;
    }
    var gap := FindGap(db, c, head.value.height);
    if gap.Err? {
      return Err(gap.error), stored;
    }
    if gap.value.beginning.None? {
      return Ok(()), stored;
    }
    var nextBlockHash := c.GetBlockHash(gap.value.end + 1);
    if nextBlockHash.Err? {
      return Err(nextBlockHash.error), stored;
    }
    r, stored := FillForward(db, c, cfg, nextBlockHash.value, gap.value.beginning.value);
  }

  /** Whether the program ended by itself or was stopped, and the blocks whose storing was committed. */
  datatype BackfillOut = BackfillOut(done: bool, t: Tables, stored: seq<Hash>)

  function After(stored: seq<Hash>, out: BackfillOut): BackfillOut
  {
    out.(stored := stored + out.stored)
  }

  ghost function BackfillSpec(w: World, cfg: Config, t: Tables, s: Script): BackfillOut
    decreases |s|
  {
    if s == [] then BackfillOut(false, t, [])
    else
      var out := SyncGapBlocksSpec(w, cfg, t, s);
      if out.result.Ok? then BackfillOut(true, out.t, out.stored)
      else After(out.stored, BackfillSpec(w, cfg, out.t, out.s))
  }

  /** Passes until one finds no gap. */
  method RunBackfill(db: Connection, c: Clients, cfg: Config) returns (done: bool, ghost stored: seq<Hash>)
    requires db.Sound() && db.saved.None?
    modifies db, c
    ensures db.Sound() && db.saved.None?
    ensures BackfillOut(done, db.State(), stored) == BackfillSpec(c.w, cfg, old(db.State()), old(c.script))
  {
    hide SyncGapBlocksSpec;
    stored := [];
    while c.script != []
      invariant db.Sound() && db.saved.None?
      invariant BackfillSpec(c.w, cfg, old(db.State()), old(c.script)) ==
        After(stored, BackfillSpec(c.w, cfg, db.State(), c.script))
      decreases |c.script|
    {
      var r;
      ghost var more;
      r, more := SyncGapBlocks(db, c, cfg);
      if r.Ok? {
        return true, stored + more;
      }
      AfterTwice(stored, more, BackfillSpec(c.w, cfg, db.State(), c.script));
      stored := stored + more;
    }
    assert stored + [] == stored;
    done := false;
  }

  lemma AfterTwice(stored: seq<Hash>, more: seq<Hash>, out: BackfillOut)
    ensures After(stored, After(more, out)) == After(stored + more, out)
  {
    assert stored + (more + out.stored) == stored + more + out.stored;
  }
}
