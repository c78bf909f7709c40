/** cmd/sync: following the node's active chain. */
module Sync {
  import opened Outcomes
  import opened Node
  import opened Schema
  import opened Database
  import opened Store

  /** The height of the first block a fresh database receives. */
  function Base(cfg: Config): nat
  {
    if cfg.fastSync < -1 then 0 else cfg.fastSync + 1
  }

  /** The outcome of a walk, with the blocks whose storing was committed, in order. */
  datatype WalkOut = WalkOut(result: Result<()>, t: Tables, s: Script, stored: seq<Hash>)

  /** Fetches and stores the block next, then the one the node then names as its successor, and so on. */
  function Walk(w: World, cfg: Config, t: Tables, next: Option<Hash>, s: Script): (out: WalkOut)
    ensures |out.s| <= |s|
    decreases |s|
  {
    if next.None? then WalkOut(Ok(()), t, s, [])
    else
      var answer := BlockAnswer(w, s, next.value);
      if answer.Err? then WalkOut(Err(answer.error), t, Rest(s), [])
      else
        var out := StoreBlockSpec(w, cfg, t, answer.value, Rest(s));
        if out.result.Err? then WalkOut(out.result, t, out.s, [])
        else
          var rest := Walk(w, cfg, out.t, answer.value.next, out.s);
          Prepend([next.value], rest)
  }

  /** The height whose block a round stores first. */
  function FirstHeight(cfg: Config, head: Head): int
  {
    (if head.height < cfg.fastSync then cfg.fastSync else head.height) + 1
  }

  ghost function SyncBlocksSpec(w: World, cfg: Config, t: Tables, s: Script): (out: WalkOut)
    ensures |out.s| <= |s|
  {
    var head := GetSyncedHeadSpec(t, s);
    if head.result.Err? then WalkOut(Err(head.result.error), head.t, head.s, [])
    else
      var first := BlockHashAnswer(head.s, FirstHeight(cfg, head.result.value));
      if first == Err(OutOfRange) then WalkOut(Ok(()), head.t, Rest(head.s), [])
      else if first.Err? then WalkOut(Err(first.error), head.t, Rest(head.s), [])
      else Walk(w, cfg, head.t, Some(first.value), Rest(head.s))
  }

  /** The walk over next hashes; the first block is stored like every later one. */
  method StoreForward(db: Connection, c: Clients, cfg: Config, first: Hash)
    returns (r: Result<()>, ghost stored: seq<Hash>)
    requires db.Sound() && db.saved.None?
    modifies db, c
    ensures db.Sound() && db.saved.None?
    ensures WalkOut(r, db.State(), c.script, stored) == Walk(c.w, cfg, old(db.State()), Some(first), old(c.script))
  {
    hide StoreBlockSpec;
    stored := [];
    r := Ok(());
    var nextBlockHash := Some(first);
    ghost var t0, s0 := db.State(), c.script;
    while nextBlockHash.Some?
      invariant db.Sound() && db.saved.None? && r == Ok(())
      invariant Walk(c.w, cfg, t0, Some(first), s0) ==
        Prepend(stored, Walk(c.w, cfg, db.State(), nextBlockHash, c.script))
      decreases |c.script|
    {
      var block := c.GetBlock(nextBlockHash.value);
      if block.Err? {
        assert stored + [] == stored;
        return Err(block.error), stored;
      }
      r := StoreBlock(db, c, cfg, block.value);
      if r.Err? {
        assert stored + [] == stored;
        return;
      }
      assert r.value == ();
      PrependTwice(stored, nextBlockHash.value, Walk(c.w, cfg, db.State(), block.value.next, c.script));
      stored := stored + [nextBlockHash.value];
      nextBlockHash := block.value.next;
    }
    assert stored + [] == stored;
  }

  function Prepend(stored: seq<Hash>, out: WalkOut): WalkOut
  {
    out.(stored := stored + out.stored)
  }

  lemma PrependTwice(stored: seq<Hash>, b: Hash, out: WalkOut)
    ensures Prepend(stored, Prepend([b], out)) == Prepend(stored + [b], out)
  {
    assert stored + ([b] + out.stored) == stored + [b] + out.stored;
  }

  method SyncBlocks(db: Connection, c: Clients, cfg: Config) returns (r: Result<()>, ghost stored: seq<Hash>)
    requires db.Sound() && db.saved.None?
    modifies db, c
    ensures db.Sound() && db.saved.None?
    ensures WalkOut(r, db.State(), c.script, stored) == SyncBlocksSpec(c.w, cfg, old(db.State()), old(c.script))
  {
    hide GetSyncedHeadSpec, Walk, BlockHashAnswer, Valid;
    stored := [];
    var head := GetSyncedHead(db, c);
    if head.Err? {
      return Err(head.error), stored;
    }
    var height := head.value.height;
    if height < cfg.fastSync {
      height := cfg.fastSync;
    }
    height := height + 1;
    var hash := c.GetBlockHash(height);
    if hash.Err? {
      if hash.error == OutOfRange {
        return Ok(()), stored;
      }
      return Err(hash.error), stored;
    }
    r, stored := StoreForward(db, c, cfg, hash.value);
  }
}
