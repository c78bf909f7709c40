/** What one sync round does to the stored chain, and exactly when it keeps it. */
module Safety {
  import opened Outcomes
  import opened Node
  import opened Schema
  import opened Store
  import opened Sync
  import opened Chain

  // ---- One round -----------------------------------------------------------------------

  /**
   * The first block a round stores is a child of the matched row, and no crash had left that row flagged; if nothing is
   * matched, the round starts the chain at its base height. A caller could test this before storing: the block carries
   * its parent's hash and the row its flag.
   */
  ghost predicate Linked(w: World, cfg: Config, t: Tables, base: nat, head: Head, first: Hash)
  {
    match head.hash
    case None => base == Base(cfg)
    case Some(hash) => hash in t.blocks && !t.blocks[hash].orphan && first in w.tree && w.tree[first].prev == hash
  }

  lemma AnsweredHash(w: World, s: Script, h: int)
    requires ValidScript(w, s) && BlockHashAnswer(s, h).Ok?
    ensures BlockHashAnswer(s, h).value in w.tree && w.tree[BlockHashAnswer(s, h).value].height == h
  {
    assert ValidMoment(w, s[0]);
  }

  lemma FirstHeights(cfg: Config, head: Head)
    ensures FirstHeight(cfg, head) > head.height
    ensures head.height + 1 >= Base(cfg) ==> FirstHeight(cfg, head) == head.height + 1
    ensures -1 <= head.height && head.height + 1 <= Base(cfg) ==> FirstHeight(cfg, head) == Base(cfg)
  {
  }

  /** The matched row's place in the chain, plus one: the part of the chain that stays. */
  function Common(base: nat, head: Head): int
  {
    if head.hash.None? then 0 else head.height + 1 - base
  }

  /** A round that stores nothing keeps a chain, whatever happens in it. */
  lemma IdleRoundKeepsChain(w: World, cfg: Config, t: Tables, base: nat, chain: seq<Hash>, kept: nat, s: Script)
    requires ValidWorld(w) && ValidScript(w, s) && Holds(w, t, base, chain, kept)
    requires SyncBlocksSpec(w, cfg, t, s).stored == []
    ensures HasChain(w, SyncBlocksSpec(w, cfg, t, s).t, base)
  {
    hide Holds, GetSyncedHeadSpec, StoreBlockSpec, ValidWorld, ValidScript, BlockHashAnswer;
    HeadKeepsChain(w, t, base, chain, kept, s);
    HeadScript(w, t, base, chain, kept, s);
    var head := GetSyncedHeadSpec(t, s);
    IdleRound(w, cfg, t, s);
    if head.result.Err? {
      var kept1: nat :| kept1 <= kept && Holds(w, head.t, base, chain, kept1);
    } else if head.result.value.hash.Some? {
      SettledHolds(w, head.t, base, chain[..Min(kept, Common(base, head.result.value))]);
    }
  }

  lemma SettledHolds(w: World, t: Tables, base: nat, chain: seq<Hash>)
    requires Settled(w, t, base, chain)
    ensures HasChain(w, t, base)
  {
    assert Holds(w, t, base, chain, |chain|);
  }

  lemma IdleRound(w: World, cfg: Config, t: Tables, s: Script)
    requires SyncBlocksSpec(w, cfg, t, s).stored == []
    ensures SyncBlocksSpec(w, cfg, t, s).t == GetSyncedHeadSpec(t, s).t
  {
    hide GetSyncedHeadSpec, Walk, BlockHashAnswer;
    var head := GetSyncedHeadSpec(t, s);
    if head.result.Ok? {
      var first := BlockHashAnswer(head.s, FirstHeight(cfg, head.result.value));
      if first.Ok? {
        WalkIdle(w, cfg, head.t, first.value, Rest(head.s));
      }
    }
  }

  lemma WalkIdle(w: World, cfg: Config, t: Tables, first: Hash, s: Script)
    requires Walk(w, cfg, t, Some(first), s).stored == []
    ensures Walk(w, cfg, t, Some(first), s).t == t
  {
    hide StoreBlockSpec;
    var answer := BlockAnswer(w, s, first);
    if answer.Ok? && StoreBlockSpec(w, cfg, t, answer.value, Rest(s)).result.Ok? {
      assert false;
    }
  }

  lemma HeadScript(w: World, t: Tables, base: nat, chain: seq<Hash>, kept: nat, s: Script)
    requires ValidWorld(w) && ValidScript(w, s) && Holds(w, t, base, chain, kept)
    ensures ValidScript(w, GetSyncedHeadSpec(t, s).s)
  {
    HeadOutcomes(w, t, base, chain, kept, s);
  }

  /** What a round that stored a block did after finding its head. */
  lemma RoundWalk(w: World, cfg: Config, t: Tables, s: Script)
    requires SyncBlocksSpec(w, cfg, t, s).stored != [] && ValidScript(w, GetSyncedHeadSpec(t, s).s)
    ensures GetSyncedHeadSpec(t, s).result.Ok?
    ensures var out, head := SyncBlocksSpec(w, cfg, t, s), GetSyncedHeadSpec(t, s);
      var h := FirstHeight(cfg, head.result.value);
      && StoredFrom(w, head.t, Some(out.stored[0]), out)
      && out.stored[0] in w.tree && w.tree[out.stored[0]].height == h
      && BlockHashAnswer(head.s, h) == Ok(out.stored[0])
      && out == Walk(w, cfg, head.t, Some(out.stored[0]), Rest(head.s))
  {
    hide GetSyncedHeadSpec, Walk, BlockHashAnswer, ValidScript;
    var head := GetSyncedHeadSpec(t, s);
    var h := FirstHeight(cfg, head.result.value);
    var first := BlockHashAnswer(head.s, h);
    AnsweredHash(w, head.s, h);
    RestValid(w, head.s);
    WalkStores(w, cfg, head.t, Some(first.value), Rest(head.s));
  }

  /** A linked first block continues the chain where the head ends. */
  lemma LinkedExtends(w: World, cfg: Config, t: Tables, base: nat, chain: seq<Hash>, head: Head, first: Hash)
    requires ValidWorld(w) && Path(w, base, chain) && Linked(w, cfg, t, base, head, first)
    requires first in w.tree && w.tree[first].height == FirstHeight(cfg, head)
    requires head.hash.None? ==> head.height == -1 && chain == []
    requires head.hash.Some? ==> chain != [] && |chain| == Common(base, head) && chain[|chain| - 1] == head.hash.value
    ensures Extends(w, base, chain, first)
  {
  }

  /** A round whose first block is linked leaves the common part of the chain followed by the blocks it stored. */
  lemma LinkedRoundExtends(w: World, cfg: Config, t: Tables, base: nat, chain: seq<Hash>, kept: nat, s: Script)
    requires ValidWorld(w) && ValidScript(w, s) && Holds(w, t, base, chain, kept)
    requires SyncBlocksSpec(w, cfg, t, s).stored != [] && GetSyncedHeadSpec(t, s).result.Ok?
    requires Linked(w, cfg, t, base, GetSyncedHeadSpec(t, s).result.value, SyncBlocksSpec(w, cfg, t, s).stored[0])
    ensures 0 <= Common(base, GetSyncedHeadSpec(t, s).result.value) <= |chain|
    ensures var out := SyncBlocksSpec(w, cfg, t, s);
      Settled(w, out.t, base, chain[..Common(base, GetSyncedHeadSpec(t, s).result.value)] + out.stored)
  {
    hide GetSyncedHeadSpec, SyncBlocksSpec, Walk, BlockHashAnswer, Holds, ValidWorld, ValidScript, StoredFrom, Linked;
    HeadKeepsChain(w, t, base, chain, kept, s);
    HeadScript(w, t, base, chain, kept, s);
    RoundWalk(w, cfg, t, s);
    var head := GetSyncedHeadSpec(t, s);
    var first := SyncBlocksSpec(w, cfg, t, s).stored[0];
    var n := Common(base, head.result.value);
    if head.result.value.hash.Some? {
      UnflaggedKept(w, cfg, t, base, chain, kept, head.result.value, first);
    } else {
      assert chain[..0] == chain && kept == 0 by { HoldsSize(w, t, base, chain, kept); }
    }
    assert Settled(w, head.t, base, chain[..n]) by {
      if head.result.value.hash.None? {
        EmptySettled(w, t, base, kept);
      }
    }
    SettledPath(w, head.t, base, chain[..n]);
    LinkedExtends(w, cfg, t, base, chain[..n], head.result.value, first);
    RestValid(w, head.s);
    WalkExtends(w, cfg, head.t, base, chain[..n], Some(first), Rest(head.s));
  }

  lemma EmptySettled(w: World, t: Tables, base: nat, kept: nat)
    requires Holds(w, t, base, [], kept)
    ensures Settled(w, t, base, [])
  {
  }

  lemma SettledPath(w: World, t: Tables, base: nat, chain: seq<Hash>)
    requires Settled(w, t, base, chain)
    ensures Path(w, base, chain)
  {
  }

  /** A matched row that is not flagged lies in the part of the chain that no orphan update is pending on. */
  lemma UnflaggedKept(
    w: World, cfg: Config, t: Tables, base: nat, chain: seq<Hash>, kept: nat, head: Head, first: Hash)
    requires Holds(w, t, base, chain, kept) && Linked(w, cfg, t, base, head, first)
    requires head.hash.Some? && 0 <= head.height - base < |chain| && head.hash.value == chain[head.height - base]
    ensures Common(base, head) <= kept
  {
    var i := head.height - base;
    assert t.blocks[chain[i]] == BlockRow(base + i, i >= kept);
  }

  /** A round whose first block is not linked leaves no chain: its parent's height holds another row, or none. */
  lemma UnlinkedRoundBreaks(w: World, cfg: Config, t: Tables, base: nat, chain: seq<Hash>, kept: nat, s: Script)
    requires ValidWorld(w) && ValidScript(w, s) && Holds(w, t, base, chain, kept)
    requires SyncBlocksSpec(w, cfg, t, s).stored != [] && GetSyncedHeadSpec(t, s).result.Ok?
    requires !Linked(w, cfg, t, base, GetSyncedHeadSpec(t, s).result.value, SyncBlocksSpec(w, cfg, t, s).stored[0])
    ensures !HasChain(w, SyncBlocksSpec(w, cfg, t, s).t, base)
  {
    hide GetSyncedHeadSpec, SyncBlocksSpec, Walk, BlockHashAnswer, Holds, ValidWorld, ValidScript, StoredFrom,
      HasChain;
    HeadKeepsChain(w, t, base, chain, kept, s);
    HeadScript(w, t, base, chain, kept, s);
    RoundWalk(w, cfg, t, s);
    var head := GetSyncedHeadSpec(t, s);
    var out := SyncBlocksSpec(w, cfg, t, s);
    FirstHeights(cfg, head.result.value);
    match head.result.value.hash {
      case None =>
        NoBaseRow(w, head.t, base, kept, out);
      case Some(hash) =>
        var k := head.result.value.height;
        MatchedFlag(w, t, base, chain, kept, k);
        NoParentRow(w, head.t, base, chain, kept, k, out);
    }
  }

  lemma MatchedFlag(w: World, t: Tables, base: nat, chain: seq<Hash>, kept: nat, k: int)
    requires Holds(w, t, base, chain, kept) && base <= k < base + |chain|
    ensures chain[k - base] in t.blocks && t.blocks[chain[k - base]] == BlockRow(k, k - base >= kept)
  {
  }

  /** Blocks stored from another height than the base on do not start a chain there. */
  lemma NoBaseRow(w: World, t: Tables, base: nat, kept: nat, out: WalkOut)
    requires Holds(w, t, base, [], kept) && out.stored != [] && StoredFrom(w, t, Some(out.stored[0]), out)
    requires w.tree[out.stored[0]].height != base
    ensures !HasChain(w, out.t, base)
  {
    forall c, n | Holds(w, out.t, base, c, n) ensures false {
      BaseRow(w, out.t, base, c, n, out.stored[0]);
    }
  }

  /** A chain with any row has one at its base height. */
  lemma BaseRow(w: World, t: Tables, base: nat, chain: seq<Hash>, kept: nat, b: Hash)
    requires Holds(w, t, base, chain, kept) && b in t.blocks && t.blocks[b].height >= 0
    ensures t.blocks[b].height >= base && chain != [] && chain[0] in t.blocks && t.blocks[chain[0]].height == base
  {
    assert OnChain(t, base, chain, b);
  }

  /** In a chain, a row above the base height has its parent's row just below it. */
  lemma ParentRow(w: World, t: Tables, base: nat, chain: seq<Hash>, kept: nat, b: Hash)
    requires Holds(w, t, base, chain, kept) && b in w.tree && b in t.blocks && t.blocks[b].height > base
    ensures w.tree[b].prev in t.blocks && t.blocks[w.tree[b].prev].height == t.blocks[b].height - 1
  {
    assert OnChain(t, base, chain, b);
    var i := t.blocks[b].height - base;
    assert chain[i] == b && w.tree[chain[i]].prev == chain[i - 1];
    assert t.blocks[chain[i - 1]].height == base + i - 1;
  }

  /** The rows above the matched row are gone; the matched row is, too, if it was flagged. */
  lemma MatchedRow(w: World, u: Tables, base: nat, chain: seq<Hash>, kept: nat, k: int, p: Hash)
    requires base <= k < base + |chain| && Settled(w, u, base, chain[..Min(kept, k + 1 - base)])
    requires p in u.blocks && u.blocks[p].height >= k
    ensures u.blocks[p].height == k && k - base < kept && p == chain[k - base]
  {
    assert OnChain(u, base, chain[..Min(kept, k + 1 - base)], p);
  }

  lemma NoParentRow(w: World, u: Tables, base: nat, chain: seq<Hash>, kept: nat, k: int, out: WalkOut)
    requires ValidWorld(w) && base <= k < base + |chain|
    requires Settled(w, u, base, chain[..Min(kept, k + 1 - base)])
    requires out.stored != [] && StoredFrom(w, u, Some(out.stored[0]), out) && w.tree[out.stored[0]].height > k
    requires k - base >= kept || w.tree[out.stored[0]].prev != chain[k - base]
    ensures !HasChain(w, out.t, base)
  {
    hide Settled, Holds;
    var first := out.stored[0];
    var p := w.tree[first].prev;
    assert p in w.tree && w.tree[p].height == w.tree[first].height - 1;
    hide ValidWorld;
    forall c, n | Holds(w, out.t, base, c, n) ensures false {
      ParentRow(w, out.t, base, c, n, first);
      assert p !in out.stored;
      MatchedRow(w, u, base, chain, kept, k, p);
    }
  }

  /**
   * From any reachable state and against any behaviour of the node, a round keeps a parent-linked chain
   * if and only if it stores nothing or the first block it stores is linked. The base need not be the fast-sync height.
   */
  lemma RoundKeepsChainIff(w: World, cfg: Config, t: Tables, base: nat, s: Script)
    requires ValidWorld(w) && ValidScript(w, s) && HasChain(w, t, base)
    ensures var out := SyncBlocksSpec(w, cfg, t, s);
      HasChain(w, out.t, base) <==>
        (out.stored == [] || Linked(w, cfg, t, base, GetSyncedHeadSpec(t, s).result.value, out.stored[0]))
  {
    hide Holds, GetSyncedHeadSpec, Walk, Linked;
    var chain, kept :| Holds(w, t, base, chain, kept);
    var out := SyncBlocksSpec(w, cfg, t, s);
    if out.stored == [] {
      IdleRoundKeepsChain(w, cfg, t, base, chain, kept, s);
    } else if Linked(w, cfg, t, base, GetSyncedHeadSpec(t, s).result.value, out.stored[0]) {
      LinkedRoundExtends(w, cfg, t, base, chain, kept, s);
      SettledHolds(w, out.t, base, chain[..Common(base, GetSyncedHeadSpec(t, s).result.value)] + out.stored);
    } else {
      UnlinkedRoundBreaks(w, cfg, t, base, chain, kept, s);
    }
  }

  /**
   * On a chain from below the fast-sync height, as a backfill leaves it, a round that matches a row further down than
   * just below that height and then stores a block always breaks the chain: it starts at the fast-sync height.
   */
  lemma ReorgBelowFastSyncBreaks(w: World, cfg: Config, t: Tables, base: nat, s: Script)
    requires ValidWorld(w) && ValidScript(w, s) && HasChain(w, t, base) && SyncBlocksSpec(w, cfg, t, s).stored != []
    requires GetSyncedHeadSpec(t, s).result.Ok? && 0 <= GetSyncedHeadSpec(t, s).result.value.height < Base(cfg) - 1
    ensures !HasChain(w, SyncBlocksSpec(w, cfg, t, s).t, base)
  {
    hide Holds, GetSyncedHeadSpec, SyncBlocksSpec, Walk, ValidScript;
    var chain, kept :| Holds(w, t, base, chain, kept);
    HeadKeepsChain(w, t, base, chain, kept, s);
    HeadScript(w, t, base, chain, kept, s);
    RoundWalk(w, cfg, t, s);
    HoldsPath(w, t, base, chain, kept);
    RoundKeepsChainIff(w, cfg, t, base, s);
  }
}
