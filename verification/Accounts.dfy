/** Spaces rows over whole rounds: each commit of a block adds its rows once more. */
module Accounts {
  import opened Outcomes
  import opened Node
  import opened Schema
  import opened Spaces
  import opened Store
  import opened Sync
  import opened Chain
  import opened Ledger

  /** The rows stored under a block, in the order of their identifiers. */
  function OfBlock(vs: seq<VMetaOut>, b: Hash): seq<VMetaOut>
  {
    if vs == [] then []
    else OfBlock(vs[..|vs| - 1], b) + (if vs[|vs| - 1].key.block == b then [vs[|vs| - 1]] else [])
  }

  lemma {:induction false} OfBlockConcat(a: seq<VMetaOut>, c: seq<VMetaOut>, b: Hash)
    ensures OfBlock(a + c, b) == OfBlock(a, b) + OfBlock(c, b)
    decreases |c|
  {
    if c == [] {
      assert a + c == a;
    } else {
      var n := |c| - 1;
      assert (a + c)[..|a + c| - 1] == a + c[..n];
      OfBlockConcat(a, c[..n], b);
    }
  }

  lemma {:induction false} OfBlockUniform(vs: seq<VMetaOut>, home: Hash, b: Hash)
    requires forall i | 0 <= i < |vs| :: vs[i].key.block == home
    ensures OfBlock(vs, b) == if b == home then vs else []
  {
    if vs != [] {
      OfBlockUniform(vs[..|vs| - 1], home, b);
      assert vs == vs[..|vs| - 1] + [vs[|vs| - 1]];
    }
  }

  function Repeat(vs: seq<VMetaOut>, n: nat): seq<VMetaOut>
  {
    if n == 0 then [] else Repeat(vs, n - 1) + vs
  }

  /**
   * A real block's spaces rows are the rows of its meta, once for each time the block was committed; the blocks stored
   * are exactly those ever committed, and all their rows could be computed and stored.
   */
  ghost predicate Accounted(w: World, cfg: Config, t: Tables, commits: multiset<Hash>)
  {
    && (forall b | b in w.tree :: OfBlock(t.vmetaouts, b) == Repeat(MetaOf(w, cfg, b), commits[b]))
    && (forall b | b in t.blocks && b != DEADBEEF :: commits[b] > 0)
    && (forall b | b in commits :: b in t.blocks)
    && (forall b | b in t.blocks && b != DEADBEEF :: b in w.tree && Storable(w, cfg, b))
  }

  ghost predicate Balanced(w: World, cfg: Config, t: Tables, commits: multiset<Hash>)
  {
    Valid(t) && Conserved(w, t) && Accounted(w, cfg, t, commits)
  }

  lemma MetaOfUniform(w: World, cfg: Config, b: Hash)
    requires b in w.tree
    ensures forall i | 0 <= i < |MetaOf(w, cfg, b)| :: MetaOf(w, cfg, b)[i].key.block == b
  {
    BlockMetaKeys(b, w.tree[b].meta);
    hide BlockMetaRows;
  }

  lemma AccountedStore(w: World, cfg: Config, t: Tables, commits: multiset<Hash>, b: Hash, height: int, u: Tables)
    requires Accounted(w, cfg, t, commits) && b in w.tree && Storable(w, cfg, b)
    requires u.blocks == t.blocks[b := BlockRow(height, false)] && u.vmetaouts == t.vmetaouts + MetaOf(w, cfg, b)
    ensures Accounted(w, cfg, u, commits + multiset{b})
  {
    hide MetaOf, OfBlock;
    MetaOfUniform(w, cfg, b);
    forall c | c in w.tree ensures OfBlock(u.vmetaouts, c) == Repeat(MetaOf(w, cfg, c), (commits + multiset{b})[c]) {
      OfBlockConcat(t.vmetaouts, MetaOf(w, cfg, b), c);
      OfBlockUniform(MetaOf(w, cfg, b), b, c);
      assert OfBlock(t.vmetaouts, c) + [] == OfBlock(t.vmetaouts, c);
    }
  }

  lemma BalancedStore(w: World, cfg: Config, t: Tables, commits: multiset<Hash>, b: Block, s: Script)
    requires ValidWorld(w) && Balanced(w, cfg, t, commits) && FromTree(w, b)
    requires StoreBlockSpec(w, cfg, t, b, s).result.Ok?
    ensures Balanced(w, cfg, StoreBlockSpec(w, cfg, t, b, s).t, commits + multiset{b.hash})
  {
    hide StoreBlockSpec, Valid, Conserved, Accounted, CanUpsert, Storable, MetaOf;
    StoreBlockExactly(w, cfg, t, b, s);
    AccountedStore(w, cfg, t, commits, b.hash, b.height, StoreBlockSpec(w, cfg, t, b, s).t);
  }

  lemma {:induction false} BalancedWalk(w: World, cfg: Config, t: Tables, commits: multiset<Hash>, next: Option<Hash>,
    s: Script)
    requires ValidWorld(w) && ValidScript(w, s) && Balanced(w, cfg, t, commits)
    ensures var out := Walk(w, cfg, t, next, s);
      ValidScript(w, out.s) && Balanced(w, cfg, out.t, commits + multiset(out.stored))
    decreases |s|
  {
    hide Balanced, StoreBlockSpec, ValidScript, ValidWorld;
    RestValid(w, s);
    assert commits + multiset([]) == commits;
    if next.Some? {
      var answer := BlockAnswer(w, s, next.value);
      if answer.Ok? {
        var b := answer.value;
        NextIsChild(w, s, next.value);
        StoreScript(w, cfg, t, b, Rest(s));
        var out := StoreBlockSpec(w, cfg, t, b, Rest(s));
        if out.result.Ok? {
          BalancedStore(w, cfg, t, commits, b, Rest(s));
          BalancedWalk(w, cfg, out.t, commits + multiset{b.hash}, b.next, out.s);
          var rest := Walk(w, cfg, out.t, b.next, out.s);
          assert multiset([b.hash] + rest.stored) == multiset{b.hash} + multiset(rest.stored);
          assert commits + multiset{b.hash} + multiset(rest.stored) == commits + multiset([b.hash] + rest.stored);
        }
      }
    }
  }

  /** GetSyncedHead runs none, the first or both of the orphan updates, on any tables. */
  ghost predicate OnlyOrphans(t: Tables, u: Tables)
  {
    u == t || exists h: nat :: u == Flagged(t, h) || u == Buried(Flagged(t, h))
  }

  lemma {:induction false} ScanOnlyOrphans(w: World, t: Tables, h: int, s: Script)
    requires ValidScript(w, s)
    ensures OnlyOrphans(t, Scan(t, h, s).t) && ValidScript(w, Scan(t, h, s).s)
    decreases h + 1
  {
    hide Flagged, Buried, ValidScript;
    RestValid(w, s);
    RestValid(w, Rest(s));
    RestValid(w, Rest(Rest(s)));
    RestValid(w, Rest(Rest(Rest(s))));
    if h >= 0 && Live(s) && RowAt(t.blocks, h).Some? {
      var answer := BlockHashAnswer(Rest(s), h);
      if answer.Ok? {
        if answer.value == RowAt(t.blocks, h).value {
          var out := Settle(t, h, answer.value, Rest(Rest(s)));
          assert out.t == t || out.t == Flagged(t, h) || out.t == Buried(Flagged(t, h));
        } else {
          ScanOnlyOrphans(w, t, h - 1, Rest(Rest(s)));
        }
      }
    }
  }

  lemma AccountedByRows(w: World, cfg: Config, t: Tables, commits: multiset<Hash>, u: Tables)
    requires Accounted(w, cfg, t, commits) && u.vmetaouts == t.vmetaouts && u.blocks.Keys == t.blocks.Keys
    ensures Accounted(w, cfg, u, commits)
  {
    hide OfBlock, MetaOf, Repeat;
    forall b | b in u.blocks && b != DEADBEEF ensures commits[b] > 0 {
      assert b in t.blocks.Keys;
    }
  }

  lemma OrphanFrame(t: Tables, h: int)
    ensures Flagged(t, h).transactions == Buried(t).transactions == t.transactions
    ensures Flagged(t, h).vmetaouts == Buried(t).vmetaouts == t.vmetaouts
    ensures Flagged(t, h).blocks.Keys == Buried(t).blocks.Keys == t.blocks.Keys
  {
  }

  lemma BalancedOrphans(w: World, cfg: Config, t: Tables, commits: multiset<Hash>, u: Tables)
    requires Balanced(w, cfg, t, commits) && OnlyOrphans(t, u)
    ensures Balanced(w, cfg, u, commits)
  {
    hide Valid, Conserved, Accounted, Flagged, Buried;
    if u != t {
      var h: nat :| u == Flagged(t, h) || u == Buried(Flagged(t, h));
      OrphaningKeepsValid(t, h);
      OrphaningKeepsValid(Flagged(t, h), h);
      OrphanFrame(t, h);
      OrphanFrame(Flagged(t, h), h);
      ConservedByRows(w, t, u);
      AccountedByRows(w, cfg, t, commits, u);
    }
  }

  /** A round of syncBlocks, wherever it stops, keeps every block's rows and accounts for each commit. */
  lemma BalancedRound(w: World, cfg: Config, t: Tables, commits: multiset<Hash>, s: Script)
    requires ValidWorld(w) && ValidScript(w, s) && Balanced(w, cfg, t, commits)
    ensures var out := SyncBlocksSpec(w, cfg, t, s);
      ValidScript(w, out.s) && Balanced(w, cfg, out.t, commits + multiset(out.stored))
  {
    hide Balanced, ValidScript, ValidWorld, Scan, Walk, BlockHashAnswer;
    RestValid(w, s);
    assert OnlyOrphans(t, t);
    if Live(s) {
      ScanOnlyOrphans(w, t, MaxHeight(t.blocks), Rest(s));
    }
    var head := GetSyncedHeadSpec(t, s);
    BalancedOrphans(w, cfg, t, commits, head.t);
    RestValid(w, head.s);
    assert commits + multiset([]) == commits;
    if head.result.Ok? {
      var first := BlockHashAnswer(head.s, FirstHeight(cfg, head.result.value));
      if first.Ok? {
        BalancedWalk(w, cfg, head.t, commits, Some(first.value), Rest(head.s));
      }
    }
  }
}
