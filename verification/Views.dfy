/** The per-height view of the transactions, and when it equals that of a database built from scratch. */
module Views {
  import opened Outcomes
  import opened Node
  import opened Schema
  import opened Batch
  import opened Store
  import opened Sync
  import opened Chain
  import opened Safety
  import opened ForkPoint
  import opened Ledger
  import opened Accounts
  import opened Rows
  import opened Rebuild

  predicate Matches(t: Tables, k: TxKey, h: int)
  {
    k in t.transactions && k.block in t.blocks && t.blocks[k.block].height == h
  }

  /**
   * rows is a result of GetTransactionsByBlockHeight at h, before LIMIT and OFFSET: the transactions joined to a block
   * of that height, each once, ordered by index.
   */
  ghost predicate IsListing(t: Tables, h: int, rows: seq<NewTx>)
  {
    && (forall i | 0 <= i < |rows| :: Matches(t, rows[i].key, h) && rows[i].row == t.transactions[rows[i].key])
    && (forall k | Matches(t, k, h) :: exists i :: 0 <= i < |rows| && rows[i].key == k)
    && (forall i, j | 0 <= i < j < |rows| :: rows[i].row.index <= rows[j].row.index && rows[i].key != rows[j].key)
  }

  /** A strictly increasing sequence onto 0..n-1 counts. */
  lemma {:induction false} IncreasingOnto(a: seq<int>, n: nat)
    requires forall i, j | 0 <= i < j < |a| :: a[i] < a[j]
    requires forall i | 0 <= i < |a| :: 0 <= a[i] < n
    requires forall v | 0 <= v < n :: v in a
    ensures |a| == n && forall i | 0 <= i < n :: a[i] == i
    decreases n
  {
    assert a == [] || 0 <= a[0] < n;
    if n > 0 {
      assert n - 1 in a;
      var last := |a| - 1;
      assert a[last] == n - 1;
      forall v | 0 <= v < n - 1 ensures v in a[..last] {
        assert v in a;
      }
      IncreasingOnto(a[..last], n - 1);
    }
  }

  /** The place of a row within its block. */
  lemma PlaceOf(t: Tables, b: Hash, txs: seq<Transaction>, k: TxKey) returns (i: nat)
    requires HasRows(t, b, txs) && |txs| <= 0x8000_0000 && k in t.transactions && k.block == b
    ensures i < |txs| && txs[i].txid == k.txid && t.transactions[k] == RowOf(txs[i], i) && t.transactions[k].index == i
  {
    hide RowOf;
    i :| 0 <= i < |txs| && txs[i].txid == k.txid;
    assert k == TxKey(b, txs[i].txid);
    RowIndex(txs[i], i);
  }

  lemma ListingOfRows(t: Tables, h: int, b: Hash, txs: seq<Transaction>, rows: seq<NewTx>)
    requires HasRows(t, b, txs) && |txs| <= 0x8000_0000 && IsListing(t, h, rows)
    requires forall k :: Matches(t, k, h) <==> k in t.transactions && k.block == b
    ensures rows == BatchOf(txs, b)
  {
    hide RowOf, Matches, HasFirst;
    var a := seq(|rows|, j requires 0 <= j < |rows| => rows[j].row.index);
    forall j | 0 <= j < |rows| ensures 0 <= a[j] < |txs| && rows[j] == BatchOf(txs, b)[a[j]] {
      var p := PlaceOf(t, b, txs, rows[j].key);
      assert rows[j].key == TxKey(b, txs[p].txid);
    }
    forall v | 0 <= v < |txs| ensures v in a {
      RowAtPlace(t, b, txs, v);
      var j :| 0 <= j < |rows| && rows[j].key == TxKey(b, txs[v].txid);
      assert a[j] == v;
    }
    forall i, j | 0 <= i < j < |rows| ensures a[i] < a[j] {
    }
    IncreasingOnto(a, |txs|);
    assert forall j | 0 <= j < |rows| :: rows[j] == BatchOf(txs, b)[j];
  }

  lemma RowAtPlace(t: Tables, b: Hash, txs: seq<Transaction>, v: nat)
    requires HasRows(t, b, txs) && v < |txs| <= 0x8000_0000
    ensures TxKey(b, txs[v].txid) in t.transactions && t.transactions[TxKey(b, txs[v].txid)].index == v
  {
    hide RowOf;
    RowIndex(txs[v], v);
  }

  // ---- The one listing of a height -----------------------------------------------------

  lemma OnlyBlockAt(t: Tables, h: nat, b: Hash, k: TxKey)
    requires UniqueHeights(t.blocks) && RowAt(t.blocks, h) == Some(b)
    ensures Matches(t, k, h) <==> k in t.transactions && k.block == b
  {
  }

  lemma RowInTree(w: World, t: Tables, h: nat)
    requires OwnHeights(w, t) && RowAt(t.blocks, h).Some?
    ensures RowAt(t.blocks, h).value in w.tree && RowAt(t.blocks, h).value != DEADBEEF
  {
  }

  /** The batch of the block at the height: its transactions in block order. */
  ghost function Listing(w: World, t: Tables, h: nat): seq<NewTx>
    requires OwnHeights(w, t)
  {
    RowInTreeIf(w, t, h);
    match RowAt(t.blocks, h)
    case None => []
    case Some(b) => BatchOf(w.tree[b].txs, b)
  }

  lemma RowInTreeIf(w: World, t: Tables, h: nat)
    requires OwnHeights(w, t)
    ensures RowAt(t.blocks, h).Some? ==> RowAt(t.blocks, h).value in w.tree
  {
    if RowAt(t.blocks, h).Some? {
      RowInTree(w, t, h);
    }
  }

  lemma BatchIsListing(t: Tables, h: nat, b: Hash, txs: seq<Transaction>)
    requires HasRows(t, b, txs) && |txs| <= 0x8000_0000
    requires forall k :: Matches(t, k, h) <==> k in t.transactions && k.block == b
    ensures IsListing(t, h, BatchOf(txs, b))
  {
    hide RowOf, Matches;
    var rows := BatchOf(txs, b);
    forall i, j | 0 <= i < j < |rows| ensures rows[i].row.index <= rows[j].row.index && rows[i].key != rows[j].key {
      RowIndex(txs[i], i);
      RowIndex(txs[j], j);
    }
    forall k | Matches(t, k, h) ensures exists i :: 0 <= i < |rows| && rows[i].key == k {
      var i :| 0 <= i < |txs| && txs[i].txid == k.txid;
      assert rows[i].key == k;
    }
  }

  lemma NothingListed(t: Tables, h: nat, rows: seq<NewTx>)
    requires RowAt(t.blocks, h).None?
    ensures IsListing(t, h, rows) <==> rows == []
  {
    forall k ensures !Matches(t, k, h) {
    }
    hide Matches;
    assert rows == [] || !Matches(t, rows[0].key, h);
  }

  /** A height has exactly one listing: its block's transactions in block order, or nothing. */
  lemma ListingIff(w: World, t: Tables, h: nat, rows: seq<NewTx>)
    requires ValidWorld(w) && OwnHeights(w, t) && Valid(t) && Conserved(w, t)
    ensures IsListing(t, h, rows) <==> rows == Listing(w, t, h)
  {
    hide RowAt, OwnHeights, HasRows, Matches, IsListing;
    match RowAt(t.blocks, h) {
      case None =>
        NothingListed(t, h, rows);
      case Some(b) =>
        RowInTree(w, t, h);
        RowIn(t, h);
        var txs := w.tree[b].txs;
        assert HasRows(t, b, txs) && |txs| <= 0x8000_0000;
        ValidHeights(t);
        hide Valid, ValidWorld, Conserved, UniqueHeights;
        forall k ensures Matches(t, k, h) <==> k in t.transactions && k.block == b {
          OnlyBlockAt(t, h, b, k);
        }
        BatchIsListing(t, h, b, txs);
        if IsListing(t, h, rows) {
          ListingOfRows(t, h, b, txs, rows);
        }
    }
  }

  lemma RowIn(t: Tables, h: nat)
    requires RowAt(t.blocks, h).Some?
    ensures RowAt(t.blocks, h).value in t.blocks
  {
  }

  // ---- Equal views ---------------------------------------------------------------------

  /** Both show the same transactions in the same order at every height. */
  ghost predicate SameView(t: Tables, u: Tables)
  {
    forall h: nat, rows, others | IsListing(t, h, rows) && IsListing(u, h, others) :: rows == others
  }

  /** Every block has a transaction, as a coinbase transaction ensures. */
  ghost predicate HasTransactions(w: World)
  {
    forall b | b in w.tree :: w.tree[b].txs != []
  }

  lemma SameListing(w: World, t: Tables, u: Tables, h: nat)
    requires OwnHeights(w, t) && OwnHeights(w, u)
    ensures RowAt(t.blocks, h) == RowAt(u.blocks, h) ==> Listing(w, t, h) == Listing(w, u, h)
    ensures HasTransactions(w) && Listing(w, t, h) == Listing(w, u, h) ==> RowAt(t.blocks, h) == RowAt(u.blocks, h)
  {
    hide RowAt, OwnHeights, RowOf;
    var a, b := RowAt(t.blocks, h), RowAt(u.blocks, h);
    RowInTreeIf(w, t, h);
    RowInTreeIf(w, u, h);
    if a.Some? {
      assert Listing(w, t, h) == [] || Listing(w, t, h)[0].key.block == a.value;
    }
    if b.Some? {
      assert Listing(w, u, h) == [] || Listing(w, u, h)[0].key.block == b.value;
    }
  }

  /** The views are equal if the rows at every height are; and only if, where no block is empty. */
  lemma SameViewIff(w: World, t: Tables, u: Tables)
    requires ValidWorld(w) && OwnHeights(w, t) && Valid(t) && Conserved(w, t)
    requires OwnHeights(w, u) && Valid(u) && Conserved(w, u)
    ensures (forall h: nat :: RowAt(t.blocks, h) == RowAt(u.blocks, h)) ==> SameView(t, u)
    ensures HasTransactions(w) && SameView(t, u) ==> forall h: nat :: RowAt(t.blocks, h) == RowAt(u.blocks, h)
  {
    hide ValidWorld, OwnHeights, Valid, Conserved, IsListing, Listing, RowAt, HasTransactions;
    forall h: nat, rows ensures IsListing(t, h, rows) <==> rows == Listing(w, t, h) {
      ListingIff(w, t, h, rows);
    }
    forall h: nat, rows ensures IsListing(u, h, rows) <==> rows == Listing(w, u, h) {
      ListingIff(w, u, h, rows);
    }
    forall h: nat
      ensures RowAt(t.blocks, h) == RowAt(u.blocks, h) ==> Listing(w, t, h) == Listing(w, u, h)
      ensures HasTransactions(w) && Listing(w, t, h) == Listing(w, u, h) ==> RowAt(t.blocks, h) == RowAt(u.blocks, h)
    {
      SameListing(w, t, u, h);
    }
    if SameView(t, u) {
      forall h: nat ensures Listing(w, t, h) == Listing(w, u, h) {
        assert IsListing(t, h, Listing(w, t, h)) && IsListing(u, h, Listing(w, u, h));
      }
    }
  }

  // ---- Incremental sync and rebuild ----------------------------------------------------

  lemma MigratedIsEmptyChain(w: World, cfg: Config)
    requires ValidWorld(w)
    ensures Settled(w, Migrated(), Base(cfg), []) && Balanced(w, cfg, Migrated(), multiset{})
  {
    assert Balanced(w, cfg, Migrated(), multiset{}) by { MigratedIsBalanced(w, cfg); }
    hide Balanced;
  }

  lemma MigratedIsBalanced(w: World, cfg: Config)
    requires ValidWorld(w)
    ensures Balanced(w, cfg, Migrated(), multiset{})
  {
    hide HasRows, MetaOf;
    forall b | b in w.tree ensures OfBlock(Migrated().vmetaouts, b) == Repeat(MetaOf(w, cfg, b), multiset{}[b]) {
    }
  }

  /** A database built from scratch holds the node's chain from the base height. */
  lemma FreshRound(w: World, cfg: Config, s: Script, active: seq<Hash>)
    requires ValidWorld(w) && ValidScript(w, s) && Steady(s, active) && SyncBlocksSpec(w, cfg, Migrated(), s).result.Ok?
    ensures var t := SyncBlocksSpec(w, cfg, Migrated(), s).t;
      && OwnHeights(w, t) && Valid(t) && Conserved(w, t)
      && forall j | j >= 0 :: RowAt(t.blocks, j) == Expected(active, Base(cfg), j)
  {
    MigratedIsEmptyChain(w, cfg);
    hide GetSyncedHeadSpec, SyncBlocksSpec, ValidScript, ValidWorld, Steady, Conserved, Accounted, RowsAfter, Path,
      RowAt, Holds, Migrated, Valid, OwnHeights, Unflagged;
    ChainOwnHeights(w, Migrated(), Base(cfg), [], 0);
    SteadyRoundRows(w, cfg, Migrated(), multiset{}, s, active);
    HeadKeepsChain(w, Migrated(), Base(cfg), [], 0, s);
    var t, head := SyncBlocksSpec(w, cfg, Migrated(), s).t, GetSyncedHeadSpec(Migrated(), s);
    FirstHeights(cfg, head.result.value);
    KeptNothing(head.t, Base(cfg), active, t);
  }

  lemma KeptNothing(u: Tables, first: nat, active: seq<Hash>, t: Tables)
    requires RowsAfter(u, -1, first, active, t)
    ensures forall j | j >= 0 :: RowAt(t.blocks, j) == Expected(active, first, j)
  {
    hide RowAt;
  }

  /**
   * From any tables whose rows sit at their heights: a completed round against an unchanging node shows at every
   * height what a database built from scratch shows after a completed round against the same node, if and only if the
   * rows that the head keeps are the node's from the base height on.
   */
  lemma IncrementalEqualsRebuildIff(
    w: World, cfg: Config, t: Tables, commits: multiset<Hash>, s: Script, s1: Script, active: seq<Hash>)
    requires ValidWorld(w) && ValidScript(w, s) && Steady(s, active) && ValidScript(w, s1) && Steady(s1, active)
    requires Balanced(w, cfg, t, commits) && OwnHeights(w, t)
    requires SyncBlocksSpec(w, cfg, t, s).result.Ok? && SyncBlocksSpec(w, cfg, Migrated(), s1).result.Ok?
    ensures GetSyncedHeadSpec(t, s).result.Ok?
    ensures var head := GetSyncedHeadSpec(t, s);
      var follows := KeptFollows(head.t, head.result.value.height, Base(cfg), active);
      var same := SameView(SyncBlocksSpec(w, cfg, t, s).t, SyncBlocksSpec(w, cfg, Migrated(), s1).t);
      (follows ==> same) && (HasTransactions(w) && same ==> follows)
  {
    hide GetSyncedHeadSpec, SyncBlocksSpec, ValidScript, ValidWorld, Steady, Conserved, Accounted, RowsAfter, Path,
      RowAt, Migrated, Valid, OwnHeights, Unflagged, KeptFollows, SameView, HasTransactions, NoneSkipped;
    SteadyRoundRows(w, cfg, t, commits, s, active);
    FreshRound(w, cfg, s1, active);
    var head := GetSyncedHeadSpec(t, s);
    var out, anew := SyncBlocksSpec(w, cfg, t, s).t, SyncBlocksSpec(w, cfg, Migrated(), s1).t;
    FirstHeights(cfg, head.result.value);
    RowsFollowIff(head.t, head.result.value.height, Base(cfg), FirstHeight(cfg, head.result.value), active, out);
    AtBaseNoneSkipped(cfg, head.result.value, active);
    SameViewIff(w, out, anew);
    assert (forall h: nat :: RowAt(out.blocks, h) == RowAt(anew.blocks, h)) <==>
      forall j | j >= 0 :: RowAt(out.blocks, j) == Expected(active, Base(cfg), j);
  }
}
