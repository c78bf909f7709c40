/** What the rows of a stored block say, column by column, and what every listing of it shows. */
module Contents {
  import opened Node
  import opened Schema
  import opened Batch
  import opened Spaces
  import opened Store
  import opened Ledger
  import opened Accounts
  import opened Rows
  import opened Views
  import opened Histories

  // ---- Transactions --------------------------------------------------------------------

  /** The rows under the block are its transactions, each with its own columns and its place as index. */
  ghost predicate BlockShown(t: Tables, b: Hash, txs: seq<Transaction>)
  {
    && (forall i | 0 <= i < |txs| ::
          var key := TxKey(b, txs[i].txid);
          key in t.transactions && Shows(t.transactions[key], txs[i]) && t.transactions[key].index == i)
    && (forall k | k in t.transactions && k.block == b :: exists i :: 0 <= i < |txs| && txs[i].txid == k.txid)
  }

  lemma RowsShown(t: Tables, b: Hash, txs: seq<Transaction>)
    requires HasRows(t, b, txs) && |txs| <= 0x8000_0000
    ensures BlockShown(t, b, txs)
  {
    hide RowOf, Shows;
    forall i | 0 <= i < |txs|
      ensures var key := TxKey(b, txs[i].txid);
        key in t.transactions && Shows(t.transactions[key], txs[i]) && t.transactions[key].index == i
    {
      PlaceShown(txs[i], i);
    }
  }

  lemma PlaceShown(tx: Transaction, i: nat)
    requires i < 0x8000_0000
    ensures Shows(RowOf(tx, i), tx) && RowOf(tx, i).index == i
  {
    RowOfShows(tx, i);
    Low32Exact(RowOf(tx, i).index, i);
  }

  // ---- Spaces rows ---------------------------------------------------------------------

  /** What one commit of the block adds: from the activation height on the rows of all its meta, below it nothing. */
  ghost predicate MetaListing(w: World, cfg: Config, b: Hash, rows: seq<VMetaOut>)
    requires b in w.tree
  {
    if w.tree[b].height >= cfg.activation then Lists(rows, b, w.tree[b].meta) else rows == []
  }

  lemma MetaOfLists(w: World, cfg: Config, t: Tables, b: Hash)
    requires b in w.tree && HasRows(t, b, w.tree[b].txs) && Storable(w, cfg, b)
    ensures MetaListing(w, cfg, b, MetaOf(w, cfg, b))
  {
    hide HasRows, Lists, BlockMetaRows, Distinct, MetaFits;
    if w.tree[b].height >= cfg.activation {
      MetaInsertable(w, t, b);
      BlockRowsListed(b, w.tree[b].meta);
    }
  }

  // ---- One commit ----------------------------------------------------------------------

  /**
   * A committed StoreBlock leaves the block's transactions, and appends from the activation height on the rows of all
   * transactions of its meta, in order.
   */
  lemma StoredBlockShown(w: World, cfg: Config, t: Tables, b: Block, s: Script)
    requires ValidWorld(w) && Valid(t) && Conserved(w, t) && FromTree(w, b)
    requires StoreBlockSpec(w, cfg, t, b, s).result.Ok?
    ensures var u := StoreBlockSpec(w, cfg, t, b, s).t;
      var n := |t.vmetaouts|;
      && BlockShown(u, b.hash, b.txs)
      && n <= |u.vmetaouts| && u.vmetaouts[..n] == t.vmetaouts && MetaListing(w, cfg, b.hash, u.vmetaouts[n..])
  {
    hide StoreBlockSpec, Valid, HasRows, CanUpsert, Storable, MetaOf, BlockShown, MetaListing, SameElsewhere;
    StoreBlockExactly(w, cfg, t, b, s);
    var u := StoreBlockSpec(w, cfg, t, b, s).t;
    assert b.hash in u.blocks && b.hash != DEADBEEF;
    assert HasRows(u, b.hash, b.txs);
    assert |b.txs| <= 0x8000_0000;
    RowsShown(u, b.hash, b.txs);
    MetaOfLists(w, cfg, u, b.hash);
    assert u.vmetaouts[|t.vmetaouts|..] == MetaOf(w, cfg, b.hash);
  }

  // ---- Every history -------------------------------------------------------------------

  /** The block's transactions are shown, and its spaces rows are one listing per commit. */
  ghost predicate ShownTimes(w: World, cfg: Config, t: Tables, b: Hash, n: nat)
  {
    && b in w.tree && BlockShown(t, b, w.tree[b].txs)
    && exists rows :: MetaListing(w, cfg, b, rows) && OfBlock(t.vmetaouts, b) == Repeat(rows, n)
  }

  lemma BalancedShown(w: World, cfg: Config, t: Tables, commits: multiset<Hash>, b: Hash)
    requires ValidWorld(w) && Balanced(w, cfg, t, commits) && b in t.blocks && b != DEADBEEF
    ensures ShownTimes(w, cfg, t, b, commits[b])
  {
    hide Valid, HasRows, Storable, MetaOf, BlockShown, MetaListing, OfBlock, Repeat;
    RowsShown(t, b, w.tree[b].txs);
    MetaOfLists(w, cfg, t, b);
    assert OfBlock(t.vmetaouts, b) == Repeat(MetaOf(w, cfg, b), commits[b]);
  }

  /**
   * From the migrated database, however service and backfill alternate: every block ever committed is stored with
   * exactly its transactions, every column theirs, and one listing of its spaces rows for each commit.
   */
  lemma EveryHistoryShows(w: World, cfg: Config, phases: seq<Phase>)
    requires ValidWorld(w) && ValidPhases(w, phases)
    ensures var out := History(w, cfg, Migrated(), phases);
      forall b | b != DEADBEEF ::
        (b in out.t.blocks <==> b in out.commits)
        && (b in out.commits ==> ShownTimes(w, cfg, out.t, b, out.commits[b]))
  {
    EveryHistoryIsBalanced(w, cfg, phases);
    var out := History(w, cfg, Migrated(), phases);
    hide History, ValidPhases, Valid, Conserved, ShownTimes, OwnHeights, ValidWorld, Storable, MetaOf, OfBlock, Repeat;
    forall b | b != DEADBEEF
      ensures b in out.t.blocks <==> b in out.commits
      ensures b in out.commits ==> ShownTimes(w, cfg, out.t, b, out.commits[b])
    {
      if b in out.t.blocks {
        BalancedShown(w, cfg, out.t, out.commits, b);
      }
    }
  }

  // ---- Listings ------------------------------------------------------------------------

  /** Every listing at a height shows the transactions of its block, in block order and each with its own columns. */
  lemma ListingShows(w: World, t: Tables, h: nat, rows: seq<NewTx>)
    requires ValidWorld(w) && OwnHeights(w, t) && Valid(t) && Conserved(w, t)
    requires IsListing(t, h, rows) && RowAt(t.blocks, h).Some?
    ensures RowAt(t.blocks, h).value in w.tree
    ensures var b := RowAt(t.blocks, h).value;
      var txs := w.tree[b].txs;
      && |rows| == |txs|
      && forall i | 0 <= i < |txs| ::
        rows[i].key == TxKey(b, txs[i].txid) && Shows(rows[i].row, txs[i]) && rows[i].row.index == i
  {
    hide IsListing, Valid, Conserved, OwnHeights, RowAt, Shows, RowOf;
    ListingIff(w, t, h, rows);
    RowInTree(w, t, h);
    var txs := w.tree[RowAt(t.blocks, h).value].txs;
    assert |txs| <= 0x8000_0000;
    forall i | 0 <= i < |txs| ensures Shows(RowOf(txs[i], i), txs[i]) && RowOf(txs[i], i).index == i {
      PlaceShown(txs[i], i);
    }
  }
}
