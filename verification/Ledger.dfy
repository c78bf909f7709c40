/** What every committed block leaves in transactions and vmetaouts, and that nothing takes it away again. */
module Ledger {
  import opened Node
  import opened Schema
  import opened Batch
  import opened Spaces
  import opened Store

  // ---- Rows of one block ---------------------------------------------------------------

  ghost predicate Distinct(txs: seq<Transaction>)
  {
    forall i, j | 0 <= i < j < |txs| :: txs[i].txid != txs[j].txid
  }

  /** The rows under the block are the first n transactions, each once, with its place as index. */
  ghost predicate HasFirst(t: Tables, b: Hash, txs: seq<Transaction>, n: nat)
    requires n <= |txs|
  {
    && (forall i, j | 0 <= i < j < n :: txs[i].txid != txs[j].txid)
    && (forall i | 0 <= i < n ::
          TxKey(b, txs[i].txid) in t.transactions && t.transactions[TxKey(b, txs[i].txid)] == RowOf(txs[i], i))
    && (forall k | k in t.transactions && k.block == b :: exists i :: 0 <= i < n && txs[i].txid == k.txid)
  }

  ghost predicate HasRows(t: Tables, b: Hash, txs: seq<Transaction>)
  {
    HasFirst(t, b, txs, |txs|)
  }

  /** Rows of other blocks are the same in both. */
  ghost predicate SameElsewhere(t: Tables, u: Tables, b: Hash)
  {
    forall k: TxKey | k.block != b :: (k in t.transactions <==> k in u.transactions)
      && (k in t.transactions ==> u.transactions[k] == t.transactions[k])
  }

  lemma NextRowFree(t: Tables, b: Hash, txs: seq<Transaction>, n: nat)
    requires n < |txs| <= 0x8000_0000 && b in t.blocks && HasFirst(t, b, txs, n)
    ensures TxViolation(t, BatchOf(txs, b)[n]).None? <==> forall i | 0 <= i < n :: txs[i].txid != txs[n].txid
  {
    hide RowOf;
    var p := BatchOf(txs, b)[n];
    RowIndex(txs[n], n);
    forall k | k in t.transactions && k.block == b ensures t.transactions[k].index != p.row.index {
      var i :| 0 <= i < n && txs[i].txid == k.txid;
      RowIndex(txs[i], i);
    }
  }

  lemma RowIndex(tx: Transaction, i: nat)
    requires i < 0x8000_0000
    ensures RowOf(tx, i).index == i
  {
  }

  lemma NextRowInserted(t: Tables, b: Hash, txs: seq<Transaction>, n: nat)
    requires n < |txs| && HasFirst(t, b, txs, n)
    requires forall i | 0 <= i < n :: txs[i].txid != txs[n].txid
    ensures HasFirst(WithTx(t, BatchOf(txs, b)[n]), b, txs, n + 1)
    ensures SameElsewhere(t, WithTx(t, BatchOf(txs, b)[n]), b)
  {
    hide RowOf;
    var u := WithTx(t, BatchOf(txs, b)[n]);
    forall k | k in u.transactions && k.block == b ensures exists i :: 0 <= i < n + 1 && txs[i].txid == k.txid {
      if k in t.transactions {
        var i :| 0 <= i < n && txs[i].txid == k.txid;
      } else {
        assert txs[n].txid == k.txid;
      }
    }
  }

  /** Copying a block's batch succeeds if and only if its txids are distinct, and then stores exactly its rows. */
  lemma {:induction false} CopyBatch(t: Tables, b: Hash, txs: seq<Transaction>, n: nat)
    requires n <= |txs| <= 0x8000_0000 && b in t.blocks && HasFirst(t, b, txs, n)
    ensures var out := CopyRows(t, BatchOf(txs, b)[n..]);
      && (out.violation.None? <==> Distinct(txs))
      && (out.violation.None? ==> HasRows(out.t, b, txs))
      && SameElsewhere(t, out.t, b)
      && (Valid(t) ==> Valid(out.t))
    decreases |txs| - n
  {
    hide HasFirst, RowOf, TxViolation;
    if n < |txs| {
      var p := BatchOf(txs, b)[n];
      NextRowFree(t, b, txs, n);
      if TxViolation(t, p).None? {
        NextRowInserted(t, b, txs, n);
        if Valid(t) { InsertKeepsValid(t, p); }
        CopyBatch(WithTx(t, p), b, txs, n + 1);
      }
    } else {
      FirstDistinct(t, b, txs);
    }
  }

  lemma FirstDistinct(t: Tables, b: Hash, txs: seq<Transaction>)
    requires HasRows(t, b, txs)
    ensures Distinct(txs)
  {
  }

  // ---- Conservation --------------------------------------------------------------------

  /** Every stored real block has exactly its transactions in the table. */
  ghost predicate Conserved(w: World, t: Tables)
  {
    forall b | b in t.blocks && b != DEADBEEF :: b in w.tree && HasRows(t, b, w.tree[b].txs)
  }

  lemma RowsElsewhere(t: Tables, u: Tables, b: Hash, c: Hash, txs: seq<Transaction>)
    requires HasRows(t, c, txs) && SameElsewhere(t, u, b) && c != b
    ensures HasRows(u, c, txs)
  {
    hide RowOf;
  }

  lemma RowsSame(t: Tables, u: Tables, c: Hash, txs: seq<Transaction>)
    requires HasRows(t, c, txs) && u.transactions == t.transactions
    ensures HasRows(u, c, txs)
  {
    hide RowOf;
  }

  /** Statements on blocks alone keep every row. */
  lemma ConservedByRows(w: World, t: Tables, u: Tables)
    requires Conserved(w, t) && u.transactions == t.transactions && u.blocks.Keys == t.blocks.Keys
    ensures Conserved(w, u)
  {
    hide HasRows;
    forall b | b in u.blocks && b != DEADBEEF ensures b in w.tree && HasRows(u, b, w.tree[b].txs) {
      assert b in t.blocks.Keys;
      RowsSame(t, u, b, w.tree[b].txs);
    }
  }

  lemma ConservedWithBlock(w: World, t: Tables, u: Tables, b: Hash)
    requires Conserved(w, t) && b in w.tree && u.blocks.Keys == t.blocks.Keys + {b}
    requires SameElsewhere(t, u, b) && HasRows(u, b, w.tree[b].txs)
    ensures Conserved(w, u)
  {
    hide HasRows, SameElsewhere;
    forall c | c in u.blocks && c != DEADBEEF ensures c in w.tree && HasRows(u, c, w.tree[c].txs) {
      if c != b {
        assert c in t.blocks.Keys;
        RowsElsewhere(t, u, b, c, w.tree[c].txs);
      }
    }
  }

  /** The block as the tree has it. */
  predicate FromTree(w: World, b: Block)
  {
    b.hash in w.tree && b.height == w.tree[b.hash].height && b.txs == w.tree[b.hash].txs
  }

  lemma NoRowsYet(t: Tables, b: Hash, height: int, txs: seq<Transaction>)
    requires Valid(t) && b !in t.blocks
    ensures HasFirst(Upserted(t, b, height), b, txs, 0)
  {
  }

  /** Upsert and batch succeed if and only if the height is free and a new block's txids are distinct. */
  lemma BitcoinBlockRows(w: World, t: Tables, b: Block)
    requires ValidWorld(w) && Valid(t) && Conserved(w, t) && FromTree(w, b)
    ensures var out := BitcoinBlockStored(t, b);
      && (out.violation.None? <==> CanUpsert(t, b.hash, b.height) && Distinct(b.txs))
      && (out.violation.None? ==>
            && Valid(out.t) && Conserved(w, out.t) && HasRows(out.t, b.hash, b.txs)
            && out.t.blocks == t.blocks[b.hash := BlockRow(b.height, false)]
            && out.t.vmetaouts == t.vmetaouts && out.t.nextIndex == t.nextIndex
            && SameElsewhere(t, out.t, b.hash))
  {
    hide HasFirst, Valid, Conserved, SameElsewhere, CanUpsert, CopyRows, Distinct;
    if CanUpsert(t, b.hash, b.height) {
      var u := Upserted(t, b.hash, b.height);
      UpsertKeepsValid(t, b.hash, b.height);
      if b.hash in t.blocks {
        StoredRowsSame(w, t, u, b);
      } else {
        NoRowsYet(t, b.hash, b.height, b.txs);
        CopyRowsFrame(u, BatchOf(b.txs, b.hash));
        assert BatchOf(b.txs, b.hash)[0..] == BatchOf(b.txs, b.hash);
        assert |b.txs| <= 0x8000_0000;
        CopyBatch(u, b.hash, b.txs, 0);
        var out := CopyRows(u, BatchOf(b.txs, b.hash));
        SameThroughUpsert(t, u, out.t, b.hash);
        if out.violation.None? {
          ConservedWithBlock(w, t, out.t, b.hash);
        }
      }
    }
  }

  lemma SameThroughUpsert(t: Tables, u: Tables, v: Tables, b: Hash)
    requires SameElsewhere(u, v, b) && u.transactions == t.transactions
    ensures SameElsewhere(t, v, b)
  {
  }

  lemma StoredRowsSame(w: World, t: Tables, u: Tables, b: Block)
    requires ValidWorld(w) && Conserved(w, t) && FromTree(w, b) && b.hash in t.blocks
    requires u == Upserted(t, b.hash, b.height)
    ensures Distinct(b.txs) && Conserved(w, u) && HasRows(u, b.hash, b.txs) && SameElsewhere(t, u, b.hash)
  {
    hide HasFirst;
    assert u.blocks.Keys == t.blocks.Keys;
    ConservedByRows(w, t, u);
    FirstDistinct(t, b.hash, b.txs);
  }

  // ---- When a block can be stored ------------------------------------------------------

  /** All types of the meta are recognized, the names fit, and what has rows is a transaction of the block. */
  ghost predicate MetaFits(w: World, b: Hash)
    requires b in w.tree
  {
    var ms := w.tree[b].meta;
    forall i | 0 <= i < |ms| :: Fits(ms[i]) && (RowCount(ms[i]) > 0 ==> HasTxid(w.tree[b].txs, ms[i].txid))
  }

  ghost predicate HasTxid(txs: seq<Transaction>, txid: Hash)
  {
    exists j :: 0 <= j < |txs| && txs[j].txid == txid
  }

  ghost predicate Storable(w: World, cfg: Config, b: Hash)
    requires b in w.tree
  {
    Distinct(w.tree[b].txs) && (w.tree[b].height >= cfg.activation ==> MetaFits(w, b))
  }

  lemma {:induction false} BlockMetaKeys(b: Hash, ms: seq<MetaTransaction>)
    ensures forall i | 0 <= i < |BlockMetaRows(b, ms)|
      && BlockMetaRows(b, ms)[i].Ok? :: BlockMetaRows(b, ms)[i].value.key.block == b
  {
    if ms != [] {
      MetaRowsExactly(b, ms[0]);
      BlockMetaKeys(b, ms[1..]);
      hide MetaRows;
      var first, rest := MetaRows(b, ms[0]), BlockMetaRows(b, ms[1..]);
      assert forall i | |first| <= i < |first + rest| :: (first + rest)[i] == rest[i - |first|];
    }
  }

  lemma MetaInsertable(w: World, t: Tables, b: Hash)
    requires b in w.tree && HasRows(t, b, w.tree[b].txs)
    ensures var rows := BlockMetaRows(b, w.tree[b].meta);
      AllComputed(rows) && AllInsertable(t, rows) <==> MetaFits(w, b)
  {
    hide RowOf, BlockMetaRows, HasRows, HasTxid, Fits, RowCount, AllComputed, AllInsertable;
    var ms := w.tree[b].meta;
    BlockGoesIn(t, b, ms);
    forall i | 0 <= i < |ms| ensures TxKey(b, ms[i].txid) in t.transactions <==> HasTxid(w.tree[b].txs, ms[i].txid) {
      KeyStored(t, b, w.tree[b].txs, TxKey(b, ms[i].txid));
    }
    assert MetaFits(w, b) <==> forall i | 0 <= i < |ms| :: GoesIn(t, b, ms[i]);
  }

  lemma KeyStored(t: Tables, b: Hash, txs: seq<Transaction>, key: TxKey)
    requires HasRows(t, b, txs) && key.block == b
    ensures key in t.transactions <==> HasTxid(txs, key.txid)
  {
    hide RowOf;
    assert key == TxKey(b, key.txid);
  }

  /** The rows a block's meta adds each time the block is stored. */
  ghost function MetaOf(w: World, cfg: Config, b: Hash): seq<VMetaOut>
    requires b in w.tree
  {
    var rows := BlockMetaRows(b, w.tree[b].meta);
    if w.tree[b].height >= cfg.activation && AllComputed(rows) then Values(rows) else []
  }

  /** What a committed StoreBlock leaves behind. */
  ghost predicate Committed(w: World, cfg: Config, t: Tables, b: Block, u: Tables)
    requires b.hash in w.tree
  {
    && Valid(u) && Conserved(w, u)
    && u.blocks == t.blocks[b.hash := BlockRow(b.height, false)]
    && u.vmetaouts == t.vmetaouts + MetaOf(w, cfg, b.hash)
    && SameElsewhere(t, u, b.hash)
    && u.nextIndex == t.nextIndex
  }

  /** The statements of StoreBlock succeed if and only if the height is free and the block storable. */
  lemma StoreStatements(w: World, cfg: Config, t: Tables, b: Block)
    requires ValidWorld(w) && Valid(t) && Conserved(w, t) && FromTree(w, b)
    ensures var out := BlockStored(w, cfg, t, b);
      && (out.violation.None? <==> CanUpsert(t, b.hash, b.height) && Storable(w, cfg, b.hash))
      && (out.violation.None? ==> Committed(w, cfg, t, b, out.t))
  {
    hide HasFirst, Valid, Conserved, SameElsewhere, CanUpsert, Distinct, BitcoinBlockStored, InsertRows,
      BlockMetaRows, AllComputed, AllInsertable, Values, MetaFits, ValidWorld;
    BitcoinBlockRows(w, t, b);
    var stored := BitcoinBlockStored(t, b);
    if stored.violation.None? {
      if b.height < cfg.activation {
        assert t.vmetaouts + [] == t.vmetaouts;
      } else {
        MetaInsertable(w, stored.t, b.hash);
        InsertRowsExactly(stored.t, BlockMetaRows(b.hash, w.tree[b.hash].meta));
        var out := InsertRows(stored.t, BlockMetaRows(b.hash, w.tree[b.hash].meta));
        ConservedByRows(w, stored.t, out.t);
        SameAfterMeta(t, stored.t, out.t, b.hash);
      }
    }
  }

  lemma SameAfterMeta(t: Tables, u: Tables, v: Tables, b: Hash)
    requires SameElsewhere(t, u, b) && v.transactions == u.transactions
    ensures SameElsewhere(t, v, b)
  {
  }

  /** StoreBlock is all or nothing: with the connection up it commits if and only if height and block allow it. */
  lemma StoreBlockExactly(w: World, cfg: Config, t: Tables, b: Block, s: Script)
    requires ValidWorld(w) && Valid(t) && Conserved(w, t) && FromTree(w, b)
    ensures var out := StoreBlockSpec(w, cfg, t, b, s);
      && (out.result.Ok? ==>
            CanUpsert(t, b.hash, b.height) && Storable(w, cfg, b.hash) && Committed(w, cfg, t, b, out.t))
      && (out.result.Err? ==> out.t == t)
      && (|s| >= 3 && (forall i | 0 <= i < 3 :: s[i].up) ==>
            (out.result.Ok? <==> CanUpsert(t, b.hash, b.height) && Storable(w, cfg, b.hash)) && |out.s| + 3 >= |s|)
  {
    hide HasFirst, Valid, Conserved, CanUpsert, Distinct, BitcoinBlockStored, Storable, Committed, ValidWorld;
    BitcoinBlockFirst(w, cfg, t, b);
    StoreStatements(w, cfg, t, b);
  }

  /** If all statements succeed, the first ones do. */
  lemma BitcoinBlockFirst(w: World, cfg: Config, t: Tables, b: Block)
    requires b.hash in w.tree
    ensures BlockStored(w, cfg, t, b).violation.None? ==> BitcoinBlockStored(t, b).violation.None?
  {
    hide BitcoinBlockStored;
  }
}
