/** The tables blocks, transactions and vmetaouts, their constraints, and what each SQL statement does to them. */
module Schema {
  import opened Outcomes
  import opened Node

  datatype BlockRow = BlockRow(height: int, orphan: bool)

  datatype TxKey = TxKey(block: Hash, txid: Txid)

  datatype TxRow = TxRow(
    txHash: Hash, fee: int, index: int, inputCount: int, outputCount: int, totalOutputValue: int)

  /** The parameters of one inserted transaction. */
  datatype NewTx = NewTx(key: TxKey, row: TxRow)

  datatype Action = RESERVE | BID | TRANSFER | ROLLOUT | REVOKE | REJECT

  datatype VMetaOut = VMetaOut(
    key: TxKey, priority: Option<int>, name: Option<string>, reason: Option<string>, value: Option<int>,
    scriptPubKey: Option<string>, action: Option<Action>, burnIncrement: Option<int>, signature: Option<string>,
    totalBurned: Option<int>, claimHeight: Option<int>, expireHeight: Option<int>, scriptError: Option<string>,
    outpointTxid: Option<Txid>, outpointIndex: Option<int>)

  /** vmetaouts in the order of their serial identifiers; nextIndex is the next value of mempool_tx_index_seq. */
  datatype Tables = Tables(
    blocks: map<Hash, BlockRow>, transactions: map<TxKey, TxRow>, vmetaouts: seq<VMetaOut>, nextIndex: int)

  /** The database after all migrations: only the mempool's sentinel block. */
  function Migrated(): Tables
  {
    Tables(map[DEADBEEF := BlockRow(-1, false)], map[], [], -1)
  }

  // ---- Constraints ---------------------------------------------------------------------

  ghost predicate UniqueHeights(blocks: map<Hash, BlockRow>)
  {
    forall a, b | a in blocks && b in blocks && blocks[a].height == blocks[b].height && blocks[a].height >= 0 :: a == b
  }

  ghost predicate UniqueIndexes(txs: map<TxKey, TxRow>)
  {
    forall j, k | j in txs && k in txs && j.block == k.block && txs[j].index == txs[k].index :: j == k
  }

  predicate NameFits(v: VMetaOut)
  {
    v.name.Some? ==> |v.name.value| < 64
  }

  ghost predicate MetaKeysExist(t: Tables)
  {
    forall i | 0 <= i < |t.vmetaouts| :: t.vmetaouts[i].key in t.transactions && NameFits(t.vmetaouts[i])
  }

  /** Every constraint of the schema; the keys of the maps are the primary keys. */
  ghost predicate Valid(t: Tables)
  {
    && (forall b | b in t.blocks :: t.blocks[b].height >= -2)
    && UniqueHeights(t.blocks)
    && (forall k | k in t.transactions :: k.block in t.blocks)
    && UniqueIndexes(t.transactions)
    && MetaKeysExist(t)
  }

  // ---- blocks.sql ----------------------------------------------------------------------

  /** Only the row of hash itself may hold the height, if the height is indexed. */
  predicate HeightFree(blocks: map<Hash, BlockRow>, hash: Hash, height: int)
  {
    height >= 0 ==> forall b | b in blocks :: blocks[b].height == height ==> b == hash
  }

  predicate CanUpsert(t: Tables, hash: Hash, height: int)
  {
    height >= -2 && HeightFree(t.blocks, hash, height)
  }

  function Upserted(t: Tables, hash: Hash, height: int): Tables
  {
    t.(blocks := t.blocks[hash := BlockRow(height, false)])
  }

  /** UPDATE blocks SET orphan = true WHERE height > h */
  function Flagged(t: Tables, h: int): Tables
  {
    t.(blocks := map b | b in t.blocks ::
      if t.blocks[b].height > h then t.blocks[b].(orphan := true) else t.blocks[b])
  }

  /** UPDATE blocks SET height = -2 WHERE orphan = true */
  function Buried(t: Tables): Tables
  {
    t.(blocks := map b | b in t.blocks ::
      if t.blocks[b].orphan then t.blocks[b].(height := -2) else t.blocks[b])
  }

  ghost predicate IsMaxHeight(blocks: map<Hash, BlockRow>, m: int)
  {
    if blocks == map[] then m == -1
    else (exists b | b in blocks :: blocks[b].height == m) && forall b | b in blocks :: blocks[b].height <= m
  }

  lemma {:induction false} MaxHeightExists(blocks: map<Hash, BlockRow>)
    ensures exists m :: IsMaxHeight(blocks, m)
    decreases |blocks|
  {
    if blocks == map[] {
      assert IsMaxHeight(blocks, -1);
    } else {
      var b :| b in blocks;
      var rest := blocks - {b};
      assert rest.Keys == blocks.Keys - {b};
      MaxHeightExists(rest);
      var m :| IsMaxHeight(rest, m);
      var n := if rest == map[] || m < blocks[b].height then blocks[b].height else m;
      forall c | c in blocks ensures blocks[c].height <= n {
        if c != b { assert c in rest; }
      }
      assert IsMaxHeight(blocks, n);
    }
  }

  /** SELECT COALESCE(MAX(height), -1) FROM blocks */
  ghost function MaxHeight(blocks: map<Hash, BlockRow>): (m: int)
    ensures IsMaxHeight(blocks, m)
  {
    MaxHeightExists(blocks);
    var m :| IsMaxHeight(blocks, m); m
  }

  /** SELECT hash FROM blocks WHERE height = h, for an indexed height. */
  ghost function RowAt(blocks: map<Hash, BlockRow>, h: int): (r: Option<Hash>)
    ensures r.Some? ==> r.value in blocks && blocks[r.value].height == h
    ensures r.None? ==> forall b | b in blocks :: blocks[b].height != h
  {
    if exists b :: b in blocks && blocks[b].height == h
    then var b :| b in blocks && blocks[b].height == h; Some(b)
    else None
  }

  // ---- transactions.sql ----------------------------------------------------------------

  predicate IndexFree(txs: map<TxKey, TxRow>, block: Hash, index: int)
  {
    forall k | k in txs && k.block == block :: txs[k].index != index
  }

  /** The values of the INTEGER column index. */
  predicate Int4(n: int)
  {
    -0x8000_0000 <= n < 0x8000_0000
  }

  predicate IsLeast(txs: map<TxKey, TxRow>, keys: set<TxKey>, k: TxKey)
    requires k in txs && keys <= txs.Keys
  {
    forall j | j in keys :: txs[k].index <= txs[j].index
  }

  lemma {:induction false} LeastIndex(txs: map<TxKey, TxRow>, keys: set<TxKey>)
    requires keys != {} && keys <= txs.Keys
    ensures exists k :: k in keys && IsLeast(txs, keys, k)
    decreases keys
  {
    var k :| k in keys;
    if keys == {k} {
      assert IsLeast(txs, keys, k);
    } else {
      LeastIndex(txs, keys - {k});
      var m :| m in keys - {k} && IsLeast(txs, keys - {k}, m);
      var n := if txs[k].index < txs[m].index then k else m;
      forall j | j in keys ensures txs[n].index <= txs[j].index {
        assert j == k || j in keys - {k};
      }
      assert IsLeast(txs, keys, n);
    }
  }

  /** The constraint that inserting the row would break, if any. */
  function TxViolation(t: Tables, p: NewTx): Option<Error>
  {
    if !Int4(p.row.index) then Some(IntegerRange)
    else if p.key in t.transactions || !IndexFree(t.transactions, p.key.block, p.row.index) then Some(UniqueViolation)
    else if p.key.block !in t.blocks then Some(ForeignKeyViolation)
    else None
  }

  function WithTx(t: Tables, p: NewTx): Tables
  {
    t.(transactions := t.transactions[p.key := p.row])
  }

  /** The mempool's transactions among txids, removed together with their vmetaouts by the cascade. */
  function Dropped(t: Tables, txids: set<Txid>): Tables
  {
    t.(transactions := map k | k in t.transactions && !(k.block == DEADBEEF && k.txid in txids) :: t.transactions[k],
       vmetaouts := Surviving(t.vmetaouts, txids))
  }

  function Surviving(vs: seq<VMetaOut>, txids: set<Txid>): seq<VMetaOut>
  {
    if vs == [] then []
    else
      var last := vs[|vs| - 1];
      Surviving(vs[..|vs| - 1], txids) +
      (if last.key.block == DEADBEEF && last.key.txid in txids then [] else [last])
  }

  /** The txids stored under the sentinel block. */
  function MempoolTxids(t: Tables): set<Txid>
  {
    set k | k in t.transactions && k.block == DEADBEEF :: k.txid
  }

  // ---- spaces.sql ----------------------------------------------------------------------

  function MetaViolation(t: Tables, v: VMetaOut): Option<Error>
  {
    if !NameFits(v) then Some(CheckViolation)
    else if v.key !in t.transactions then Some(ForeignKeyViolation)
    else None
  }

  function WithMeta(t: Tables, v: VMetaOut): Tables
  {
    t.(vmetaouts := t.vmetaouts + [v])
  }

  // ---- Statements keep the constraints -------------------------------------------------

  lemma UpsertKeepsValid(t: Tables, hash: Hash, height: int)
    requires Valid(t) && CanUpsert(t, hash, height)
    ensures Valid(Upserted(t, hash, height))
  {
  }

  lemma OrphaningKeepsValid(t: Tables, h: int)
    requires Valid(t)
    ensures Valid(Flagged(t, h)) && Valid(Buried(t))
  {
  }

  lemma InsertKeepsValid(t: Tables, p: NewTx)
    requires Valid(t) && TxViolation(t, p).None?
    ensures Valid(WithTx(t, p))
  {
  }

  lemma MetaKeepsValid(t: Tables, v: VMetaOut)
    requires Valid(t) && MetaViolation(t, v).None?
    ensures Valid(WithMeta(t, v))
  {
  }

  /** What survives a cascade is what was there under other keys. */
  lemma {:induction false} SurvivingRows(vs: seq<VMetaOut>, txids: set<Txid>)
    ensures forall i | 0 <= i < |Surviving(vs, txids)| ::
      Surviving(vs, txids)[i] in vs &&
      !(Surviving(vs, txids)[i].key.block == DEADBEEF && Surviving(vs, txids)[i].key.txid in txids)
  {
    if vs != [] {
      SurvivingRows(vs[..|vs| - 1], txids);
    }
  }

  lemma DropKeepsValid(t: Tables, txids: set<Txid>)
    requires Valid(t)
    ensures Valid(Dropped(t, txids))
    ensures MempoolTxids(Dropped(t, txids)) == MempoolTxids(t) - txids
  {
    var u := Dropped(t, txids);
    SurvivingRows(t.vmetaouts, txids);
    forall i | 0 <= i < |u.vmetaouts| ensures u.vmetaouts[i].key in u.transactions && NameFits(u.vmetaouts[i]) {
      assert u.vmetaouts[i] in t.vmetaouts;
    }
    forall x | x in MempoolTxids(t) - txids ensures x in MempoolTxids(u) {
      assert TxKey(DEADBEEF, x) in u.transactions;
    }
  }
}
