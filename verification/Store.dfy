/** pkg/store: storing a block, and finding the last block that the database shares with the node. */
module Store {
  import opened Outcomes
  import opened Node
  import opened Schema
  import opened Database
  import opened Batch
  import opened Spaces

  /** ACTIVATION_BLOCK_HEIGHT, and FAST_SYNC_BLOCK_HEIGHT less one. */
  datatype Config = Config(activation: int, fastSync: int)

  /** What an operation answers, the tables it leaves committed, and the moments it left over. */
  datatype Out<+T> = Out(result: Result<T>, t: Tables, s: Script)

  // ---- StoreBlock ----------------------------------------------------------------------

  /** Upserts the block and, if its row is new, inserts its transactions. */
  function BitcoinBlockStored(t: Tables, b: Block): Step
  {
    if !CanUpsert(t, b.hash, b.height) then Step(Some(UniqueViolation), t)
    else if b.hash in t.blocks then Step(None, Upserted(t, b.hash, b.height))
    else CopyRows(Upserted(t, b.hash, b.height), BatchOf(b.txs, b.hash))
  }

  method StoreBitcoinBlock(db: Connection, b: Block) returns (violation: Option<Error>)
    requires db.Sound()
    modifies db
    ensures db.Sound() && db.saved == old(db.saved)
    ensures Step(violation, db.State()) == BitcoinBlockStored(old(db.State()), b)
    ensures db.nextIndex == old(db.nextIndex)
  {
    var inserted := db.UpsertBlock(b.hash, b.height);
    if inserted.Err? {
      return Some(inserted.error);
    }
    violation := None;
    if inserted.value {
      CopyRowsFrame(db.State(), BatchOf(b.txs, b.hash));
      var batch := PrepareBatchTransactions(b.txs, b.hash);
      violation := InsertBatchTransactions(db, batch);
    }
  }

  lemma {:induction false} CopyRowsFrame(t: Tables, batch: seq<NewTx>)
    ensures CopyRows(t, batch).t.(transactions := t.transactions) == t
    decreases |batch|
  {
    if batch != [] && TxViolation(t, batch[0]).None? {
      CopyRowsFrame(WithTx(t, batch[0]), batch[1..]);
    }
  }

  /** The tables after the statements of one StoreBlock transaction, before it commits. */
  function BlockStored(w: World, cfg: Config, t: Tables, b: Block): Step
    requires b.hash in w.tree
  {
    var stored := BitcoinBlockStored(t, b);
    if stored.violation.Some? || b.height < cfg.activation then stored
    else InsertRows(stored.t, BlockMetaRows(b.hash, w.tree[b.hash].meta))
  }

  /** The moments StoreBlock takes: to begin, to fetch the meta from the activation height on, and to commit. */
  function StoreBlockSpec(w: World, cfg: Config, t: Tables, b: Block, s: Script): (out: Out<()>)
    requires b.hash in w.tree
    ensures |out.s| <= |s|
    ensures out.result.Err? ==> out.t == t
  {
    if !Live(s) then Out(Err(Unavailable), t, Rest(s))
    else
      var s1 := Rest(s);
      var stored := BitcoinBlockStored(t, b);
      if stored.violation.Some? then Out(Err(stored.violation.value), t, s1)
      else if b.height >= cfg.activation && !Live(s1) then Out(Err(Unavailable), t, Rest(s1))
      else
        var s2 := if b.height >= cfg.activation then Rest(s1) else s1;
        var done := BlockStored(w, cfg, t, b);
        if done.violation.Some? then Out(Err(done.violation.value), t, s2)
        else if !Live(s2) then Out(Err(Unavailable), t, Rest(s2))
        else Out(Ok(()), done.t, Rest(s2))
  }

  method StoreBlock(db: Connection, c: Clients, cfg: Config, b: Block) returns (r: Result<()>)
    requires db.Sound() && db.saved.None? && b.hash in c.w.tree
    modifies db, c
    ensures db.Sound() && db.saved.None?
    ensures Out(r, db.State(), c.script) == StoreBlockSpec(c.w, cfg, old(db.State()), b, old(c.script))
  {
    var up := c.Reach();
    if !up {
      return Err(Unavailable);
    }
    db.Begin();
    var violation := StoreBitcoinBlock(db, b);
    if violation.Some? {
      db.Rollback();
      return Err(violation.value);
    }
    if b.height >= cfg.activation {
      var meta := c.GetBlockMeta(b.hash);
      if meta.Err? {
        db.Rollback();
        return Err(meta.error);
      }
      InsertRowsExactly(db.State(), BlockMetaRows(b.hash, meta.value));
      violation := StoreSpacesTransactions(db, meta.value, b.hash);
      if violation.Some? {
        db.Rollback();
        return Err(violation.value);
      }
    }
    up := c.Reach();
    if !up {
      db.Rollback();
      return Err(Unavailable);
    }
    db.Commit();
    return Ok(());
  }

  // ---- GetSyncedHead -------------------------------------------------------------------

  /** Height -1 and no hash when nothing is stored. */
  datatype Head = Head(height: int, hash: Option<Hash>)

  /** Marks the rows above the matched row as orphans: two statements, each on its own. */
  function Settle(t: Tables, h: int, hash: Hash, s: Script): (out: Out<Head>)
    ensures |out.s| <= |s|
  {
    if !Live(s) then Out(Err(Unavailable), t, Rest(s))
    else if !Live(Rest(s)) then Out(Err(Unavailable), Flagged(t, h), Rest(Rest(s)))
    else Out(Ok(Head(h, Some(hash))), Buried(Flagged(t, h)), Rest(Rest(s)))
  }

  /** Compares stored row and node, height by height from h downwards. */
  ghost function Scan(t: Tables, h: int, s: Script): (out: Out<Head>)
    ensures |out.s| <= |s|
    decreases h + 1
  {
    if h < 0 then Out(Ok(Head(-1, None)), t, s)
    else if !Live(s) then Out(Err(Unavailable), t, Rest(s))
    else
      match RowAt(t.blocks, h)
      case None => Out(Err(NoRows), t, Rest(s))
      case Some(hash) =>
        var answer := BlockHashAnswer(Rest(s), h);
        var s2 := Rest(Rest(s));
        if answer.Err? then Out(Err(answer.error), t, s2)
        else if answer.value == hash then Settle(t, h, hash, s2)
        else Scan(t, h - 1, s2)
  }

  ghost function GetSyncedHeadSpec(t: Tables, s: Script): (out: Out<Head>)
    ensures |out.s| <= |s|
  {
    if !Live(s) then Out(Err(Unavailable), t, Rest(s)) else Scan(t, MaxHeight(t.blocks), Rest(s))
  }

  method GetSyncedHead(db: Connection, c: Clients) returns (r: Result<Head>)
    requires db.Sound()
    modifies db, c
    ensures db.Sound() && db.saved == old(db.saved)
    ensures Out(r, db.State(), c.script) == GetSyncedHeadSpec(old(db.State()), old(c.script))
  {
    var up := c.Reach();
    if !up {
      return Err(Unavailable);
    }
    var height := db.GetBlocksMaxHeight();
    while height >= 0
      invariant db.Sound() && db.saved == old(db.saved) && db.State() == old(db.State())
      invariant Scan(db.State(), height, c.script) == GetSyncedHeadSpec(old(db.State()), old(c.script))
    {
      up := c.Reach();
      if !up {
        return Err(Unavailable);
      }
      var dbHash := db.GetBlockHashByHeight(height);
      if dbHash.None? {
        return Err(NoRows);
      }
      var nodeHash := c.GetBlockHash(height);
      if nodeHash.Err? {
        return Err(nodeHash.error);
      }
      if dbHash.value == nodeHash.value {
        up := c.Reach();
        if !up {
          return Err(Unavailable);
        }
        db.SetOrphanAfterHeight(height);
        up := c.Reach();
        if !up {
          return Err(Unavailable);
        }
        db.SetNegativeHeightToOrphans();
        return Ok(Head(height, dbHash));
      }
      height := height - 1;
    }
    return Ok(Head(-1, None));
  }
}
