/**
 * The Postgres connection: table rows changed in place by the statements of pkg/db, inside or outside a transaction.
 */
module Database {
  import opened Outcomes
  import opened Node
  import opened Schema

  class Connection {
    var blocks: map<Hash, BlockRow>
    var transactions: map<TxKey, TxRow>
    var vmetaouts: seq<VMetaOut>
    var nextIndex: int
    /** What a rollback restores, while a transaction is open. */
    var saved: Option<Tables>

    function State(): Tables
      reads this
    {
      Tables(blocks, transactions, vmetaouts, nextIndex)
    }

    ghost predicate Sound()
      reads this
    {
      Valid(State()) && (saved.Some? ==> Valid(saved.value))
    }

    /** Connects to the freshly migrated database. */
    constructor ()
      ensures Sound() && State() == Migrated() && saved.None?
    {
      blocks := map[DEADBEEF := BlockRow(-1, false)];
      transactions := map[];
      vmetaouts := [];
      nextIndex := -1;
      saved := None;
    }

    method Begin()
      requires Sound()
      modifies this
      ensures Sound() && State() == old(State()) && saved == Some(old(State()))
    {
      saved := Some(State());
    }

    method Commit()
      requires Sound()
      modifies this
      ensures Sound() && State() == old(State()) && saved.None?
    {
      saved := None;
    }

    /** Restores the tables if a transaction is open; sequences are not rolled back. */
    method Rollback()
      requires Sound()
      modifies this
      ensures Sound() && saved.None?
      ensures State() == if old(saved).Some? then old(saved).value.(nextIndex := old(nextIndex)) else old(State())
    {
      if saved.Some? {
        blocks, transactions, vmetaouts := saved.value.blocks, saved.value.transactions, saved.value.vmetaouts;
        saved := None;
      }
    }

    /** Inserts the block or moves the existing row; tells whether it was inserted. */
    method UpsertBlock(hash: Hash, height: int) returns (r: Result<bool>)
      requires Sound()
      modifies this
      ensures Sound() && saved == old(saved)
      ensures r.Ok? <==> CanUpsert(old(State()), hash, height)
      ensures r.Ok? ==> r.value == (hash !in old(blocks)) && State() == Upserted(old(State()), hash, height)
      ensures r.Err? ==> State() == old(State()) && r.error == if height < -2 then CheckViolation else UniqueViolation
    {
      if height < -2 {
        return Err(CheckViolation);
      }
      if height >= 0 {
        if b :| b in blocks && blocks[b].height == height && b != hash {
          return Err(UniqueViolation);
        }
      }
      UpsertKeepsValid(State(), hash, height);
      r := Ok(hash !in blocks);
      blocks := blocks[hash := BlockRow(height, false)];
    }

    method SetOrphanAfterHeight(h: int)
      requires Sound()
      modifies this
      ensures Sound() && saved == old(saved) && State() == Flagged(old(State()), h)
    {
      ghost var t := State();
      OrphaningKeepsValid(t, h);
      hide Valid;
      blocks := map b | b in blocks :: if blocks[b].height > h then blocks[b].(orphan := true) else blocks[b];
      assert blocks == Flagged(t, h).blocks;
      hide Flagged;
    }

    method SetNegativeHeightToOrphans()
      requires Sound()
      modifies this
      ensures Sound() && saved == old(saved) && State() == Buried(old(State()))
    {
      ghost var t := State();
      OrphaningKeepsValid(t, 0);
      hide Valid;
      blocks := map b | b in blocks :: if blocks[b].orphan then blocks[b].(height := -2) else blocks[b];
      assert blocks == Buried(t).blocks;
    }

    method GetBlocksMaxHeight() returns (m: int)
      ensures m == MaxHeight(blocks)
    {
      m := -1;
      var left := blocks.Keys;
      while left != {}
        invariant left <= blocks.Keys
        invariant left == blocks.Keys ==> m == -1
        invariant left != blocks.Keys ==> exists b | b in blocks.Keys - left :: blocks[b].height == m
        invariant forall b | b in blocks.Keys - left :: blocks[b].height <= m
        decreases left
      {
        var b :| b in left;
        if left == blocks.Keys || blocks[b].height > m {
          m := blocks[b].height;
        }
        left := left - {b};
        assert b in blocks.Keys - left;
      }
      assert IsMaxHeight(blocks, m);
    }

    method GetBlockHashByHeight(h: int) returns (r: Option<Hash>)
      requires Sound() && h >= 0
      ensures r == RowAt(blocks, h)
    {
      if b :| b in blocks && blocks[b].height == h {
        return Some(b);
      }
      return None;
    }

    method InsertTransaction(p: NewTx) returns (violation: Option<Error>)
      requires Sound()
      modifies this
      ensures Sound() && saved == old(saved)
      ensures violation == TxViolation(old(State()), p)
      ensures State() == if violation.None? then WithTx(old(State()), p) else old(State())
    {
      violation := TxViolation(State(), p);
      if violation.None? {
        InsertKeepsValid(State(), p);
        transactions := transactions[p.key := p.row];
      }
    }

    /** The index column defaults to nextval('mempool_tx_index_seq'), which a failed insert also consumes. */
    method InsertMempoolTransaction(key: TxKey, row: TxRow) returns (violation: Option<Error>)
      requires Sound()
      modifies this
      ensures Sound() && saved == old(saved)
      ensures violation == TxViolation(old(State()), NewTx(key, row.(index := old(nextIndex))))
      ensures State() ==
        (if violation.None? then WithTx(old(State()), NewTx(key, row.(index := old(nextIndex)))) else old(State()))
        .(nextIndex := old(nextIndex) - 1)
    {
      violation := InsertTransaction(NewTx(key, row.(index := nextIndex)));
      nextIndex := nextIndex - 1;
    }

    method InsertVMetaOut(v: VMetaOut) returns (violation: Option<Error>)
      requires Sound()
      modifies this
      ensures Sound() && saved == old(saved)
      ensures violation == MetaViolation(old(State()), v)
      ensures violation == Some(CheckViolation) <==> v.name.Some? && |v.name.value| >= 64
      ensures violation.None? <==> (v.name.Some? ==> |v.name.value| <= 63) && v.key in transactions
      ensures State() == if violation.None? then WithMeta(old(State()), v) else old(State())
    {
      violation := MetaViolation(State(), v);
      if violation.None? {
        MetaKeepsValid(State(), v);
        vmetaouts := vmetaouts + [v];
      }
    }

    function PoolIndex(txid: Txid): int
      requires TxKey(DEADBEEF, txid) in transactions
      reads this
    {
      transactions[TxKey(DEADBEEF, txid)].index
    }

    /** Each once, ordered by index. */
    method GetMempoolTxids() returns (txids: seq<Txid>)
      requires Sound()
      ensures Elements(txids) == MempoolTxids(State())
      ensures forall i | 0 <= i < |txids| :: TxKey(DEADBEEF, txids[i]) in transactions
      ensures forall i, j | 0 <= i < j < |txids| :: PoolIndex(txids[i]) < PoolIndex(txids[j])
    {
      txids := [];
      var left := set k | k in transactions && k.block == DEADBEEF;
      while left != {}
        invariant left <= set k | k in transactions && k.block == DEADBEEF
        invariant Elements(txids) + (set k | k in left :: k.txid) == MempoolTxids(State())
        invariant forall i | 0 <= i < |txids| :: TxKey(DEADBEEF, txids[i]) in transactions
        invariant forall i, k | 0 <= i < |txids| && k in left :: PoolIndex(txids[i]) < transactions[k].index
        invariant forall i, j | 0 <= i < j < |txids| :: PoolIndex(txids[i]) < PoolIndex(txids[j])
        decreases left
      {
        LeastIndex(transactions, left);
        var k :| k in left && IsLeast(transactions, left, k);
        txids := txids + [k.txid];
        left := left - {k};
      }
    }

    /** DELETE cascades to vmetaouts. */
    method DeleteMempoolTransactionsByTxids(txids: seq<Txid>)
      requires Sound()
      modifies this
      ensures Sound() && saved == old(saved)
      ensures State() == Dropped(old(State()), Elements(txids))
    {
      var dead := Elements(txids);
      DropKeepsValid(State(), dead);
      transactions :=
        map k | k in transactions && !(k.block == DEADBEEF && k.txid in dead) :: transactions[k];
      vmetaouts := Surviving(vmetaouts, dead);
    }
  }
}
