/** Transaction rows of a block: aggregates, the batch, and the COPY that inserts it. */
module Batch {
  import opened Outcomes
  import opened Node
  import opened Schema
  import opened Database
  import Amounts

  /** Conversions to int32 and int64 keep the low bits. */
  function Int32(n: int): int
  {
    (n + 0x8000_0000) % 0x1_0000_0000 - 0x8000_0000
  }

  function Int64(n: int): int
  {
    (n + 0x8000_0000_0000_0000) % 0x1_0000_0000_0000_0000 - 0x8000_0000_0000_0000
  }

  lemma Int64OfSum(a: int, b: int)
    ensures Int64(Int64(a) + b) == Int64(a + b)
  {
  }

  lemma Int64Exact(n: int)
    requires -0x8000_0000_0000_0000 <= n < 0x8000_0000_0000_0000
    ensures Int64(n) == n
  {
  }

  /** v is what 32 bits keep of n: n itself, if it fits. */
  predicate Low32(v: int, n: int)
  {
    -0x8000_0000 <= v < 0x8000_0000 && (n - v) % 0x1_0000_0000 == 0
  }

  predicate Low64(v: int, n: int)
  {
    -0x8000_0000_0000_0000 <= v < 0x8000_0000_0000_0000 && (n - v) % 0x1_0000_0000_0000_0000 == 0
  }

  lemma Low32Exact(v: int, n: int)
    requires Low32(v, n) && -0x8000_0000 <= n < 0x8000_0000
    ensures v == n
  {
  }

  lemma Low64Exact(v: int, n: int)
    requires Low64(v, n) && -0x8000_0000_0000_0000 <= n < 0x8000_0000_0000_0000
    ensures v == n
  {
  }

  lemma Int32Low(n: int)
    ensures Low32(Int32(n), n)
  {
  }

  lemma Int64Low(n: int)
    ensures Low64(Int64(n), n)
  {
  }

  /** The exact sum of the output values. */
  function OutputSum(vout: seq<Vout>): int
  {
    if vout == [] then 0
    else OutputSum(vout[..|vout| - 1]) + Amounts.Satoshis(vout[|vout| - 1].floatValue)
  }

  /** The stored row of the transaction at the given place of its block. */
  function RowOf(tx: Transaction, index: int): TxRow
  {
    TxRow(tx.hash, Int64(Amounts.Satoshis(tx.floatFee)), Int32(index), Int32(tx.inputs), Int32(|tx.vout|),
      Int64(OutputSum(tx.vout)))
  }

  method CalculateAggregates(tx: Transaction) returns (inputCount: int, outputCount: int, total: int)
    ensures inputCount == Int32(tx.inputs) && outputCount == Int32(|tx.vout|)
    ensures total == Int64(OutputSum(tx.vout))
  {
    inputCount, outputCount, total := Int32(tx.inputs), Int32(|tx.vout|), 0;
    for i := 0 to |tx.vout|
      invariant total == Int64(OutputSum(tx.vout[..i]))
    {
      assert tx.vout[..i + 1][..i] == tx.vout[..i];
      Int64OfSum(OutputSum(tx.vout[..i]), Amounts.Satoshis(tx.vout[i].floatValue));
      total := Int64(total + Amounts.Satoshis(tx.vout[i].floatValue));
    }
    assert tx.vout[..|tx.vout|] == tx.vout;
  }

  // ---- Exact totals --------------------------------------------------------------------

  function Sum(vs: seq<int>): int
  {
    if vs == [] then 0 else Sum(vs[..|vs| - 1]) + vs[|vs| - 1]
  }

  /** The output values are the decoded JSON numbers of these satoshi amounts. */
  ghost predicate Encodes(vout: seq<Vout>, vs: seq<int>)
  {
    |vout| == |vs| && forall i | 0 <= i < |vs| ::
      0 <= vs[i] < 0x8_0000_0000_0000 && vout[i].floatValue == Amounts.JsonAmount(vs[i])
  }

  lemma {:induction false} OutputSumExact(vout: seq<Vout>, vs: seq<int>)
    requires Encodes(vout, vs)
    ensures OutputSum(vout) == Sum(vs) >= 0
  {
    if vs != [] {
      var n := |vs| - 1;
      OutputSumExact(vout[..n], vs[..n]);
      Amounts.SatoshisExact(vs[n]);
    }
  }

  /** Fee and total are the exact satoshi amounts, without overflow, as long as the total fits int64. */
  lemma RowAmountsExact(tx: Transaction, index: int, fee: int, vs: seq<int>)
    requires 0 <= fee < 0x8_0000_0000_0000 && tx.floatFee == Amounts.JsonAmount(fee)
    requires Encodes(tx.vout, vs) && Sum(vs) < 0x8000_0000_0000_0000
    ensures RowOf(tx, index).fee == fee && RowOf(tx, index).totalOutputValue == Sum(vs)
  {
    Amounts.SatoshisExact(fee);
    OutputSumExact(tx.vout, vs);
    Int64Exact(fee);
    Int64Exact(Sum(vs));
  }

  /**
   * The row is the transaction's: its hash, the numbers of its inputs and outputs, its fee and the total of its outputs
   * in satoshis; numbers too large for their columns keep their low bits.
   */
  ghost predicate Shows(row: TxRow, tx: Transaction)
  {
    && row.txHash == tx.hash
    && Low32(row.inputCount, tx.inputs) && Low32(row.outputCount, |tx.vout|)
    && (forall fee | 0 <= fee < 0x8_0000_0000_0000 && tx.floatFee == Amounts.JsonAmount(fee) :: row.fee == fee)
    && (forall vs | Encodes(tx.vout, vs) :: Low64(row.totalOutputValue, Sum(vs)))
  }

  /** Where everything fits, the columns are the numbers themselves. */
  lemma ShowsExactly(row: TxRow, tx: Transaction, fee: int, vs: seq<int>)
    requires Shows(row, tx) && tx.inputs < 0x8000_0000 && |tx.vout| < 0x8000_0000
    requires 0 <= fee < 0x8_0000_0000_0000 && tx.floatFee == Amounts.JsonAmount(fee)
    requires Encodes(tx.vout, vs) && Sum(vs) < 0x8000_0000_0000_0000
    ensures row == TxRow(tx.hash, fee, row.index, tx.inputs, |tx.vout|, Sum(vs))
  {
    OutputSumExact(tx.vout, vs);
    hide Encodes, Sum, OutputSum, Amounts.JsonAmount, Low32, Low64;
    Low32Exact(row.inputCount, tx.inputs);
    Low32Exact(row.outputCount, |tx.vout|);
    Low64Exact(row.totalOutputValue, Sum(vs));
  }

  lemma RowOfShows(tx: Transaction, index: int)
    ensures Shows(RowOf(tx, index), tx) && Low32(RowOf(tx, index).index, index)
  {
    Int32Low(tx.inputs);
    Int32Low(|tx.vout|);
    Int32Low(index);
    Int64Low(OutputSum(tx.vout));
    forall fee | 0 <= fee < 0x8_0000_0000_0000 && tx.floatFee == Amounts.JsonAmount(fee)
      ensures RowOf(tx, index).fee == fee
    {
      Amounts.SatoshisExact(fee);
      Int64Exact(fee);
    }
    hide Low32, Low64, Int32, Int64;
    forall vs | Encodes(tx.vout, vs) ensures Low64(RowOf(tx, index).totalOutputValue, Sum(vs)) {
      OutputSumExact(tx.vout, vs);
    }
  }

  // ---- The batch -----------------------------------------------------------------------

  function BatchOf(txs: seq<Transaction>, block: Hash): (batch: seq<NewTx>)
    ensures |batch| == |txs|
  {
    seq(|txs|, i requires 0 <= i < |txs| => NewTx(TxKey(block, txs[i].txid), RowOf(txs[i], i)))
  }

  method PrepareBatchTransactions(txs: seq<Transaction>, block: Hash) returns (batch: seq<NewTx>)
    ensures batch == BatchOf(txs, block)
    ensures |batch| == |txs| && forall i | 0 <= i < |txs| ::
      batch[i].key == TxKey(block, txs[i].txid) && Shows(batch[i].row, txs[i]) && Low32(batch[i].row.index, i)
  {
    hide Shows, Low32;
    batch := [];
    for i := 0 to |txs|
      invariant batch == BatchOf(txs, block)[..i]
    {
      var inputCount, outputCount, total := CalculateAggregates(txs[i]);
      var fee := Int64(Amounts.Satoshis(txs[i].floatFee));
      batch := batch + [NewTx(TxKey(block, txs[i].txid),
        TxRow(txs[i].hash, fee, Int32(i), inputCount, outputCount, total))];
      assert batch[i] == BatchOf(txs, block)[i];
    }
    forall i | 0 <= i < |txs| ensures Shows(batch[i].row, txs[i]) && Low32(batch[i].row.index, i) {
      RowOfShows(txs[i], i);
    }
  }

  ghost predicate PairsDistinct(batch: seq<NewTx>)
  {
    forall i, j | 0 <= i < j < |batch| ::
      batch[i].key.block != batch[j].key.block || batch[i].row.index != batch[j].row.index
  }

  lemma SameInt32(i: int, j: int)
    requires 0 <= i < j && Int32(i) == Int32(j)
    ensures j - i >= 0x1_0000_0000
  {
  }

  /** The (block_hash, index) pairs of a batch are pairwise distinct if and only if the index does not wrap around. */
  lemma PairsDistinctIff(txs: seq<Transaction>, block: Hash)
    ensures PairsDistinct(BatchOf(txs, block)) <==> |txs| <= 0x1_0000_0000
  {
    var batch := BatchOf(txs, block);
    if |txs| <= 0x1_0000_0000 {
      forall i, j | 0 <= i < j < |batch| ensures batch[i].row.index != batch[j].row.index {
        if Int32(i) == Int32(j) {
          SameInt32(i, j);
          assert false;
        }
      }
    } else {
      assert batch[0].row.index == Int32(0) == Int32(0x1_0000_0000) == batch[0x1_0000_0000].row.index;
    }
  }

  // ---- The copy iterator ---------------------------------------------------------------

  class BatchIterator {
    var rows: seq<NewTx>
    var skippedFirstNextCall: bool

    constructor (rows: seq<NewTx>)
      ensures Pending() == rows && fresh(this)
    {
      this.rows := rows;
      skippedFirstNextCall := false;
    }

    /** The rows that calls of Next have yet to move to. */
    function Pending(): seq<NewTx>
      reads this
    {
      if skippedFirstNextCall && rows != [] then rows[1..] else rows
    }

    method Next() returns (more: bool)
      modifies this
      ensures more == (old(Pending()) != [])
      ensures more ==> rows != [] && rows[0] == old(Pending())[0] && Pending() == old(Pending())[1..]
      ensures !more ==> Pending() == []
    {
      if |rows| == 0 {
        return false;
      }
      if !skippedFirstNextCall {
        skippedFirstNextCall := true;
        return true;
      }
      rows := rows[1..];
      return |rows| > 0;
    }

    method Values() returns (row: NewTx)
      requires rows != []
      ensures row == rows[0]
    {
      row := rows[0];
    }
  }

  /** A statement's outcome: the constraint it broke, if any, and the tables it leaves. */
  datatype Step = Step(violation: Option<Error>, t: Tables)

  function CopyRows(t: Tables, batch: seq<NewTx>): Step
    decreases |batch|
  {
    if batch == [] then Step(None, t)
    else
      var v := TxViolation(t, batch[0]);
      if v.Some? then Step(v, t) else CopyRows(WithTx(t, batch[0]), batch[1..])
  }

  /** Drains the iterator into the table: each pending row once, in order, up to the first violation. */
  method CopyFrom(db: Connection, source: BatchIterator) returns (violation: Option<Error>, taken: nat)
    requires db.Sound()
    modifies db, source
    ensures db.Sound() && db.saved == old(db.saved)
    ensures Step(violation, db.State()) == CopyRows(old(db.State()), old(source.Pending()))
    ensures taken <= |old(source.Pending())| && source.Pending() == old(source.Pending())[taken..]
    ensures violation.None? ==> taken == |old(source.Pending())|
  {
    ghost var batch, t0 := source.Pending(), db.State();
    ghost var left := batch;
    taken := 0;
    violation := None;
    var more := source.Next();
    while more
      invariant db.Sound() && db.saved == old(db.saved)
      invariant violation.None?
      invariant taken <= |batch| && left == batch[taken..]
      invariant more == (left != []) && source.Pending() == (if more then left[1..] else [])
      invariant more ==> source.rows != [] && source.rows[0] == left[0]
      invariant CopyRows(t0, batch) == CopyRows(db.State(), left)
      decreases |left|
    {
      var row := source.Values();
      violation := db.InsertTransaction(row);
      taken := taken + 1;
      left := left[1..];
      if violation.Some? {
        return;
      }
      more := source.Next();
    }
  }

  method InsertBatchTransactions(db: Connection, batch: seq<NewTx>) returns (violation: Option<Error>)
    requires db.Sound()
    modifies db
    ensures db.Sound() && db.saved == old(db.saved)
    ensures Step(violation, db.State()) == CopyRows(old(db.State()), batch)
  {
    var source := new BatchIterator(batch);
    var taken;
    violation, taken := CopyFrom(db, source);
  }
}
