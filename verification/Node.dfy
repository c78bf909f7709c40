/** The Bitcoin and Spaces nodes: the tree of all blocks, and what the nodes answer over time. */
module Node {
  import opened Outcomes

  /** 32-byte hashes, read as numbers. */
  type Hash = nat
  type Txid = nat

  const DEADBEEF: Hash := 0xdeadbeefdeadbeefdeadbeefdeadbeefdeadbeefdeadbeefdeadbeefdeadbeef

  datatype Vout = Vout(floatValue: real)

  /** A transaction; the spent outputs are only counted. */
  datatype Transaction = Transaction(txid: Txid, hash: Hash, inputs: nat, vout: seq<Vout>, floatFee: real)

  datatype Covenant = Covenant(
    kind: string, burnIncrement: Option<int>, signature: Option<string>, totalBurned: Option<int>,
    claimHeight: Option<int>, expireHeight: Option<int>)

  datatype CreateMeta = CreateMeta(n: int, name: string, covenant: Covenant, value: int, scriptPubKey: string)

  datatype OutputMeta = OutputMeta(
    txid: Txid, n: int, covenant: Covenant, value: int, name: string, scriptPubKey: string)

  datatype UpdateMeta = UpdateMeta(kind: string, priority: int, output: OutputMeta, reason: string)

  datatype ScriptError = ScriptError(kind: string, name: string, reason: string)

  datatype SpendMeta = SpendMeta(n: int, scriptError: Option<ScriptError>)

  datatype MetaTransaction = MetaTransaction(
    txid: Txid, spends: seq<SpendMeta>, creates: seq<CreateMeta>, updates: seq<UpdateMeta>)

  /** What a block hash commits to, and the spaces meta of the block. */
  datatype BlockData = BlockData(height: nat, prev: Hash, txs: seq<Transaction>, meta: seq<MetaTransaction>)

  /** The tree of every block that any branch ever contains. */
  datatype World = World(genesis: Hash, tree: map<Hash, BlockData>)

  ghost predicate ValidWorld(w: World)
  {
    && DEADBEEF !in w.tree
    && forall b | b in w.tree ::
      && (w.tree[b].height == 0 <==> b == w.genesis)
      && (w.tree[b].height > 0 ==> w.tree[b].prev in w.tree && w.tree[w.tree[b].prev].height == w.tree[b].height - 1)
      && |w.tree[b].txs| <= 0x8000_0000
  }

  /** One entry of the verbose mempool. */
  datatype MempoolEntry = MempoolEntry(txid: Txid, depends: seq<Txid>)

  /**
   * The outside world at one operation of the indexer: whether the operation gets through,
   * the node's active chain by height, its mempool in the order Go ranges over it,
   * the transactions it can look up, and its answer to a package check.
   */
  datatype Moment = Moment(
    up: bool, active: seq<Hash>, mempool: seq<MempoolEntry>,
    lookup: map<Txid, Transaction>, package: seq<Option<MetaTransaction>>)

  /** A path in the tree whose first block has height base. */
  ghost predicate Path(w: World, base: nat, chain: seq<Hash>)
  {
    && (forall i | 0 <= i < |chain| :: chain[i] in w.tree && w.tree[chain[i]].height == base + i)
    && (forall i | 0 < i < |chain| :: w.tree[chain[i]].prev == chain[i - 1])
  }

  ghost predicate ValidMoment(w: World, m: Moment)
  {
    && Path(w, 0, m.active)
    && (forall i, j | 0 <= i < j < |m.mempool| :: m.mempool[i].txid != m.mempool[j].txid)
    && (forall x | x in m.lookup :: m.lookup[x].txid == x)
  }

  /** A run of the indexer against the outside world: one moment for each of its operations; then it is stopped. */
  type Script = seq<Moment>

  ghost predicate ValidScript(w: World, s: Script)
  {
    forall i | 0 <= i < |s| :: ValidMoment(w, s[i])
  }

  /** Does the next operation get through? */
  predicate Live(s: Script)
  {
    |s| > 0 && s[0].up
  }

  function Rest(s: Script): (r: Script)
    ensures |r| <= |s|
    ensures s != [] ==> |r| < |s|
  {
    if s == [] then [] else s[1..]
  }

  /** A block as getblock returns it; next is absent at the tip and off the active chain. */
  datatype Block = Block(hash: Hash, height: nat, prev: Hash, txs: seq<Transaction>, next: Option<Hash>)

  function BlockAt(w: World, active: seq<Hash>, hash: Hash): Block
    requires hash in w.tree
  {
    var d := w.tree[hash];
    var next := if d.height + 1 < |active| && active[d.height] == hash then Some(active[d.height + 1]) else None;
    Block(hash, d.height, d.prev, d.txs, next)
  }

  /** The RPC clients. Every operation that can fail or time out takes one moment of the script. */
  class Clients {
    const w: World
    var script: Script

    constructor (w: World, script: Script)
      ensures this.w == w && this.script == script
    {
      this.w := w;
      this.script := script;
    }

    /** An operation other than an RPC: does it get through? */
    method Reach() returns (up: bool)
      modifies this
      ensures up == Live(old(script)) && script == Rest(old(script))
    {
      up := |script| > 0 && script[0].up;
      script := Rest(script);
    }

    method GetBlockHash(height: int) returns (r: Result<Hash>)
      modifies this
      ensures script == Rest(old(script))
      ensures r == BlockHashAnswer(old(script), height)
    {
      r := BlockHashAnswer(script, height);
      script := Rest(script);
    }

    method GetBlock(hash: Hash) returns (r: Result<Block>)
      modifies this
      ensures script == Rest(old(script))
      ensures r == BlockAnswer(w, old(script), hash)
    {
      r := BlockAnswer(w, script, hash);
      script := Rest(script);
    }

    method GetBlockMeta(hash: Hash) returns (r: Result<seq<MetaTransaction>>)
      modifies this
      ensures script == Rest(old(script))
      ensures r == MetaAnswer(w, old(script), hash)
    {
      r := MetaAnswer(w, script, hash);
      script := Rest(script);
    }

    method GetRawMempool() returns (r: Result<seq<MempoolEntry>>)
      modifies this
      ensures script == Rest(old(script))
      ensures r == if Live(old(script)) then Ok(old(script)[0].mempool) else Err(Unavailable)
    {
      r := if Live(script) then Ok(script[0].mempool) else Err(Unavailable);
      script := Rest(script);
    }

    method GetTransaction(txid: Txid) returns (r: Result<Transaction>)
      modifies this
      ensures script == Rest(old(script))
      ensures r == TransactionAnswer(old(script), txid)
    {
      r := TransactionAnswer(script, txid);
      script := Rest(script);
    }

    method CheckPackage() returns (r: Result<seq<Option<MetaTransaction>>>)
      modifies this
      ensures script == Rest(old(script))
      ensures r == if Live(old(script)) then Ok(old(script)[0].package) else Err(Unavailable)
    {
      r := if Live(script) then Ok(script[0].package) else Err(Unavailable);
      script := Rest(script);
    }
  }

  function BlockHashAnswer(s: Script, height: int): Result<Hash>
  {
    if !Live(s) then Err(Unavailable)
    else if 0 <= height < |s[0].active| then Ok(s[0].active[height])
    else Err(OutOfRange)
  }

  function BlockAnswer(w: World, s: Script, hash: Hash): Result<Block>
  {
    if !Live(s) then Err(Unavailable)
    else if hash in w.tree then Ok(BlockAt(w, s[0].active, hash))
    else Err(NotFound)
  }

  function MetaAnswer(w: World, s: Script, hash: Hash): Result<seq<MetaTransaction>>
  {
    if !Live(s) then Err(Unavailable)
    else if hash in w.tree then Ok(w.tree[hash].meta)
    else Err(NotFound)
  }

  function TransactionAnswer(s: Script, txid: Txid): Result<Transaction>
  {
    if !Live(s) then Err(Unavailable)
    else if txid in s[0].lookup then Ok(s[0].lookup[txid])
    else Err(NotFound)
  }
}
