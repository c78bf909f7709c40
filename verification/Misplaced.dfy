/** A mempool round that completes and leaves a transaction's spaces rows twice: the lookup of a later one fails. */
module Misplaced {
  import opened Outcomes
  import opened Node
  import opened Schema
  import opened Batch
  import opened Spaces
  import opened Store
  import opened Sync
  import opened Mempool
  import opened Convergence
  import opened Tally
  import opened Service
  import opened Runs

  function Parent(): Transaction
  {
    Transaction(7, 70, 0, [], 0.0)
  }

  /** The meta of the parent: it creates one space. */
  function ParentMeta(): MetaTransaction
  {
    MetaTransaction(7, [], [CreateMeta(0, "@a", Covenant("", None, None, None, None, None), 1, "")], [])
  }

  /** The node's mempool is 7 and its child 8; only 7 can be looked up, so that the package ends in the meta of 7. */
  function Lookups(): Moment
  {
    Moment(true, [], [MempoolEntry(7, []), MempoolEntry(8, [7])], map[7 := Parent()], [Some(ParentMeta())])
  }

  predicate Looks(s: Script, n: nat)
  {
    |s| >= n && forall i | 0 <= i < n :: s[i] == Lookups()
  }

  function ParentRow(): VMetaOut
  {
    VMetaOut(
      TxKey(DEADBEEF, 7), None, Some("a"), None, Some(1), Some(""), None, None, None, None, None, None, None, Some(7),
      Some(0))
  }

  lemma ParentRows()
    ensures LastMetaRows(Lookups().package) == [Ok(ParentRow())]
  {
    assert "@a"[1..] == "a";
  }

  /** The tables after the first group. */
  function Pooled7(): Tables
  {
    NextIndex(WithTx(Migrated(), Pooled(Migrated(), Parent())))
  }

  lemma FetchesParent(s: Script)
    requires Looks(s, 1)
    ensures FetchGroup(Migrated(), [7], s, 0) == Fetched(None, Pooled7(), s[1..], 1, Some(7))
    ensures TxKey(DEADBEEF, 7) in Pooled7().transactions
  {
    hide RowOf;
    PooledInserted(Migrated(), Parent());
    assert TransactionAnswer(s, 7) == Ok(Parent()) && Rest(s) == s[1..];
  }

  lemma FetchesOnlyParent(t: Tables, s: Script)
    requires Looks(s, 2)
    ensures FetchGroup(t, [7, 8], s, 0) == Fetched(None, t, s[2..], 1, None)
  {
    assert TransactionAnswer(s, 7) == Ok(Parent()) && Rest(s) == s[1..];
    assert TransactionAnswer(s[1..], 8) == Err(NotFound) && Rest(s[1..]) == s[2..];
    assert [7, 8][1..] == [8] && [8][1..] == [];
    hide Pooled, TxViolation, WithTx, NextIndex;
    assert FetchGroup(t, [8], s[1..], 1) == Fetched(None, t, s[2..], 1, None);
  }

  /** The package's rows are stored for the parent, whichever group it was for. */
  lemma InsertsParentRow(t: Tables)
    requires TxKey(DEADBEEF, 7) in t.transactions
    ensures InsertRows(t, [Ok(ParentRow())]) == Step(None, WithMeta(t, ParentRow()))
    ensures AllComputed([Ok(ParentRow())]) && Values([Ok(ParentRow())]) == [ParentRow()]
  {
    assert [Ok(ParentRow())][1..] == [];
    assert InsertRows(WithMeta(t, ParentRow()), []) == Step(None, WithMeta(t, ParentRow()));
  }

  lemma GroupOfParent(s: Script)
    requires Looks(s, 2)
    ensures ProcessTxGroupSpec(Migrated(), [7], s) ==
      GroupOut(Ok(()), WithMeta(Pooled7(), ParentRow()), s[2..], Some(7), [ParentRow()])
  {
    hide FetchGroup, InsertRows, LastMetaRows, ParentRow, Pooled7, Migrated, AllComputed;
    FetchesParent(s);
    ParentRows();
    InsertsParentRow(Pooled7());
    assert Rest(s[1..]) == s[2..];
  }

  lemma GroupOfChild(t: Tables, s: Script)
    requires Looks(s, 3) && TxKey(DEADBEEF, 7) in t.transactions
    ensures ProcessTxGroupSpec(t, [7, 8], s) == GroupOut(Ok(()), WithMeta(t, ParentRow()), s[3..], None, [ParentRow()])
  {
    hide FetchGroup, InsertRows, LastMetaRows, ParentRow, AllComputed;
    FetchesOnlyParent(t, s);
    ParentRows();
    InsertsParentRow(t);
    assert Rest(s[2..]) == s[3..];
  }

  function Misplacing(): seq<PoolCommit>
  {
    [Added(Some(7), [ParentRow()]), Added(None, [ParentRow()])]
  }

  lemma GroupsOfBoth(s: Script)
    requires Looks(s, 9)
    ensures var out := ProcessGroupsSpec(Migrated(), [[7], [7, 8]], s);
      out.result.Ok? && out.log == Misplacing() && out.s == s[9..]
  {
    hide ProcessTxGroupSpec, ParentRow, Migrated, Pooled7;
    var t := WithMeta(Pooled7(), ParentRow());
    FetchesParent(s[1..]);
    GroupOfParent(s[1..]);
    GroupOfChild(t, s[5..]);
    assert Rest(s) == s[1..] && s[1..][2..] == s[3..] && Rest(s[3..]) == s[4..];
    assert Rest(s[4..]) == s[5..] && s[5..][3..] == s[8..] && Rest(s[8..]) == s[9..];
    assert [[7], [7, 8]][1..] == [[7, 8]] && [[7, 8]][1..] == [];
    var u := WithMeta(t, ParentRow());
    assert ProcessGroupsSpec(u, [], s[9..]) == PoolOut(Ok(()), u, s[9..], []);
    assert ProcessGroupsSpec(t, [[7, 8]], s[4..]) == PoolOut(Ok(()), u, s[9..], [Added(None, [ParentRow()])]);
  }

  lemma TwoGroups(d: MempoolEntry, e: MempoolEntry)
    ensures GroupsOf([d, e]) == [GroupOf(d), GroupOf(e)]
  {
    hide GroupOf;
  }

  lemma NothingToProcess()
    ensures ToProcess([], {}) == []
  {
  }

  lemma OneToProcess(groups: seq<seq<Txid>>, g: seq<Txid>)
    requires g != []
    ensures ToProcess(groups + [g], {}) == ToProcess(groups, {}) + [g]
  {
    assert (groups + [g])[..|groups|] == groups;
  }

  lemma GroupsOfLookups()
    ensures GroupsOf(Lookups().mempool) == [[7], [7, 8]] && ToProcess([[7], [7, 8]], {}) == [[7], [7, 8]]
  {
    TwoGroups(MempoolEntry(7, []), MempoolEntry(8, [7]));
    assert GroupOf(MempoolEntry(7, [])) == [7] && GroupOf(MempoolEntry(8, [7])) == [7, 8];
    hide GroupsOf, GroupOf, ToProcess, Parent, ParentMeta;
    NothingToProcess();
    OneToProcess([], [7]);
    OneToProcess([[7]], [7, 8]);
    assert [] + [[7]] == [[7]] && [[7]] + [[7, 8]] == [[7], [7, 8]];
  }

  lemma EmptyPool()
    ensures MempoolTxids(Migrated()) == {}
  {
  }

  /** The round completes. */
  lemma RoundMisplaces(s: Script)
    requires Looks(s, 11)
    ensures SyncMempoolSpec(Migrated(), s).result.Ok? && SyncMempoolSpec(Migrated(), s).log == Misplacing()
    ensures SyncMempoolSpec(Migrated(), s).s == s[11..]
  {
    GroupsOfLookups();
    EmptyPool();
    hide ProcessGroupsSpec, Migrated, GroupsOf, ToProcess, MempoolTxids, Members, ParentRow;
    assert MempoolTxids(Migrated()) - Members([[7], [7, 8]]) == {};
    assert Rest(s) == s[1..] && Rest(s[1..]) == s[2..] && s[2..][9..] == s[11..];
    GroupsOfBoth(s[2..]);
    assert [] + Misplacing() == Misplacing();
  }

  // ---- A run ---------------------------------------------------------------------------

  function Misplacement(): Script
  {
    seq(14, _ => Lookups())
  }

  /** No block exists but the genesis block, which the node does not have yet. */
  function Lonely(): World
  {
    World(1, map[1 := BlockData(0, 0, [], [])])
  }

  lemma MisplacementIsValid()
    ensures ValidWorld(Lonely()) && ValidScript(Lonely(), Misplacement())
  {
    assert ValidMoment(Lonely(), Lookups());
  }

  lemma IdleBlocks(w: World, s: Script)
    requires Looks(s, 2)
    ensures SyncBlocksSpec(w, Config(100, -1), Migrated(), s) == WalkOut(Ok(()), Migrated(), s[2..], [])
  {
    assert IsMaxHeight(Migrated().blocks, MaxHeight(Migrated().blocks)) && Migrated().blocks[DEADBEEF].height == -1;
    hide Migrated;
    assert Rest(s) == s[1..] && Rest(s[1..]) == s[2..];
    assert GetSyncedHeadSpec(Migrated(), s) == Out(Ok(Head(-1, None)), Migrated(), s[1..]);
    assert BlockHashAnswer(s[1..], 0) == Err(OutOfRange);
  }

  lemma MisplacingIsUnfaithful()
    ensures !AllFaithful(Misplacing())
  {
    assert !Faithful(Misplacing()[1]);
  }

  /**
   * The run's one round completes, and the rows of 7 are not those of its insertion once: the package of the group of
   * 8, whose lookup failed, put the row of 7 there again.
   */
  lemma CompletedRoundMisplacesRows()
    ensures var w, cfg, s := Lonely(), Config(100, -1), Misplacement();
      && ValidWorld(w) && ValidScript(w, s)
      && Run(w, cfg, Migrated(), s).turns == [Turn([], Misplacing())]
      && !TalliedThroughout(w, cfg, Migrated(), map[], s)
  {
    MisplacementIsValid();
    MisplacingIsUnfaithful();
    hide Lonely, Migrated, Lookups, ParentRow, SyncMempoolSpec, SyncBlocksSpec, TalliedThroughout, ValidWorld,
      ValidScript, AllFaithful, Misplacing;
    var w, cfg, s := Lonely(), Config(100, -1), Misplacement();
    var blocks := SyncBlocksSpec(w, cfg, Migrated(), s[1..]);
    IdleBlocks(w, s[1..]);
    assert Rest(s) == s[1..] && s[1..][2..] == s[3..] && s[3..][11..] == [];
    assert Live(s) by { LookupsUp(); }
    RoundMisplaces(s[3..]);
    EveryRunIsTalliedIff(w, cfg, s);
    var turns := Run(w, cfg, Migrated(), s).turns;
    assert turns == [Turn([], Misplacing())];
    assert turns[1..] == [] && Misplacing() + [] == Misplacing();
    assert Logs(turns) == Misplacing();
  }

  lemma LookupsUp()
    ensures Lookups().up
  {
  }
}
