/** What rounds of syncMempool do to the sentinel block's transactions, and that they touch nothing else. */
module Convergence {
  import opened Outcomes
  import opened Node
  import opened Schema
  import opened Batch
  import opened Spaces
  import opened Chain
  import opened Accounts
  import opened Mempool

  // ---- The mempool's part of the tables ------------------------------------------------

  /** The sequence descends from -1 and has moved past every index it gave out. */
  ghost predicate Sequenced(t: Tables)
  {
    t.nextIndex < 0 && forall k | k in t.transactions && k.block == DEADBEEF :: t.transactions[k].index > t.nextIndex
  }

  ghost predicate PoolReady(t: Tables)
  {
    Valid(t) && DEADBEEF in t.blocks && Sequenced(t)
  }

  /** Blocks, and every row of a real block, are the same in both. */
  ghost predicate Untouched(t: Tables, u: Tables)
  {
    && u.blocks == t.blocks
    && (forall k: TxKey | k.block != DEADBEEF ::
          (k in t.transactions <==> k in u.transactions)
            && (k in t.transactions ==> u.transactions[k] == t.transactions[k]))
    && (forall b: Hash | b != DEADBEEF :: OfBlock(u.vmetaouts, b) == OfBlock(t.vmetaouts, b))
  }

  lemma UntouchedTwice(t: Tables, u: Tables, v: Tables)
    requires Untouched(t, u) && Untouched(u, v)
    ensures Untouched(t, v)
  {
    hide OfBlock;
  }

  lemma SkippedIndex(t: Tables, n: int)
    requires PoolReady(t) && n <= t.nextIndex
    ensures PoolReady(t.(nextIndex := n)) && Untouched(t, t.(nextIndex := n))
  {
    hide OfBlock;
  }

  // ---- One insertion -------------------------------------------------------------------

  /** The sequence has no minimum, but the column it feeds has. */
  predicate HasIndex(t: Tables)
  {
    t.nextIndex >= -0x8000_0000
  }

  /** A txid that is not stored is inserted as long as the sequence is in the column's range. */
  lemma PooledInserted(t: Tables, tx: Transaction)
    requires PoolReady(t) && tx.txid !in MempoolTxids(t)
    ensures TxViolation(t, Pooled(t, tx)) == if HasIndex(t) then None else Some(IntegerRange)
    ensures HasIndex(t) ==>
      var u := NextIndex(WithTx(t, Pooled(t, tx)));
      PoolReady(u) && Untouched(t, u) && MempoolTxids(u) == MempoolTxids(t) + {tx.txid}
  {
    hide RowOf, OfBlock;
    var p := Pooled(t, tx);
    assert p.key !in t.transactions;
    var u := NextIndex(WithTx(t, p));
    if HasIndex(t) {
      InsertKeepsValid(t, p);
      assert Valid(u);
      forall x | x in MempoolTxids(t) + {tx.txid} ensures x in MempoolTxids(u) {
        assert TxKey(DEADBEEF, x) in u.transactions;
      }
    }
  }

  // ---- One group -----------------------------------------------------------------------

  /** Fetching stores the last transaction, if it arrives and the sequence has an index for it, and nothing else. */
  ghost predicate FetchedLast(t: Tables, group: seq<Txid>, f: Fetched)
    requires group != []
  {
    && (f.violation.Some? ==> f.violation.value == IntegerRange && !HasIndex(t) && f.stored.None?)
    && PoolReady(f.t) && Untouched(t, f.t) && f.t.vmetaouts == t.vmetaouts && f.t.nextIndex <= t.nextIndex
    && (f.stored.Some? ==> f.stored.value == Last(group))
    && MempoolTxids(f.t) == MempoolTxids(t) + (if f.stored.Some? then {Last(group)} else {})
  }

  lemma {:induction false} FetchEffect(w: World, t: Tables, group: seq<Txid>, s: Script, hexes: nat)
    requires ValidScript(w, s) && PoolReady(t) && group != [] && Last(group) !in MempoolTxids(t)
    ensures FetchedLast(t, group, FetchGroup(t, group, s, hexes)) && ValidScript(w, FetchGroup(t, group, s, hexes).s)
    decreases |group|
  {
    hide PoolReady, Untouched, MempoolTxids, RowOf, WithTx, TxViolation, ValidScript, Pooled, NextIndex;
    RestValid(w, s);
    UntouchedSelf(t);
    var answer := TransactionAnswer(s, group[0]);
    assert MempoolTxids(t) + {} == MempoolTxids(t);
    if |group| > 1 {
      assert Last(group[1..]) == Last(group);
      FetchEffect(w, t, group[1..], Rest(s), if answer.Ok? then hexes + 1 else hexes);
    } else if answer.Ok? {
      AnsweredTransaction(w, s, group[0]);
      PooledInserted(t, answer.value);
      PooledFrame(t, answer.value);
      SkippedIndex(t, t.nextIndex - 1);
      SameTxids(t, t.nextIndex - 1);
    }
  }

  lemma UntouchedSelf(t: Tables)
    ensures Untouched(t, t)
  {
  }

  lemma AnsweredTransaction(w: World, s: Script, x: Txid)
    requires ValidScript(w, s) && TransactionAnswer(s, x).Ok?
    ensures TransactionAnswer(s, x).value.txid == x
  {
    assert ValidMoment(w, s[0]);
  }

  lemma PooledFrame(t: Tables, tx: Transaction)
    ensures var u := NextIndex(WithTx(t, Pooled(t, tx))); u.vmetaouts == t.vmetaouts && u.nextIndex == t.nextIndex - 1
    ensures NextIndex(t) == t.(nextIndex := t.nextIndex - 1)
  {
  }

  /** The rows of the last meta are stored under the sentinel block. */
  lemma MetaEffect(t: Tables, rows: seq<Result<VMetaOut>>)
    requires PoolReady(t) && forall i | 0 <= i < |rows| && rows[i].Ok? :: rows[i].value.key.block == DEADBEEF
    requires InsertRows(t, rows).violation.None?
    ensures AllComputed(rows)
    ensures var u := InsertRows(t, rows).t;
      && PoolReady(u) && Untouched(t, u) && u.vmetaouts == t.vmetaouts + Values(rows)
          && u.transactions == t.transactions
      && u.nextIndex == t.nextIndex && MempoolTxids(u) == MempoolTxids(t)
  {
    hide InsertRows;
    InsertRowsExactly(t, rows);
    var u := InsertRows(t, rows).t;
    var vs := Values(rows);
    forall b: Hash | b != DEADBEEF ensures OfBlock(u.vmetaouts, b) == OfBlock(t.vmetaouts, b) {
      OfBlockConcat(t.vmetaouts, vs, b);
      OfBlockUniform(vs, DEADBEEF, b);
      assert OfBlock(t.vmetaouts, b) + [] == OfBlock(t.vmetaouts, b);
    }
  }

  lemma LastMetaKeys(package: seq<Option<MetaTransaction>>)
    ensures forall i | 0 <= i < |LastMetaRows(package)| && LastMetaRows(package)[i].Ok? ::
      LastMetaRows(package)[i].value.key.block == DEADBEEF
  {
    hide MetaRows;
    if |package| > 0 && package[|package| - 1].Some? {
      MetaRowsExactly(DEADBEEF, package[|package| - 1].value);
    }
  }

  /** A processed group: its last transaction, if fetched, and its spaces rows; never a duplicate key. */
  ghost predicate GroupEffect(w: World, t: Tables, group: seq<Txid>, g: GroupOut)
    requires group != []
  {
    && ValidScript(w, g.s)
    && g.result != Err(UniqueViolation)
    && PoolReady(t.(nextIndex := g.t.nextIndex)) && Untouched(t, t.(nextIndex := g.t.nextIndex))
    && (g.result.Ok? ==>
          && PoolReady(g.t) && Untouched(t, g.t)
          && (g.stored.Some? ==> g.stored.value == Last(group))
          && MempoolTxids(g.t) == MempoolTxids(t) + (if g.stored.Some? then {Last(group)} else {})
          && g.t.vmetaouts == t.vmetaouts + g.rows
          && (forall i | 0 <= i < |g.rows| :: g.rows[i].key.block == DEADBEEF))
  }

  lemma LastMetaErrors(package: seq<Option<MetaTransaction>>)
    ensures forall i | 0 <= i < |LastMetaRows(package)| :: LastMetaRows(package)[i] != Err(UniqueViolation)
  {
    hide MetaRows;
    if |package| > 0 && package[|package| - 1].Some? {
      MetaErrors(DEADBEEF, package[|package| - 1].value);
    }
  }

  lemma GroupEffects(w: World, t: Tables, group: seq<Txid>, s: Script)
    requires ValidScript(w, s) && PoolReady(t) && group != [] && Last(group) !in MempoolTxids(t)
    ensures GroupEffect(w, t, group, ProcessTxGroupSpec(t, group, s))
  {
    hide PoolReady, Untouched, MempoolTxids, FetchGroup, InsertRows, LastMetaRows, ValidScript, AllInsertable;
    var f := FetchGroup(t, group, s, 0);
    FetchEffect(w, t, group, s, 0);
    SkippedIndex(t, f.t.nextIndex);
    RestValid(w, f.s);
    assert t.vmetaouts + [] == t.vmetaouts;
    if f.hexes > 0 && Live(f.s) {
      var rows := LastMetaRows(f.s[0].package);
      LastMetaKeys(f.s[0].package);
      LastMetaErrors(f.s[0].package);
      InsertRowsErrors(f.t, rows);
      InsertRowsExactly(f.t, rows);
      if InsertRows(f.t, rows).violation.None? {
        MetaEffect(f.t, rows);
        UntouchedTwice(t, f.t, InsertRows(f.t, rows).t);
      }
    }
  }

  // ---- All groups ----------------------------------------------------------------------

  /** Groups with pairwise distinct last transactions, none of them stored yet. */
  ghost predicate NewLasts(t: Tables, groups: seq<seq<Txid>>)
  {
    && (forall i | 0 <= i < |groups| :: groups[i] != [] && Last(groups[i]) !in MempoolTxids(t))
    && (forall i, j | 0 <= i < j < |groups| :: Last(groups[i]) != Last(groups[j]))
  }

  /** The txids that the log's commits stored. */
  function AddedTxids(log: seq<PoolCommit>): set<Txid>
  {
    set i | 0 <= i < |log| && log[i].Added? && log[i].txid.Some? :: log[i].txid.value
  }

  /** One commit per group from the first on, each storing the group's last transaction or none. */
  ghost predicate LogOf(groups: seq<seq<Txid>>, log: seq<PoolCommit>)
  {
    && |log| <= |groups|
    && (forall i | 0 <= i < |log| ::
          groups[i] != [] && log[i].Added? && (log[i].txid.Some? ==> log[i].txid.value == Last(groups[i])))
  }

  ghost predicate ProcessEffect(w: World, t: Tables, groups: seq<seq<Txid>>, out: PoolOut)
  {
    && ValidScript(w, out.s)
    && out.result != Err(UniqueViolation)
    && PoolReady(out.t) && Untouched(t, out.t)
    && LogOf(groups, out.log) && (out.result.Ok? ==> |out.log| == |groups|)
    && MempoolTxids(out.t) == MempoolTxids(t) + AddedTxids(out.log)
  }

  lemma AddedFirst(c: PoolCommit, log: seq<PoolCommit>)
    requires c.Added?
    ensures AddedTxids([c] + log) == (if c.txid.Some? then {c.txid.value} else {}) + AddedTxids(log)
  {
    var all := [c] + log;
    forall x | x in AddedTxids(log) ensures x in AddedTxids(all) {
      var i :| 0 <= i < |log| && log[i].Added? && log[i].txid.Some? && log[i].txid.value == x;
      assert all[i + 1] == log[i];
    }
    if c.txid.Some? {
      assert all[0] == c;
      assert c.txid.value in AddedTxids(all);
    }
  }

  lemma LogFirst(groups: seq<seq<Txid>>, c: PoolCommit, log: seq<PoolCommit>)
    requires groups != [] && groups[0] != [] && c.Added? && (c.txid.Some? ==> c.txid.value == Last(groups[0]))
    requires LogOf(groups[1..], log)
    ensures LogOf(groups, [c] + log)
  {
    forall i | 0 <= i < |[c] + log|
      ensures groups[i] != [] && ([c] + log)[i].Added?
        && (([c] + log)[i].txid.Some? ==> ([c] + log)[i].txid.value == Last(groups[i]))
    {
      if i > 0 {
        assert groups[1..][i - 1] == groups[i] && ([c] + log)[i] == log[i - 1];
      }
    }
  }

  lemma NewLastsRest(t: Tables, groups: seq<seq<Txid>>, u: Tables, added: set<Txid>)
    requires NewLasts(t, groups) && groups != [] && added <= {Last(groups[0])}
    requires MempoolTxids(u) == MempoolTxids(t) + added
    ensures NewLasts(u, groups[1..])
  {
    hide MempoolTxids;
  }

  lemma {:induction false} ProcessEffects(w: World, t: Tables, groups: seq<seq<Txid>>, s: Script)
    requires ValidScript(w, s) && PoolReady(t) && NewLasts(t, groups)
    ensures ProcessEffect(w, t, groups, ProcessGroupsSpec(t, groups, s))
    decreases |groups|
  {
    hide PoolReady, Untouched, MempoolTxids, ProcessTxGroupSpec, ValidScript, AddedTxids;
    UntouchedSelf(t);
    RestValid(w, s);
    NothingAdded(t);
    if groups != [] && Live(s) {
      var g := ProcessTxGroupSpec(t, groups[0], Rest(s));
      GroupEffects(w, t, groups[0], Rest(s));
      RestValid(w, g.s);
      SameTxids(t, g.t.nextIndex);
      if g.result.Ok? && Live(g.s) {
        NewLastsRest(t, groups, g.t, if g.stored.Some? then {Last(groups[0])} else {});
        ProcessEffects(w, g.t, groups[1..], Rest(g.s));
        var rest := ProcessGroupsSpec(g.t, groups[1..], Rest(g.s));
        UntouchedTwice(t, g.t, rest.t);
        AddedFirst(Added(g.stored, g.rows), rest.log);
        LogFirst(groups, Added(g.stored, g.rows), rest.log);
      }
    }
  }

  lemma NothingAdded(t: Tables)
    ensures MempoolTxids(t) + AddedTxids([]) == MempoolTxids(t) && AddedTxids([]) == {}
  {
  }

  lemma SameTxids(t: Tables, n: int)
    ensures MempoolTxids(t.(nextIndex := n)) == MempoolTxids(t)
  {
  }

  // ---- Cleanup -------------------------------------------------------------------------

  lemma {:induction false} SurvivingOfBlock(vs: seq<VMetaOut>, txids: set<Txid>, b: Hash)
    requires b != DEADBEEF
    ensures OfBlock(Surviving(vs, txids), b) == OfBlock(vs, b)
  {
    if vs != [] {
      var n := |vs| - 1;
      SurvivingOfBlock(vs[..n], txids, b);
      var kept := Surviving(vs[..n], txids);
      assert (kept + [vs[n]])[..|kept|] == kept;
      assert kept + [] == kept;
      assert OfBlock(vs[..n], b) + [] == OfBlock(vs[..n], b);
    }
  }

  lemma DropEffect(t: Tables, txids: set<Txid>)
    requires PoolReady(t)
    ensures PoolReady(Dropped(t, txids)) && Untouched(t, Dropped(t, txids))
    ensures MempoolTxids(Dropped(t, txids)) == MempoolTxids(t) - txids
  {
    hide OfBlock, Surviving;
    DropKeepsValid(t, txids);
    forall b: Hash | b != DEADBEEF ensures OfBlock(Dropped(t, txids).vmetaouts, b) == OfBlock(t.vmetaouts, b) {
      SurvivingOfBlock(t.vmetaouts, txids, b);
    }
  }

  // ---- The node's mempool --------------------------------------------------------------

  /** The keys of the node's mempool. */
  function Keys(entries: seq<MempoolEntry>): set<Txid>
  {
    set e | e in entries :: e.txid
  }

  /** Everything that they depend on. */
  function Depends(entries: seq<MempoolEntry>): set<Txid>
  {
    set e, x | e in entries && x in e.depends :: x
  }

  lemma MembersOfEntries(entries: seq<MempoolEntry>)
    ensures Members(GroupsOf(entries)) == Keys(entries) + Depends(entries)
  {
    var groups := GroupsOf(entries);
    forall x | x in Members(groups) ensures x in Keys(entries) + Depends(entries) {
      var g :| g in groups && x in g;
      var i :| 0 <= i < |groups| && groups[i] == g;
      assert entries[i] in entries;
    }
    forall e | e in entries ensures e.txid in Members(groups) && Elements(e.depends) <= Members(groups) {
      var i :| 0 <= i < |entries| && entries[i] == e;
      assert groups[i] in groups;
      assert e.txid in groups[i];
      forall x | x in e.depends ensures x in Members(groups) {
        assert x in groups[i];
      }
    }
  }

  ghost predicate DistinctKeys(entries: seq<MempoolEntry>)
  {
    forall i, j | 0 <= i < j < |entries| :: entries[i].txid != entries[j].txid
  }

  predicate EndsIn(group: seq<Txid>, x: Txid)
  {
    group != [] && Last(group) == x
  }

  /** The groups end in exactly these txids, each once. */
  ghost predicate EndInEach(groups: seq<seq<Txid>>, txids: set<Txid>)
  {
    && (forall i | 0 <= i < |groups| :: groups[i] != [] && Last(groups[i]) in txids)
    && (forall i, j | 0 <= i < j < |groups| :: Last(groups[i]) != Last(groups[j]))
    && (forall x | x in txids :: exists i :: 0 <= i < |groups| && EndsIn(groups[i], x))
  }

  lemma OneMoreEnd(groups: seq<seq<Txid>>, txids: set<Txid>, group: seq<Txid>)
    requires EndInEach(groups, txids) && group != [] && Last(group) !in txids
    ensures EndInEach(groups + [group], txids + {Last(group)})
  {
    hide Last;
    var all := groups + [group];
    forall i | 0 <= i < |all| ensures all[i] != [] && Last(all[i]) in txids + {Last(group)} {
    }
    forall x | x in txids + {Last(group)} ensures exists i :: 0 <= i < |all| && EndsIn(all[i], x) {
      if x in txids {
        var i := EndOf(groups, txids, x);
        assert EndsIn(all[i], x);
      } else {
        assert EndsIn(all[|groups|], x);
      }
    }
  }

  /** The groups to process end in exactly the new keys. */
  lemma {:induction false} LastsToProcess(entries: seq<MempoolEntry>, existing: set<Txid>)
    requires DistinctKeys(entries)
    ensures EndInEach(ToProcess(GroupsOf(entries), existing), Keys(entries) - existing)
  {
    if entries != [] {
      hide EndInEach;
      var n := |entries| - 1;
      assert GroupsOf(entries)[..n] == GroupsOf(entries[..n]);
      LastsToProcess(entries[..n], existing);
      KeysGrow(entries);
      var before := ToProcess(GroupsOf(entries[..n]), existing);
      if entries[n].txid in existing {
        assert Keys(entries) - existing == Keys(entries[..n]) - existing;
        assert before + [] == before;
      } else {
        assert Keys(entries) - existing == Keys(entries[..n]) - existing + {entries[n].txid};
        OneMoreEnd(before, Keys(entries[..n]) - existing, GroupOf(entries[n]));
      }
    }
  }

  lemma KeysGrow(entries: seq<MempoolEntry>)
    requires entries != [] && DistinctKeys(entries)
    ensures var n := |entries| - 1;
      Keys(entries) == Keys(entries[..n]) + {entries[n].txid} && entries[n].txid !in Keys(entries[..n])
  {
    var n := |entries| - 1;
    assert entries == entries[..n] + [entries[n]];
    assert entries[n] in entries;
  }

  // ---- A round -------------------------------------------------------------------------

  /** Every transaction that was to be added was fetched. */
  ghost predicate AllFetched(log: seq<PoolCommit>)
  {
    forall i | 0 <= i < |log| && log[i].Added? :: log[i].txid.Some?
  }

  /** The commits of groups, without the deletion that may precede them. */
  function GroupLog(log: seq<PoolCommit>): seq<PoolCommit>
  {
    if log != [] && log[0].Removed? then log[1..] else log
  }

  /**
   * A round over the mempool entries, wherever it stops: besides the sentinel block's transactions nothing changes;
   * those are as before, or the ones the node still knows plus some of its new ones.
   */
  ghost predicate RoundEffect(w: World, t: Tables, entries: seq<MempoolEntry>, out: PoolOut)
  {
    var k, d, had := Keys(entries), Depends(entries), MempoolTxids(t);
    && ValidScript(w, out.s)
    && out.result != Err(UniqueViolation)
    && PoolReady(out.t) && Untouched(t, out.t)
    && AddedTxids(GroupLog(out.log)) <= k - had
    && (MempoolTxids(out.t) == had * (k + d) + AddedTxids(GroupLog(out.log))
        || (out.result.Err? && out.t == t && out.log == []))
    && (out.result.Ok? ==>
          MempoolTxids(out.t) == had * (k + d) + AddedTxids(GroupLog(out.log))
          && (AddedTxids(GroupLog(out.log)) == k - had <==> AllFetched(out.log)))
  }

  lemma ThroughScript(w: World, s: Script, n: nat)
    requires ValidScript(w, s)
    ensures ValidScript(w, Through(s, n).s)
    decreases n
  {
    hide ValidScript;
    RestValid(w, s);
    if n > 0 && Live(s) {
      ThroughScript(w, Rest(s), n - 1);
    }
  }

  lemma CleanupScript(w: World, gone: set<Txid>, s: Script)
    requires ValidScript(w, s)
    ensures ValidScript(w, CleanupSpec(gone, s).s)
  {
    hide ValidScript;
    RestValid(w, s);
    var n := Chunks(|gone|);
    ThroughScript(w, Rest(s), n);
    RestValid(w, Through(Rest(s), n).s);
  }

  /** What is added is all of the new keys if and only if no fetch of them failed. */
  lemma AllAddedIff(todo: seq<seq<Txid>>, log: seq<PoolCommit>, txids: set<Txid>)
    requires LogOf(todo, log) && |log| == |todo| && EndInEach(todo, txids)
    ensures AddedTxids(log) == txids <==> AllFetched(log)
  {
    hide LogOf, EndInEach, AddedTxids;
    AddedAreNew(todo, log, txids);
    if AllFetched(log) {
      AllAdded(todo, log, txids);
    } else {
      var i :| 0 <= i < |log| && log[i].Added? && log[i].txid.None?;
      NotAdded(todo, log, txids, i);
    }
  }

  lemma AllAdded(todo: seq<seq<Txid>>, log: seq<PoolCommit>, txids: set<Txid>)
    requires LogOf(todo, log) && |log| == |todo| && EndInEach(todo, txids) && AllFetched(log)
    ensures txids <= AddedTxids(log)
  {
    hide Last, AddedTxids, EndInEach;
    forall x | x in txids ensures x in AddedTxids(log) {
      var i := EndOf(todo, txids, x);
      AddedAt(log, i);
    }
  }

  lemma EndOf(groups: seq<seq<Txid>>, txids: set<Txid>, x: Txid) returns (i: nat)
    requires EndInEach(groups, txids) && x in txids
    ensures i < |groups| && EndsIn(groups[i], x)
  {
    hide EndsIn, Last;
    i :| 0 <= i < |groups| && EndsIn(groups[i], x);
  }

  lemma AddedAt(log: seq<PoolCommit>, i: nat)
    requires i < |log| && log[i].Added? && log[i].txid.Some?
    ensures log[i].txid.value in AddedTxids(log)
  {
  }

  lemma NotAdded(todo: seq<seq<Txid>>, log: seq<PoolCommit>, txids: set<Txid>, i: nat)
    requires LogOf(todo, log) && EndInEach(todo, txids) && i < |log| && log[i].Added? && log[i].txid.None?
    ensures AddedTxids(log) != txids
  {
    hide Last;
    assert Last(todo[i]) in txids;
    assert Last(todo[i]) !in AddedTxids(log);
  }

  lemma AddedAreNew(todo: seq<seq<Txid>>, log: seq<PoolCommit>, txids: set<Txid>)
    requires LogOf(todo, log) && EndInEach(todo, txids)
    ensures AddedTxids(log) <= txids
  {
  }

  lemma EndsAreNew(t: Tables, todo: seq<seq<Txid>>, txids: set<Txid>)
    requires EndInEach(todo, txids) && txids !! MempoolTxids(t)
    ensures NewLasts(t, todo)
  {
    hide MempoolTxids;
  }

  /** Everything from the cleaned state on. */
  lemma AfterCleanup(w: World, t: Tables, entries: seq<MempoolEntry>, s: Script)
    requires ValidScript(w, s) && PoolReady(t) && DistinctKeys(entries)
    ensures var gone := MempoolTxids(t) - Members(GroupsOf(entries));
      var t1 := if gone == {} then t else Dropped(t, gone);
      var todo := ToProcess(GroupsOf(entries), MempoolTxids(t));
      var out := ProcessGroupsSpec(t1, todo, s);
      && ProcessEffect(w, t1, todo, out) && Untouched(t, t1)
      && MempoolTxids(t1) == MempoolTxids(t) * (Keys(entries) + Depends(entries))
      && AddedTxids(out.log) <= Keys(entries) - MempoolTxids(t)
      && (out.result.Ok? ==> (AddedTxids(out.log) == Keys(entries) - MempoolTxids(t) <==> AllFetched(out.log)))
  {
    hide PoolReady, Untouched, MempoolTxids, ValidScript, AddedTxids, ProcessGroupsSpec, GroupsOf, Keys, Depends,
      Dropped, ToProcess, LogOf, AllFetched, EndInEach, Members;
    MembersOfEntries(entries);
    var gone := MempoolTxids(t) - Members(GroupsOf(entries));
    var t1 := if gone == {} then t else Dropped(t, gone);
    DropEffect(t, gone);
    UntouchedSelf(t);
    var todo := ToProcess(GroupsOf(entries), MempoolTxids(t));
    LastsToProcess(entries, MempoolTxids(t));
    assert MempoolTxids(t) - gone == MempoolTxids(t) * Members(GroupsOf(entries));
    EndsAreNew(t1, todo, Keys(entries) - MempoolTxids(t));
    ProcessEffects(w, t1, todo, s);
    var log := ProcessGroupsSpec(t1, todo, s).log;
    AddedAreNew(todo, log, Keys(entries) - MempoolTxids(t));
    if |log| == |todo| {
      AllAddedIff(todo, log, Keys(entries) - MempoolTxids(t));
    }
  }

  lemma RoundEffects(w: World, t: Tables, s: Script)
    requires ValidScript(w, s) && PoolReady(t) && s != []
    ensures RoundEffect(w, t, s[0].mempool, SyncMempoolSpec(t, s))
  {
    hide PoolReady, Untouched, MempoolTxids, ValidScript, AddedTxids, ProcessGroupsSpec, CleanupSpec, GroupsOf, Keys,
      Depends, Dropped, ToProcess, Members, LogOf;
    var entries := s[0].mempool;
    UntouchedSelf(t);
    NothingAdded(t);
    RestValid(w, s);
    RestValid(w, Rest(s));
    var out := SyncMempoolSpec(t, s);
    if Live(s) && Live(Rest(s)) {
      EntriesDistinct(w, s);
      var gone := MempoolTxids(t) - Members(GroupsOf(entries));
      CleanupScript(w, gone, Rest(Rest(s)));
      var cleaned := CleanupSpec(gone, Rest(Rest(s)));
      if cleaned.ok {
        AfterCleanup(w, t, entries, cleaned.s);
        var t1 := if gone == {} then t else Dropped(t, gone);
        var rest := ProcessGroupsSpec(t1, ToProcess(GroupsOf(entries), MempoolTxids(t)), cleaned.s);
        UntouchedTwice(t, t1, rest.t);
        GroupLogOf(gone, ToProcess(GroupsOf(entries), MempoolTxids(t)), rest.log);
        assert out.log == (if gone == {} then [] else [Removed(gone)]) + rest.log;
      }
    }
  }

  lemma GroupLogOf(gone: set<Txid>, todo: seq<seq<Txid>>, log: seq<PoolCommit>)
    requires LogOf(todo, log)
    ensures var all := (if gone == {} then [] else [Removed(gone)]) + log;
      GroupLog(all) == log && (AllFetched(all) <==> AllFetched(log))
  {
    var all := (if gone == {} then [] else [Removed(gone)]) + log;
    if gone == {} {
      assert all == log;
    } else {
      assert all[1..] == log;
      assert forall i | 0 <= i < |log| :: all[i + 1] == log[i];
    }
  }

  lemma EntriesDistinct(w: World, s: Script)
    requires ValidScript(w, s) && s != []
    ensures DistinctKeys(s[0].mempool)
  {
    assert ValidMoment(w, s[0]);
  }
}
