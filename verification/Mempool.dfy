/** cmd/sync/mempool.go: making the sentinel block's transactions those of the node's mempool. */
module Mempool {
  import opened Outcomes
  import opened Node
  import opened Schema
  import opened Database
  import opened Batch
  import opened Spaces
  import Amounts

  // ---- Groups --------------------------------------------------------------------------

  function GroupOf(e: MempoolEntry): (group: seq<Txid>)
    ensures group != []
  {
    e.depends + [e.txid]
  }

  function GroupsOf(entries: seq<MempoolEntry>): seq<seq<Txid>>
  {
    seq(|entries|, i requires 0 <= i < |entries| => GroupOf(entries[i]))
  }

  function Last(group: seq<Txid>): Txid
    requires group != []
  {
    group[|group| - 1]
  }

  /** The range statement visits the entries in some order; every order is a script of its own. */
  method GetMempoolTxIds(c: Clients) returns (r: Result<seq<seq<Txid>>>)
    modifies c
    ensures c.script == Rest(old(c.script))
    ensures r == if Live(old(c.script)) then Ok(GroupsOf(old(c.script)[0].mempool)) else Err(Unavailable)
    ensures r.Ok? ==>
      var entries := old(c.script)[0].mempool;
      && |r.value| == |entries|
      && forall i | 0 <= i < |entries| :: r.value[i] == entries[i].depends + [entries[i].txid]
  {
    var response := c.GetRawMempool();
    if response.Err? {
      return Err(response.error);
    }
    var entries := response.value;
    var orderedGroups: seq<seq<Txid>> := [];
    for i := 0 to |entries|
      invariant orderedGroups == GroupsOf(entries)[..i]
    {
      if |entries[i].depends| == 0 {
        assert GroupOf(entries[i]) == [entries[i].txid];
        orderedGroups := orderedGroups + [[entries[i].txid]];
      } else {
        var group := entries[i].depends;
        group := group + [entries[i].txid];
        orderedGroups := orderedGroups + [group];
      }
      assert GroupsOf(entries)[..i + 1] == GroupsOf(entries)[..i] + [GroupsOf(entries)[i]];
    }
    assert GroupsOf(entries)[..|entries|] == GroupsOf(entries);
    r := Ok(orderedGroups);
  }

  // ---- One group -----------------------------------------------------------------------

  /** The outcome of fetching a group: how many transactions arrived, and whether the last was stored. */
  datatype Fetched = Fetched(violation: Option<Error>, t: Tables, s: Script, hexes: nat, stored: Option<Txid>)

  function Pooled(t: Tables, tx: Transaction): NewTx
  {
    NewTx(TxKey(DEADBEEF, tx.txid), RowOf(tx, 0).(index := t.nextIndex))
  }

  function NextIndex(t: Tables): Tables
  {
    t.(nextIndex := t.nextIndex - 1)
  }

  function FetchGroup(t: Tables, group: seq<Txid>, s: Script, hexes: nat): (f: Fetched)
    ensures |f.s| <= |s|
    decreases |group|
  {
    if group == [] then Fetched(None, t, s, hexes, None)
    else
      var answer := TransactionAnswer(s, group[0]);
      if answer.Err? then FetchGroup(t, group[1..], Rest(s), hexes)
      else if |group| > 1 then FetchGroup(t, group[1..], Rest(s), hexes + 1)
      else
        var p := Pooled(t, answer.value);
        var v := TxViolation(t, p);
        if v.Some? then Fetched(v, NextIndex(t), Rest(s), hexes + 1, None)
        else Fetched(None, NextIndex(WithTx(t, p)), Rest(s), hexes + 1, Some(answer.value.txid))
  }

  /** The outcome of one group's transaction before it commits; rows are the spaces rows it inserted. */
  datatype GroupOut = GroupOut(result: Result<()>, t: Tables, s: Script, stored: Option<Txid>, rows: seq<VMetaOut>)

  /** The rows of the last meta of a package answer, if there is one. */
  function LastMetaRows(package: seq<Option<MetaTransaction>>): seq<Result<VMetaOut>>
  {
    if |package| > 0 && package[|package| - 1].Some? then MetaRows(DEADBEEF, package[|package| - 1].value) else []
  }

  ghost function ProcessTxGroupSpec(t: Tables, group: seq<Txid>, s: Script): (out: GroupOut)
    ensures |out.s| <= |s|
  {
    var f := FetchGroup(t, group, s, 0);
    if f.violation.Some? then GroupOut(Err(f.violation.value), f.t, f.s, None, [])
    else if f.hexes == 0 then GroupOut(Ok(()), f.t, f.s, f.stored, [])
    else if !Live(f.s) then GroupOut(Err(Unavailable), f.t, Rest(f.s), None, [])
    else
      var rows := LastMetaRows(f.s[0].package);
      var step := InsertRows(f.t, rows);
      if step.violation.Some? then GroupOut(Err(step.violation.value), step.t, Rest(f.s), None, [])
      else if AllComputed(rows) then GroupOut(Ok(()), step.t, Rest(f.s), f.stored, Values(rows))
      else GroupOut(Ok(()), step.t, Rest(f.s), f.stored, [])
  }

  /** Sentinel transactions take the index from the sequence; for a real block the caller gives it. */
  method StoreTransaction(db: Connection, tx: Transaction, block: Hash, txIndex: Option<int>)
    returns (violation: Option<Error>)
    requires db.Sound() && (block != DEADBEEF ==> txIndex.Some?)
    modifies db
    ensures db.Sound() && db.saved == old(db.saved)
    ensures block == DEADBEEF ==>
      var p := Pooled(old(db.State()), tx);
      violation == TxViolation(old(db.State()), p)
      && db.State() == NextIndex(if violation.None? then WithTx(old(db.State()), p) else old(db.State()))
    ensures block != DEADBEEF ==>
      var p := NewTx(TxKey(block, tx.txid), RowOf(tx, 0).(index := txIndex.value));
      violation == TxViolation(old(db.State()), p)
      && db.State() == if violation.None? then WithTx(old(db.State()), p) else old(db.State())
    ensures violation.None? ==>
      var key := TxKey(block, tx.txid);
      && key in db.transactions && Shows(db.transactions[key], tx)
      && db.transactions[key].index == if block == DEADBEEF then old(db.nextIndex) else txIndex.value
  {
    hide RowOf, Shows;
    RowShows(tx);
    var inputCount, outputCount, total := CalculateAggregates(tx);
    var row := TxRow(tx.hash, Int64(Amounts.Satoshis(tx.floatFee)), 0, inputCount, outputCount, total);
    assert row == RowOf(tx, 0).(index := 0) by { RowParts(tx); }
    if block != DEADBEEF {
      violation := db.InsertTransaction(NewTx(TxKey(block, tx.txid), row.(index := txIndex.value)));
    } else {
      violation := db.InsertMempoolTransaction(TxKey(block, tx.txid), row);
    }
  }

  /** Whatever its index. */
  lemma RowShows(tx: Transaction)
    ensures forall i :: Shows(RowOf(tx, 0).(index := i), tx)
  {
    RowOfShows(tx, 0);
    hide RowOf, Low32, Low64, Encodes, Amounts.JsonAmount, Sum;
  }

  lemma RowParts(tx: Transaction)
    ensures RowOf(tx, 0).(index := 0) ==
      TxRow(tx.hash, Int64(Amounts.Satoshis(tx.floatFee)), 0, Int32(tx.inputs), Int32(|tx.vout|),
        Int64(OutputSum(tx.vout)))
  {
  }

  method ProcessTxGroup(db: Connection, c: Clients, group: seq<Txid>)
    returns (r: Result<()>, ghost stored: Option<Txid>, ghost rows: seq<VMetaOut>)
    requires db.Sound()
    modifies db, c
    ensures db.Sound() && db.saved == old(db.saved)
    ensures GroupOut(r, db.State(), c.script, stored, rows) == ProcessTxGroupSpec(old(db.State()), group, old(c.script))
  {
    hide TxViolation, RowOf, WithTx;
    var hexes := 0;
    stored, rows := None, [];
    ghost var t0, s0 := db.State(), c.script;
    for i := 0 to |group|
      invariant db.Sound() && db.saved == old(db.saved)
      invariant i < |group| ==> stored.None?
      invariant i < |group| ==> FetchGroup(t0, group, s0, 0) == FetchGroup(db.State(), group[i..], c.script, hexes)
      invariant i == |group| ==> FetchGroup(t0, group, s0, 0) == Fetched(None, db.State(), c.script, hexes, stored)
    {
      var tx := c.GetTransaction(group[i]);
      if tx.Err? {
        continue;
      }
      hexes := hexes + 1;
      if i == |group| - 1 {
        var violation := StoreTransaction(db, tx.value, DEADBEEF, None);
        if violation.Some? {
          return Err(violation.value), None, [];
        }
        stored := Some(tx.value.txid);
      }
    }
    if hexes > 0 {
      var metaTxs := c.CheckPackage();
      if metaTxs.Err? {
        return Err(metaTxs.error), None, [];
      }
      var n := |metaTxs.value|;
      if n > 0 && metaTxs.value[n - 1].Some? {
        var violation := StoreSpacesTransaction(db, metaTxs.value[n - 1].value, DEADBEEF);
        if violation.Some? {
          return Err(violation.value), None, [];
        }
      }
      ghost var all := LastMetaRows(metaTxs.value);
      rows := if AllComputed(all) then Values(all) else [];
    }
    r := Ok(());
  }

  // ---- Cleanup -------------------------------------------------------------------------

  /** Do the next n operations get through? Stops at the first that does not. */
  datatype Passed = Passed(ok: bool, s: Script)

  function Through(s: Script, n: nat): (p: Passed)
    ensures |p.s| <= |s|
  {
    if n == 0 then Passed(true, s) else if !Live(s) then Passed(false, Rest(s)) else Through(Rest(s), n - 1)
  }

  /** The DELETE statements for n txids. */
  function Chunks(n: nat): (c: nat)
    ensures 500 * (c - 1) < n <= 500 * c || n == c == 0
  {
    (n + 499) / 500
  }

  /** A transaction around the chunks, or nothing at all if there is nothing to delete. */
  function CleanupSpec(gone: set<Txid>, s: Script): (out: Passed)
    ensures |out.s| <= |s|
  {
    if gone == {} then Passed(true, s)
    else if !Live(s) then Passed(false, Rest(s))
    else
      var deleted := Through(Rest(s), Chunks(|gone|));
      if !deleted.ok then deleted else Passed(Live(deleted.s), Rest(deleted.s))
  }

  lemma {:induction false} SurvivingTwice(vs: seq<VMetaOut>, a: set<Txid>, b: set<Txid>)
    ensures Surviving(Surviving(vs, a), b) == Surviving(vs, a + b)
  {
    if vs != [] {
      var n := |vs| - 1;
      SurvivingTwice(vs[..n], a, b);
      var kept := Surviving(vs[..n], a);
      assert (kept + [vs[n]])[..|kept|] == kept;
      assert kept + [] == kept;
    }
  }

  lemma DroppedTwice(t: Tables, a: set<Txid>, b: set<Txid>)
    ensures Dropped(Dropped(t, a), b) == Dropped(t, a + b)
  {
    SurvivingTwice(t.vmetaouts, a, b);
    assert Dropped(Dropped(t, a), b).transactions == Dropped(t, a + b).transactions;
  }

  lemma {:induction false} NoneDropped(vs: seq<VMetaOut>)
    ensures Surviving(vs, {}) == vs
  {
    if vs != [] {
      NoneDropped(vs[..|vs| - 1]);
    }
  }

  lemma NothingDropped(t: Tables)
    ensures Dropped(t, {}) == t
  {
    NoneDropped(t.vmetaouts);
    assert Dropped(t, {}).transactions == t.transactions;
  }

  function Left(total: nat, i: nat): nat
  {
    if i < total then total - i else 0
  }

  lemma ChunkStep(s: Script, total: nat, i: nat)
    requires i < total
    ensures Through(s, Chunks(Left(total, i))) ==
      if Live(s) then Through(Rest(s), Chunks(Left(total, i + 500))) else Passed(false, Rest(s))
  {
  }

  lemma ElementsSplit(xs: seq<Txid>, i: nat, end: nat)
    requires i <= end <= |xs|
    ensures Elements(xs[..i]) + Elements(xs[i..end]) == Elements(xs[..end])
  {
    assert xs[..end] == xs[..i] + xs[i..end];
  }

  /** Deletes in place, chunk by chunk, within the open transaction. */
  method DeleteInChunks(db: Connection, c: Clients, toDelete: seq<Txid>) returns (ok: bool)
    requires db.Sound()
    modifies db, c
    ensures db.Sound() && db.saved == old(db.saved) && db.nextIndex == old(db.nextIndex)
    ensures Passed(ok, c.script) == Through(old(c.script), Chunks(|toDelete|))
    ensures ok ==> db.State() == Dropped(old(db.State()), Elements(toDelete))
  {
    ghost var t0, s0 := db.State(), c.script;
    NothingDropped(t0);
    assert Elements(toDelete[..0]) == {};
    assert toDelete[..|toDelete|] == toDelete;
    hide Dropped, Elements, Chunks, Valid;
    var i := 0;
    ghost var done := 0;
    while i < |toDelete|
      invariant 0 <= i && done == if i < |toDelete| then i else |toDelete|
      invariant db.Sound() && db.saved == old(db.saved) && db.nextIndex == old(db.nextIndex)
      invariant Through(s0, Chunks(|toDelete|)) == Through(c.script, Chunks(Left(|toDelete|, i)))
      invariant db.State() == Dropped(t0, Elements(toDelete[..done]))
      decreases |toDelete| - i
    {
      var end := i + 500;
      if end > |toDelete| {
        end := |toDelete|;
      }
      ChunkStep(c.script, |toDelete|, i);
      var up := c.Reach();
      if !up {
        assert db.nextIndex == old(db.nextIndex);
        return false;
      }
      ElementsSplit(toDelete, i, end);
      DroppedTwice(t0, Elements(toDelete[..i]), Elements(toDelete[i..end]));
      DroppedFrame(db.State(), Elements(toDelete[i..end]));
      db.DeleteMempoolTransactionsByTxids(toDelete[i..end]);
      i := i + 500;
      done := end;
    }
    assert Chunks(0) == 0 by { NoChunks(); }
    ok := true;
  }

  lemma NoChunks()
    ensures Chunks(0) == 0
  {
  }

  lemma DroppedFrame(t: Tables, txids: set<Txid>)
    ensures Dropped(t, txids).nextIndex == t.nextIndex && Dropped(t, txids).blocks == t.blocks
  {
  }

  lemma VanishedStep(existing: set<Txid>, left: set<Txid>, node: set<Txid>, x: Txid)
    requires x in left && left <= existing
    ensures var done, after := existing - left - node, existing - (left - {x}) - node;
      after == (if x in node then done else done + {x}) && x !in done
  {
  }

  lemma NoElements(xs: seq<Txid>)
    requires xs == []
    ensures Elements(xs) == {}
  {
  }

  lemma OneMore(xs: seq<Txid>, x: Txid)
    ensures Elements(xs + [x]) == Elements(xs) + {x}
  {
  }

  /** The range over the map visits its keys in some order; only the set of what it collects matters. */
  method Vanished(nodeMempoolTxs: set<Txid>, existing: set<Txid>) returns (toDelete: seq<Txid>)
    ensures Elements(toDelete) == existing - nodeMempoolTxs
    ensures |toDelete| == |existing - nodeMempoolTxs|
  {
    hide Elements;
    toDelete := [];
    var left := existing;
    NoElements(toDelete);
    while left != {}
      invariant left <= existing
      invariant Elements(toDelete) == existing - left - nodeMempoolTxs
      invariant |toDelete| == |existing - left - nodeMempoolTxs|
      decreases left
    {
      var x :| x in left;
      VanishedStep(existing, left, nodeMempoolTxs, x);
      if x !in nodeMempoolTxs {
        OneMore(toDelete, x);
        toDelete := toDelete + [x];
      }
      left := left - {x};
    }
    assert existing - {} - nodeMempoolTxs == existing - nodeMempoolTxs;
  }

  method CleanupMempoolTxs(db: Connection, c: Clients, nodeMempoolTxs: set<Txid>, existing: set<Txid>)
    returns (ok: bool)
    requires db.Sound() && db.saved.None?
    modifies db, c
    ensures db.Sound() && db.saved.None?
    ensures Passed(ok, c.script) == CleanupSpec(existing - nodeMempoolTxs, old(c.script))
    ensures db.State() ==
      if ok && existing - nodeMempoolTxs != {} then Dropped(old(db.State()), existing - nodeMempoolTxs)
      else old(db.State())
  {
    hide Dropped;
    var toDelete := Vanished(nodeMempoolTxs, existing);
    if |toDelete| > 0 {
      assert toDelete[0] in Elements(toDelete);
      var up := c.Reach();
      if !up {
        return false;
      }
      db.Begin();
      ok := DeleteInChunks(db, c, toDelete);
      if !ok {
        db.Rollback();
        return;
      }
      up := c.Reach();
      if !up {
        db.Rollback();
        return false;
      }
      db.Commit();
    } else {
      assert toDelete == [] && Elements(toDelete) == {};
    }
    ok := true;
  }

  // ---- A round of syncMempool ----------------------------------------------------------

  /** A committed transaction of a round: a deletion, or one group with the txid and spaces rows it stored. */
  datatype PoolCommit = Removed(txids: set<Txid>) | Added(txid: Option<Txid>, rows: seq<VMetaOut>)

  datatype PoolOut = PoolOut(result: Result<()>, t: Tables, s: Script, log: seq<PoolCommit>)

  function Logged(before: seq<PoolCommit>, out: PoolOut): PoolOut
  {
    out.(log := before + out.log)
  }

  /** One transaction per group; a failed one is rolled back, but not the sequence. */
  ghost function ProcessGroupsSpec(t: Tables, groups: seq<seq<Txid>>, s: Script): (out: PoolOut)
    ensures |out.s| <= |s|
    decreases |groups|
  {
    if groups == [] then PoolOut(Ok(()), t, s, [])
    else if !Live(s) then PoolOut(Err(Unavailable), t, Rest(s), [])
    else
      var g := ProcessTxGroupSpec(t, groups[0], Rest(s));
      if g.result.Err? then PoolOut(g.result, t.(nextIndex := g.t.nextIndex), g.s, [])
      else if !Live(g.s) then PoolOut(Err(Unavailable), t.(nextIndex := g.t.nextIndex), Rest(g.s), [])
      else Logged([Added(g.stored, g.rows)], ProcessGroupsSpec(g.t, groups[1..], Rest(g.s)))
  }

  /** Every txid of the groups. */
  function Members(groups: seq<seq<Txid>>): set<Txid>
  {
    set g, x | g in groups && x in g :: x
  }

  /** The groups whose last transaction the database did not have. */
  function ToProcess(groups: seq<seq<Txid>>, existing: set<Txid>): seq<seq<Txid>>
  {
    if groups == [] then []
    else
      var n := |groups| - 1;
      ToProcess(groups[..n], existing) +
      (if groups[n] == [] || Last(groups[n]) in existing then [] else [groups[n]])
  }

  ghost function SyncMempoolSpec(t: Tables, s: Script): (out: PoolOut)
    ensures |out.s| <= |s|
  {
    if !Live(s) then PoolOut(Err(Unavailable), t, Rest(s), [])
    else if !Live(Rest(s)) then PoolOut(Err(Unavailable), t, Rest(Rest(s)), [])
    else
      var groups := GroupsOf(s[0].mempool);
      var existing := MempoolTxids(t);
      var gone := existing - Members(groups);
      var cleaned := CleanupSpec(gone, Rest(Rest(s)));
      if !cleaned.ok then PoolOut(Err(Unavailable), t, cleaned.s, [])
      else Logged(
        if gone == {} then [] else [Removed(gone)],
        ProcessGroupsSpec(if gone == {} then t else Dropped(t, gone), ToProcess(groups, existing), cleaned.s))
  }

  method ProcessGroups(db: Connection, c: Clients, groups: seq<seq<Txid>>)
    returns (r: Result<()>, ghost log: seq<PoolCommit>)
    requires db.Sound() && db.saved.None?
    modifies db, c
    ensures db.Sound() && db.saved.None?
    ensures PoolOut(r, db.State(), c.script, log) == ProcessGroupsSpec(old(db.State()), groups, old(c.script))
  {
    hide ProcessTxGroupSpec;
    log := [];
    ghost var t0, s0 := db.State(), c.script;
    assert groups[0..] == groups;
    for i := 0 to |groups|
      invariant db.Sound() && db.saved.None?
      invariant ProcessGroupsSpec(t0, groups, s0) == Logged(log, ProcessGroupsSpec(db.State(), groups[i..], c.script))
    {
      assert log + [] == log;
      var up := c.Reach();
      if !up {
        return Err(Unavailable), log;
      }
      db.Begin();
      ghost var stored, rows;
      r, stored, rows := ProcessTxGroup(db, c, groups[i]);
      if r.Err? {
        db.Rollback();
        return;
      }
      up := c.Reach();
      if !up {
        db.Rollback();
        return Err(Unavailable), log;
      }
      db.Commit();
      LoggedTwice(log, Added(stored, rows), ProcessGroupsSpec(db.State(), groups[i + 1..], c.script));
      log := log + [Added(stored, rows)];
    }
    assert log + [] == log;
    r := Ok(());
  }

  lemma LoggedTwice(log: seq<PoolCommit>, last: PoolCommit, out: PoolOut)
    ensures Logged(log, Logged([last], out)) == Logged(log + [last], out)
  {
    assert log + ([last] + out.log) == log + [last] + out.log;
  }

  method SyncMempool(db: Connection, c: Clients) returns (r: Result<()>, ghost log: seq<PoolCommit>)
    requires db.Sound() && db.saved.None?
    modifies db, c
    ensures db.Sound() && db.saved.None?
    ensures PoolOut(r, db.State(), c.script, log) == SyncMempoolSpec(old(db.State()), old(c.script))
  {
    hide ProcessGroupsSpec, CleanupSpec, Dropped, MempoolTxids, GroupsOf;
    log := [];
    var currentGroups := GetMempoolTxIds(c);
    if currentGroups.Err? {
      return Err(currentGroups.error), log;
    }
    var groups := currentGroups.value;
    var nodeMempoolTxs := NodeMempoolTxs(groups);
    var up := c.Reach();
    if !up {
      return Err(Unavailable), log;
    }
    var existingTxids := db.GetMempoolTxids();
    var existing := Elements(existingTxids);
    ghost var gone := existing - nodeMempoolTxs;
    up := CleanupMempoolTxs(db, c, nodeMempoolTxs, existing);
    if !up {
      return Err(Unavailable), log;
    }
    var groupsToProcess := FilterGroups(groups, existing);
    r, log := ProcessGroups(db, c, groupsToProcess);
    log := (if gone == {} then [] else [Removed(gone)]) + log;
  }

  lemma MembersGrow(groups: seq<seq<Txid>>, i: nat)
    requires i < |groups|
    ensures Members(groups[..i + 1]) == Members(groups[..i]) + Elements(groups[i])
  {
    assert groups[..i + 1] == groups[..i] + [groups[i]];
    forall x | x in Elements(groups[i]) ensures x in Members(groups[..i + 1]) {
      assert groups[i] in groups[..i + 1];
    }
  }

  /** The map of the node's mempool txids. */
  method NodeMempoolTxs(groups: seq<seq<Txid>>) returns (txids: set<Txid>)
    ensures txids == Members(groups)
  {
    txids := {};
    for i := 0 to |groups|
      invariant txids == Members(groups[..i])
    {
      MembersGrow(groups, i);
      for j := 0 to |groups[i]|
        invariant txids == Members(groups[..i]) + Elements(groups[i][..j])
      {
        assert groups[i][..j + 1] == groups[i][..j] + [groups[i][j]];
        txids := txids + {groups[i][j]};
      }
      assert groups[i][..|groups[i]|] == groups[i];
    }
    assert groups[..|groups|] == groups;
  }

  method FilterGroups(groups: seq<seq<Txid>>, existing: set<Txid>) returns (todo: seq<seq<Txid>>)
    ensures todo == ToProcess(groups, existing)
  {
    todo := [];
    for i := 0 to |groups|
      invariant todo == ToProcess(groups[..i], existing)
    {
      assert groups[..i + 1][..i] == groups[..i];
      if |groups[i]| == 0 {
        continue;
      }
      if Last(groups[i]) !in existing {
        todo := todo + [groups[i]];
      }
    }
    assert groups[..|groups|] == groups;
  }
}
