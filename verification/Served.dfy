/** What the sentinel block's rows say: the transactions and last metas that the nodes answered. */
module Served {
  import opened Outcomes
  import opened Node
  import opened Schema
  import opened Batch
  import opened Spaces
  import opened Store
  import opened Sync
  import opened Chain
  import opened Accounts
  import opened Mempool
  import opened Convergence
  import opened Service
  import opened Runs
  import opened Backfill
  import opened Histories

  // ---- One group -----------------------------------------------------------------------

  /** The lookup of x at the i-th moment succeeds. */
  predicate Answers(s: Script, i: nat, x: Txid)
  {
    i < |s| && s[i].up && x in s[i].lookup
  }

  /** The transaction's row and no other is added, under the next index of the sequence. */
  ghost predicate RowAdded(t: Tables, tx: Transaction, u: Tables)
  {
    var key := TxKey(DEADBEEF, tx.txid);
    && key !in t.transactions && key in u.transactions
    && u.transactions == t.transactions[key := u.transactions[key]]
    && Shows(u.transactions[key], tx) && u.transactions[key].index == t.nextIndex
  }

  lemma PooledShows(t: Tables, tx: Transaction)
    requires TxViolation(t, Pooled(t, tx)).None?
    ensures RowAdded(t, tx, NextIndex(WithTx(t, Pooled(t, tx))))
  {
    RowShows(tx);
    hide RowOf, Shows;
    assert Shows(RowOf(tx, 0).(index := t.nextIndex), tx);
  }

  /** The script after the first n moments. */
  function After(s: Script, n: nat): Script
  {
    if n <= |s| then s[n..] else []
  }

  /** Where fetching a group ends: the last transaction's row if it was served, and nothing else. */
  ghost predicate FetchedRow(t: Tables, group: seq<Txid>, s: Script, hexes: nat, f: Fetched)
    requires group != []
  {
    var n := |group| - 1;
    && f.s == After(s, |group|) && f.t.vmetaouts == t.vmetaouts && f.t.blocks == t.blocks
    && f.hexes >= hexes && (f.hexes > hexes <==> exists i | 0 <= i <= n :: Answers(s, i, group[i]))
    && (f.violation.None? ==>
          if Answers(s, n, Last(group)) then
            var tx := s[n].lookup[Last(group)];
            f.stored == Some(tx.txid) && RowAdded(t, tx, f.t)
          else f.stored.None? && f.t.transactions == t.transactions)
  }

  lemma FetchedRest(t: Tables, group: seq<Txid>, s: Script, hexes: nat, more: nat, f: Fetched)
    requires |group| > 1 && hexes <= more <= hexes + 1
    requires more > hexes <==> Answers(s, 0, group[0])
    requires FetchedRow(t, group[1..], Rest(s), more, f)
    ensures FetchedRow(t, group, s, hexes, f)
  {
    hide RowAdded;
    var n := |group| - 1;
    assert Last(group[1..]) == Last(group);
    forall i | 0 < i <= n ensures Answers(s, i, group[i]) <==> Answers(Rest(s), i - 1, group[1..][i - 1]) {
    }
    if exists i | 0 <= i <= n :: Answers(s, i, group[i]) {
      var i :| 0 <= i <= n && Answers(s, i, group[i]);
      assert i == 0 || Answers(Rest(s), i - 1, group[1..][i - 1]);
    }
    if exists i | 0 <= i <= n - 1 :: Answers(Rest(s), i, group[1..][i]) {
      var i :| 0 <= i <= n - 1 && Answers(Rest(s), i, group[1..][i]);
      assert Answers(s, i + 1, group[i + 1]);
    }
  }

  lemma {:induction false} FetchRow(t: Tables, group: seq<Txid>, s: Script, hexes: nat)
    requires group != []
    ensures FetchedRow(t, group, s, hexes, FetchGroup(t, group, s, hexes))
    decreases |group|
  {
    hide TxViolation, Pooled, WithTx, NextIndex, RowAdded;
    var answer := TransactionAnswer(s, group[0]);
    assert answer.Ok? <==> Answers(s, 0, group[0]);
    if |group| > 1 {
      var more := if answer.Ok? then hexes + 1 else hexes;
      FetchRow(t, group[1..], Rest(s), more);
      hide FetchedRow;
      FetchedRest(t, group, s, hexes, more, FetchGroup(t, group[1..], Rest(s), more));
    } else {
      assert group[1..] == [];
      NextFrame(t);
      if answer.Ok? {
        PooledStored(t, answer.value);
      }
    }
  }

  lemma NextFrame(t: Tables)
    ensures NextIndex(t).vmetaouts == t.vmetaouts && NextIndex(t).blocks == t.blocks
  {
  }

  lemma PooledStored(t: Tables, tx: Transaction)
    ensures var u := NextIndex(WithTx(t, Pooled(t, tx)));
      && u.vmetaouts == t.vmetaouts && u.blocks == t.blocks
      && (TxViolation(t, Pooled(t, tx)).None? ==> RowAdded(t, tx, u))
  {
    if TxViolation(t, Pooled(t, tx)).None? {
      PooledShows(t, tx);
    }
    hide RowAdded, RowOf, TxViolation;
  }

  /** The package's last meta is listed, if it is present; otherwise nothing is. */
  ghost predicate LastListed(rows: seq<VMetaOut>, package: seq<Option<MetaTransaction>>)
  {
    if package != [] && package[|package| - 1].Some? then MetaListed(rows, DEADBEEF, package[|package| - 1].value)
    else rows == []
  }

  /**
   * A successful group: the row of its last transaction as served, if it was; and, if any transaction was served, the
   * rows of the last meta that the package answers at the next moment.
   */
  lemma GroupStores(t: Tables, group: seq<Txid>, s: Script)
    requires group != [] && ProcessTxGroupSpec(t, group, s).result.Ok?
    ensures var g := ProcessTxGroupSpec(t, group, s);
      var n := |group| - 1;
      if Answers(s, n, Last(group)) then
        var tx := s[n].lookup[Last(group)];
        g.stored == Some(tx.txid) && RowAdded(t, tx, g.t)
      else g.stored.None? && g.t.transactions == t.transactions
    ensures var g := ProcessTxGroupSpec(t, group, s);
      && g.t.vmetaouts == t.vmetaouts + g.rows
      && if exists i | 0 <= i < |group| :: Answers(s, i, group[i]) then
           |s| > |group| && s[|group|].up && LastListed(g.rows, s[|group|].package)
         else g.rows == []
  {
    hide FetchGroup, InsertRows, LastMetaRows, RowAdded, LastListed;
    var f := FetchGroup(t, group, s, 0);
    FetchRow(t, group, s, 0);
    assert t.vmetaouts + [] == t.vmetaouts;
    if f.hexes > 0 {
      var package := f.s[0].package;
      assert |s| > |group| && f.s[0] == s[|group|];
      InsertRowsExactly(f.t, LastMetaRows(package));
      LastRowsListed(package);
      var n := |group| - 1;
      if Answers(s, n, Last(group)) {
        RowAddedFrame(t, s[n].lookup[Last(group)], f.t, ProcessTxGroupSpec(t, group, s).t);
      }
    }
  }

  lemma LastRowsListed(package: seq<Option<MetaTransaction>>)
    ensures AllComputed(LastMetaRows(package)) ==> LastListed(Values(LastMetaRows(package)), package)
  {
    hide MetaRows, MetaListed;
    if package != [] && package[|package| - 1].Some? && AllComputed(LastMetaRows(package)) {
      MetaRowsListed(DEADBEEF, package[|package| - 1].value);
    }
  }

  lemma RowAddedFrame(t: Tables, tx: Transaction, u: Tables, v: Tables)
    requires RowAdded(t, tx, u) && v.transactions == u.transactions
    ensures RowAdded(t, tx, v)
  {
    hide Shows;
  }

  // ---- Since a moment of the script ----------------------------------------------------

  /** The row is that of a transaction that a lookup of its txid answered. */
  ghost predicate RowServed(row: TxRow, x: Txid, all: Script)
  {
    exists m | m in all :: m.up && x in m.lookup && Shows(row, m.lookup[x])
  }

  /** The row is one of the last meta of a package that was answered. */
  ghost predicate PackageSays(m: Moment, v: VMetaOut)
  {
    && m.up && m.package != [] && m.package[|m.package| - 1].Some?
    && var meta := m.package[|m.package| - 1].value;
    && v.key == TxKey(DEADBEEF, meta.txid) && exists j | 0 <= j < RowCount(meta) :: RowSays(meta, j, v)
  }

  ghost predicate SpacesServed(v: VMetaOut, all: Script)
  {
    exists m | m in all :: PackageSays(m, v)
  }

  /** Every row of the sentinel block in u was already in t, or was served at a moment of the script. */
  ghost predicate ServedSince(t: Tables, all: Script, u: Tables)
  {
    && (forall k | k in u.transactions && k.block == DEADBEEF ::
          (k in t.transactions && u.transactions[k] == t.transactions[k]) || RowServed(u.transactions[k], k.txid, all))
    && (forall v | v in u.vmetaouts && v.key.block == DEADBEEF :: v in t.vmetaouts || SpacesServed(v, all))
  }

  lemma ServedTwice(t: Tables, all: Script, u: Tables, v: Tables)
    requires ServedSince(t, all, u) && ServedSince(u, all, v)
    ensures ServedSince(t, all, v)
  {
    hide RowServed, SpacesServed;
  }

  lemma NothingServed(t: Tables, all: Script, u: Tables)
    requires u.transactions == t.transactions && u.vmetaouts == t.vmetaouts
    ensures ServedSince(t, all, u)
  {
    hide RowServed, SpacesServed;
  }

  /** All moments of the one script are moments of the other. */
  ghost predicate Within(s: Script, all: Script)
  {
    forall i | 0 <= i < |s| :: s[i] in all
  }

  lemma RestWithin(s: Script, all: Script)
    requires Within(s, all)
    ensures Within(Rest(s), all)
  {
  }

  lemma AfterWithin(s: Script, n: nat, all: Script)
    requires Within(s, all)
    ensures Within(After(s, n), all)
  {
  }

  lemma GroupScript(t: Tables, group: seq<Txid>, s: Script, all: Script)
    requires group != [] && Within(s, all)
    ensures Within(ProcessTxGroupSpec(t, group, s).s, all)
  {
    hide FetchGroup, InsertRows, LastMetaRows, Within, RowAdded, Answers;
    FetchRow(t, group, s, 0);
    AfterWithin(s, |group|, all);
    RestWithin(After(s, |group|), all);
  }

  lemma GroupServes(w: World, t: Tables, group: seq<Txid>, s: Script, all: Script)
    requires ValidScript(w, s) && group != [] && Within(s, all) && ProcessTxGroupSpec(t, group, s).result.Ok?
    ensures ServedSince(t, all, ProcessTxGroupSpec(t, group, s).t)
  {
    hide ProcessTxGroupSpec, RowServed, SpacesServed, Shows, LastListed;
    GroupStores(t, group, s);
    var g := ProcessTxGroupSpec(t, group, s);
    var n := |group| - 1;
    if Answers(s, n, Last(group)) {
      var tx := s[n].lookup[Last(group)];
      assert tx.txid == Last(group) by { assert ValidMoment(w, s[n]); }
      LookupServes(s[n], tx.txid, g.t.transactions[TxKey(DEADBEEF, tx.txid)], all);
    }
    if exists i | 0 <= i < |group| :: Answers(s, i, group[i]) {
      forall v | v in g.rows ensures SpacesServed(v, all) {
        PackageServes(s[|group|], g.rows, v, all);
      }
    }
  }

  lemma LookupServes(m: Moment, x: Txid, row: TxRow, all: Script)
    requires m in all && m.up && x in m.lookup && Shows(row, m.lookup[x])
    ensures RowServed(row, x, all)
  {
    hide Shows;
  }

  lemma PackageServes(m: Moment, rows: seq<VMetaOut>, v: VMetaOut, all: Script)
    requires m in all && m.up && LastListed(rows, m.package) && v in rows
    ensures SpacesServed(v, all)
  {
    hide RowSays, RowCount;
    var i :| 0 <= i < |rows| && rows[i] == v;
    assert PackageSays(m, v);
  }

  // ---- One round -----------------------------------------------------------------------

  lemma {:induction false} GroupsServe(w: World, t: Tables, groups: seq<seq<Txid>>, s: Script, all: Script)
    requires ValidScript(w, s) && Within(s, all) && forall i | 0 <= i < |groups| :: groups[i] != []
    ensures var out := ProcessGroupsSpec(t, groups, s); ServedSince(t, all, out.t) && Within(out.s, all)
    decreases |groups|
  {
    hide ProcessTxGroupSpec, ServedSince, Within, ValidScript;
    RestWithin(s, all);
    RestValid(w, s);
    NothingServed(t, all, t);
    if groups != [] {
      var g := ProcessTxGroupSpec(t, groups[0], Rest(s));
      NothingServed(t, all, t.(nextIndex := g.t.nextIndex));
      GroupScript(t, groups[0], Rest(s), all);
      RestWithin(g.s, all);
      if Live(s) && g.result.Ok? && Live(g.s) {
        GroupServes(w, t, groups[0], Rest(s), all);
        GroupValid(w, t, groups[0], Rest(s));
        RestValid(w, g.s);
        GroupsServe(w, g.t, groups[1..], Rest(g.s), all);
        ServedTwice(t, all, g.t, ProcessGroupsSpec(g.t, groups[1..], Rest(g.s)).t);
      }
    }
  }

  lemma GroupValid(w: World, t: Tables, group: seq<Txid>, s: Script)
    requires group != [] && ValidScript(w, s)
    ensures ValidScript(w, ProcessTxGroupSpec(t, group, s).s)
  {
    hide FetchGroup, InsertRows, LastMetaRows, RowAdded, Answers;
    FetchRow(t, group, s, 0);
  }

  lemma DroppedServes(t: Tables, gone: set<Txid>, all: Script)
    ensures ServedSince(t, all, Dropped(t, gone))
  {
    hide RowServed, SpacesServed;
    SurvivingRows(t.vmetaouts, gone);
  }

  lemma {:induction false} ThroughWithin(s: Script, n: nat, all: Script)
    requires Within(s, all)
    ensures Within(Through(s, n).s, all)
    decreases n
  {
    hide Within;
    RestWithin(s, all);
    if n > 0 && Live(s) {
      ThroughWithin(Rest(s), n - 1, all);
    }
  }

  lemma CleanupWithin(gone: set<Txid>, s: Script, all: Script)
    requires Within(s, all)
    ensures Within(CleanupSpec(gone, s).s, all)
  {
    hide Within, Through, Chunks;
    RestWithin(s, all);
    ThroughWithin(Rest(s), Chunks(|gone|), all);
    RestWithin(Through(Rest(s), Chunks(|gone|)).s, all);
  }

  lemma GroupsNotEmpty(entries: seq<MempoolEntry>, existing: set<Txid>)
    ensures forall i | 0 <= i < |ToProcess(GroupsOf(entries), existing)| ::
      ToProcess(GroupsOf(entries), existing)[i] != []
  {
    NotEmptyToProcess(GroupsOf(entries), existing);
  }

  lemma {:induction false} NotEmptyToProcess(groups: seq<seq<Txid>>, existing: set<Txid>)
    requires forall i | 0 <= i < |groups| :: groups[i] != []
    ensures forall i | 0 <= i < |ToProcess(groups, existing)| :: ToProcess(groups, existing)[i] != []
  {
    if groups != [] {
      NotEmptyToProcess(groups[..|groups| - 1], existing);
    }
  }

  /** A round, wherever it stops: every row of the sentinel block was there before, or is as the nodes served it. */
  lemma RoundServes(w: World, t: Tables, s: Script, all: Script)
    requires ValidScript(w, s) && Within(s, all)
    ensures var out := SyncMempoolSpec(t, s); ServedSince(t, all, out.t) && Within(out.s, all)
  {
    hide ValidScript, Within, ServedSince, CleanupSpec, ProcessGroupsSpec, GroupsOf, ToProcess, Dropped, Members,
      MempoolTxids;
    RestWithin(s, all);
    RestWithin(Rest(s), all);
    RestValid(w, s);
    RestValid(w, Rest(s));
    NothingServed(t, all, t);
    if Live(s) && Live(Rest(s)) {
      var entries := s[0].mempool;
      var gone := MempoolTxids(t) - Members(GroupsOf(entries));
      var todo := ToProcess(GroupsOf(entries), MempoolTxids(t));
      var cleaned := CleanupSpec(gone, Rest(Rest(s)));
      CleanupWithin(gone, Rest(Rest(s)), all);
      CleanupScript(w, gone, Rest(Rest(s)));
      GroupsNotEmpty(entries, MempoolTxids(t));
      var t1 := if gone == {} then t else Dropped(t, gone);
      DroppedServes(t, gone, all);
      GroupsServe(w, t1, todo, cleaned.s, all);
      ServedTwice(t, all, t1, ProcessGroupsSpec(t1, todo, cleaned.s).t);
    }
  }

  // ---- Every history -------------------------------------------------------------------

  lemma {:induction false} ScanWithin(t: Tables, h: int, s: Script, all: Script)
    requires Within(s, all)
    ensures Within(Scan(t, h, s).s, all)
    decreases h + 1
  {
    hide Flagged, Buried, RowAt, BlockHashAnswer, Within;
    RestWithin(s, all);
    RestWithin(Rest(s), all);
    RestWithin(Rest(Rest(s)), all);
    RestWithin(Rest(Rest(Rest(s))), all);
    if h >= 0 && Live(s) && RowAt(t.blocks, h).Some? {
      ScanWithin(t, h - 1, Rest(Rest(s)), all);
    }
  }

  lemma StoreWithin(w: World, cfg: Config, t: Tables, b: Block, s: Script, all: Script)
    requires b.hash in w.tree && Within(s, all)
    ensures Within(StoreBlockSpec(w, cfg, t, b, s).s, all)
  {
    hide BitcoinBlockStored, BlockStored, Within;
    RestWithin(s, all);
    RestWithin(Rest(s), all);
    RestWithin(Rest(Rest(s)), all);
  }

  lemma {:induction false} WalkWithin(w: World, cfg: Config, t: Tables, next: Option<Hash>, s: Script, all: Script)
    requires ValidScript(w, s) && Within(s, all)
    ensures Within(Walk(w, cfg, t, next, s).s, all)
    decreases |s|
  {
    hide StoreBlockSpec, ValidScript, Within;
    RestWithin(s, all);
    RestValid(w, s);
    if next.Some? {
      var answer := BlockAnswer(w, s, next.value);
      if answer.Ok? {
        var b := answer.value;
        NextIsChild(w, s, next.value);
        StoreScript(w, cfg, t, b, Rest(s));
        StoreWithin(w, cfg, t, b, Rest(s), all);
        var out := StoreBlockSpec(w, cfg, t, b, Rest(s));
        if out.result.Ok? {
          WalkWithin(w, cfg, out.t, b.next, out.s, all);
        }
      }
    }
  }

  lemma BlocksWithin(w: World, cfg: Config, t: Tables, s: Script, all: Script)
    requires ValidScript(w, s) && Within(s, all)
    ensures Within(SyncBlocksSpec(w, cfg, t, s).s, all)
  {
    hide Scan, Walk, BlockHashAnswer, ValidScript, Within, OnlyOrphans;
    RestWithin(s, all);
    RestValid(w, s);
    ScanWithin(t, MaxHeight(t.blocks), Rest(s), all);
    ScanOnlyOrphans(w, t, MaxHeight(t.blocks), Rest(s));
    var head := GetSyncedHeadSpec(t, s);
    RestWithin(head.s, all);
    RestValid(w, head.s);
    if head.result.Ok? {
      var first := BlockHashAnswer(head.s, FirstHeight(cfg, head.result.value));
      if first.Ok? {
        WalkWithin(w, cfg, head.t, Some(first.value), Rest(head.s), all);
      }
    }
  }

  lemma {:induction false} OfBlockMember(vs: seq<VMetaOut>, b: Hash, v: VMetaOut)
    ensures v in OfBlock(vs, b) <==> v in vs && v.key.block == b
  {
    if vs != [] {
      var n := |vs| - 1;
      OfBlockMember(vs[..n], b, v);
      assert vs == vs[..n] + [vs[n]];
    }
  }

  lemma SamePoolServes(t: Tables, all: Script, u: Tables)
    requires SamePool(t, u)
    ensures ServedSince(t, all, u)
  {
    hide OfBlock, RowServed, SpacesServed;
    forall v | v in u.vmetaouts && v.key.block == DEADBEEF ensures v in t.vmetaouts {
      OfBlockMember(u.vmetaouts, DEADBEEF, v);
      OfBlockMember(t.vmetaouts, DEADBEEF, v);
    }
  }

  lemma TurnServes(w: World, cfg: Config, t: Tables, commits: multiset<Hash>, s: Script, all: Script)
    requires ValidWorld(w) && ValidScript(w, s) && Within(s, all) && Consistent(w, cfg, t, commits)
    ensures var out := TurnSpec(w, cfg, t, s); ServedSince(t, all, out.t) && Within(out.s, all)
  {
    hide Consistent, SyncBlocksSpec, SyncMempoolSpec, ValidScript, ValidWorld, SamePool, ServedSince, Within;
    RestValid(w, s);
    RestWithin(s, all);
    NothingServed(t, all, t);
    if Live(s) {
      var blocks := SyncBlocksSpec(w, cfg, t, Rest(s));
      BlocksConsistent(w, cfg, t, commits, Rest(s));
      BlocksWithin(w, cfg, t, Rest(s), all);
      SamePoolServes(t, all, blocks.t);
      if blocks.result.Ok? {
        RoundServes(w, blocks.t, blocks.s, all);
        ServedTwice(t, all, blocks.t, SyncMempoolSpec(blocks.t, blocks.s).t);
      }
    }
  }

  lemma {:induction false} RunServes(w: World, cfg: Config, t: Tables, commits: multiset<Hash>, s: Script, all: Script)
    requires ValidWorld(w) && ValidScript(w, s) && Within(s, all) && Consistent(w, cfg, t, commits)
    ensures ServedSince(t, all, Run(w, cfg, t, s).t)
    decreases |s|
  {
    hide Consistent, TurnSpec, ValidScript, ValidWorld, ServedSince, Within;
    NothingServed(t, all, t);
    if s != [] {
      var out := TurnSpec(w, cfg, t, s);
      TurnServes(w, cfg, t, commits, s, all);
      TurnConsistent(w, cfg, t, commits, s);
      RunServes(w, cfg, out.t, commits + multiset(out.turn.stored), out.s, all);
      ServedTwice(t, all, out.t, Run(w, cfg, out.t, out.s).t);
    }
  }

  lemma {:induction false} HistoryServes(
    w: World, cfg: Config, t: Tables, commits: multiset<Hash>, phases: seq<Phase>, all: Script)
    requires ValidWorld(w) && ValidPhases(w, phases) && Consistent(w, cfg, t, commits)
    requires forall i | 0 <= i < |phases| :: Within(phases[i].script, all)
    ensures ServedSince(t, all, History(w, cfg, t, phases).t)
    decreases |phases|
  {
    hide Consistent, ValidScript, ValidWorld, ServedSince, Within, Run, BackfillSpec, SamePool;
    NothingServed(t, all, t);
    if phases != [] {
      var first := PhaseSpec(w, cfg, t, phases[0]);
      match phases[0] {
        case Serve(s) => RunServes(w, cfg, t, commits, s, all);
        case Refill(s) =>
          BackfillConsistent(w, cfg, t, commits, s);
          SamePoolServes(t, all, first.t);
      }
      PhaseConsistent(w, cfg, t, commits, phases[0]);
      hide PhaseSpec;
      HistoryServes(w, cfg, first.t, commits + first.commits, phases[1..], all);
      ServedTwice(t, all, first.t, History(w, cfg, first.t, phases[1..]).t);
    }
  }

  /**
   * From the migrated database, however service and backfill alternate: every sentinel transaction has the columns of a
   * transaction that the node answered for its txid, and every spaces row of the sentinel block is one of the last meta
   * of a package that the node answered.
   */
  lemma EveryHistoryServes(w: World, cfg: Config, phases: seq<Phase>, all: Script)
    requires ValidWorld(w) && ValidPhases(w, phases)
    requires forall i | 0 <= i < |phases| :: Within(phases[i].script, all)
    ensures var t := History(w, cfg, Migrated(), phases).t;
      && (forall x | x in MempoolTxids(t) :: RowServed(t.transactions[TxKey(DEADBEEF, x)], x, all))
      && (forall v | v in t.vmetaouts && v.key.block == DEADBEEF :: SpacesServed(v, all))
  {
    MigratedConsistent(w, cfg);
    assert Migrated().transactions == map[] && Migrated().vmetaouts == [];
    hide Consistent, History, ValidPhases, ValidWorld, Within, RowServed, SpacesServed, Migrated;
    HistoryServes(w, cfg, Migrated(), multiset{}, phases, all);
  }
}
