/** When a round of syncMempool completes against nodes that serve every call. */
module Completion {
  import opened Outcomes
  import opened Node
  import opened Schema
  import opened Spaces
  import opened Chain
  import opened Mempool
  import opened Convergence
  import opened Interruptions

  /** A package's last meta, if present, fits, and if it has rows its transaction is stored. */
  ghost predicate PackageFits(stored: set<Txid>, package: seq<Option<MetaTransaction>>)
  {
    package != [] && package[|package| - 1].Some? ==>
      var m := package[|package| - 1].value;
      Fits(m) && (RowCount(m) > 0 ==> m.txid in stored)
  }

  /**
   * For every group in turn: the sequence still has an index, the moments last for beginning, fetches, package and
   * commit, and the package fits.
   */
  ghost predicate GroupsPass(stored: set<Txid>, next: int, groups: seq<seq<Txid>>, s: Script)
    requires forall i | 0 <= i < |groups| :: groups[i] != []
    decreases |groups|
  {
    groups == [] ||
    var n := |groups[0]|;
    var now := stored + {Last(groups[0])};
    && next >= -0x8000_0000 && |s| >= n + 3 && PackageFits(now, s[n + 1].package)
    && GroupsPass(now, next - 1, groups[1..], s[n + 3..])
  }

  // ---- One group -----------------------------------------------------------------------

  /** Where fetching a group ends, if the node serves its last transaction. */
  ghost predicate FetchedAll(t: Tables, group: seq<Txid>, s: Script, hexes: nat, f: Fetched)
    requires group != []
  {
    if |s| < |group| then f.s == [] && f.violation.None?
    else
      && f.s == s[|group|..] && f.hexes > hexes
      && (f.violation.None? <==> HasIndex(t))
      && (f.violation.None? ==> f.stored == Some(Last(group)) && f.t.nextIndex == t.nextIndex - 1)
  }

  lemma {:induction false} FetchAll(t: Tables, group: seq<Txid>, s: Script, hexes: nat, w: World, txids: set<Txid>)
    requires ValidScript(w, s) && PoolReady(t) && Serves(s, txids)
    requires group != [] && Last(group) in txids && Last(group) !in MempoolTxids(t)
    ensures FetchedAll(t, group, s, hexes, FetchGroup(t, group, s, hexes))
    decreases |group|
  {
    hide PoolReady, Serves, MempoolTxids, ValidScript, TxViolation, Pooled, WithTx, NextIndex, HasIndex, Untouched;
    RestValid(w, s);
    ServesRest(s, txids);
    var answer := TransactionAnswer(s, group[0]);
    if |group| > 1 {
      assert Last(group[1..]) == Last(group);
      FetchAll(t, group[1..], Rest(s), if answer.Ok? then hexes + 1 else hexes, w, txids);
      FetchHexes(t, group[1..], Rest(s), if answer.Ok? then hexes + 1 else hexes);
      if |s| >= |group| {
        assert Rest(s)[|group| - 1..] == s[|group|..];
      }
    } else if s != [] {
      AnsweredTransaction(w, s, group[0]);
      PooledInserted(t, answer.value);
      PooledFrame(t, answer.value);
    }
  }

  lemma {:induction false} FetchHexes(t: Tables, group: seq<Txid>, s: Script, hexes: nat)
    ensures FetchGroup(t, group, s, hexes).hexes >= hexes
    decreases |group|
  {
    hide TxViolation, Pooled, WithTx, NextIndex, TransactionAnswer;
    if |group| > 1 {
      FetchHexes(t, group[1..], Rest(s), if TransactionAnswer(s, group[0]).Ok? then hexes + 1 else hexes);
    } else if |group| == 1 {
      assert group[1..] == [];
    }
  }

  /** Spaces rows of the sentinel block can be stored if and only if names fit and the transactions are stored. */
  lemma PackageFitsIff(t: Tables, package: seq<Option<MetaTransaction>>)
    ensures InsertRows(t, LastMetaRows(package)).violation.None? <==> PackageFits(MempoolTxids(t), package)
    ensures InsertRows(t, LastMetaRows(package)).t.nextIndex == t.nextIndex
  {
    hide MetaRows, InsertRows, Fits, RowCount, AllComputed, AllInsertable;
    InsertRowsExactly(t, LastMetaRows(package));
    NothingToInsert(t);
    if package != [] && package[|package| - 1].Some? {
      var m := package[|package| - 1].value;
      MetaGoesIn(t, DEADBEEF, m);
      assert TxKey(DEADBEEF, m.txid) in t.transactions <==> m.txid in MempoolTxids(t);
    }
  }

  /** A served group, from after its beginning to before its commit. */
  lemma GroupPassesIff(w: World, t: Tables, group: seq<Txid>, s: Script, txids: set<Txid>)
    requires ValidScript(w, s) && PoolReady(t) && Serves(s, txids)
    requires group != [] && Last(group) in txids && Last(group) !in MempoolTxids(t)
    ensures var g := ProcessTxGroupSpec(t, group, s);
      if |s| <= |group| then g.result.Err? || g.s == []
      else
        && (g.result.Ok? <==> HasIndex(t) && PackageFits(MempoolTxids(t) + {Last(group)}, s[|group|].package))
        && g.s == (if HasIndex(t) then s[|group| + 1..] else s[|group|..])
        && (g.result.Ok? ==> g.t.nextIndex == t.nextIndex - 1 && g.stored == Some(Last(group)))
  {
    hide PoolReady, Serves, MempoolTxids, ValidScript, FetchGroup, InsertRows, LastMetaRows, PackageFits, HasIndex,
      Untouched;
    var f := FetchGroup(t, group, s, 0);
    FetchAll(t, group, s, 0, w, txids);
    FetchEffect(w, t, group, s, 0);
    if |s| > |group| {
      ServedSuffix(s, |group|, txids);
      PackageFitsIff(f.t, s[|group|].package);
      InsertRowsExactly(f.t, LastMetaRows(s[|group|].package));
    }
  }

  lemma ServedSuffix(s: Script, n: nat, txids: set<Txid>)
    requires Serves(s, txids) && n <= |s|
    ensures Serves(s[n..], txids)
  {
  }

  // ---- All groups ----------------------------------------------------------------------

  /** The groups end in txids that the node serves. */
  ghost predicate ServedLasts(groups: seq<seq<Txid>>, txids: set<Txid>)
  {
    forall i | 0 <= i < |groups| :: groups[i] != [] && Last(groups[i]) in txids
  }

  lemma ServedLastsRest(t: Tables, groups: seq<seq<Txid>>, txids: set<Txid>)
    requires ServedLasts(groups, txids) && NewLasts(t, groups) && groups != []
    ensures groups[0] != [] && Last(groups[0]) in txids && Last(groups[0]) !in MempoolTxids(t)
    ensures ServedLasts(groups[1..], txids)
  {
    hide MempoolTxids;
  }

  /** The first group's turn, from its beginning to its commit. */
  ghost predicate FirstPasses(t: Tables, group: seq<Txid>, s: Script)
    requires group != []
  {
    HasIndex(t) && |s| >= |group| + 3 && PackageFits(MempoolTxids(t) + {Last(group)}, s[|group| + 1].package)
  }

  /** One step of the definition. */
  lemma PassStep(t: Tables, groups: seq<seq<Txid>>, s: Script, txids: set<Txid>)
    requires ServedLasts(groups, txids)
    ensures groups == [] ==> GroupsPass(MempoolTxids(t), t.nextIndex, groups, s)
    ensures groups != [] ==>
      && (FirstPasses(t, groups[0], s) ==> |s| >= |groups[0]| + 3)
      && (GroupsPass(MempoolTxids(t), t.nextIndex, groups, s) <==>
            && FirstPasses(t, groups[0], s)
            && GroupsPass(MempoolTxids(t) + {Last(groups[0])}, t.nextIndex - 1, groups[1..], s[|groups[0]| + 3..]))
  {
    hide PackageFits, MempoolTxids;
  }

  lemma FirstPassesIff(w: World, t: Tables, group: seq<Txid>, s: Script, txids: set<Txid>)
    requires ValidScript(w, s) && PoolReady(t) && Serves(s, txids)
    requires group != [] && Last(group) in txids && Last(group) !in MempoolTxids(t)
    ensures var g := ProcessTxGroupSpec(t, group, Rest(s));
      && (Live(s) && g.result.Ok? && Live(g.s) <==> FirstPasses(t, group, s))
      && (FirstPasses(t, group, s) ==>
            && Rest(g.s) == s[|group| + 3..] && g.t.nextIndex == t.nextIndex - 1 && PoolReady(g.t)
            && MempoolTxids(g.t) == MempoolTxids(t) + {Last(group)}
            && ValidScript(w, Rest(g.s)) && Serves(Rest(g.s), txids))
  {
    hide PoolReady, Serves, MempoolTxids, ValidScript, ProcessTxGroupSpec, PackageFits, HasIndex, Untouched;
    ServesRest(s, txids);
    RestValid(w, s);
    var n := |group|;
    GroupPassesIff(w, t, group, Rest(s), txids);
    GroupEffects(w, t, group, Rest(s));
    if |s| >= n + 2 {
      ServedSuffix(s, n + 2, txids);
      ServesRest(s[n + 2..], txids);
      RestValid(w, ProcessTxGroupSpec(t, group, Rest(s)).s);
      assert Rest(s)[n + 1..] == s[n + 2..];
    }
  }

  lemma ProcessStep(t: Tables, groups: seq<seq<Txid>>, s: Script)
    ensures groups == [] ==> ProcessGroupsSpec(t, groups, s).result.Ok?
    ensures groups != [] ==>
      var g := ProcessTxGroupSpec(t, groups[0], Rest(s));
      ProcessGroupsSpec(t, groups, s).result.Ok? <==>
        Live(s) && g.result.Ok? && Live(g.s) && ProcessGroupsSpec(g.t, groups[1..], Rest(g.s)).result.Ok?
  {
    hide ProcessTxGroupSpec;
  }

  lemma {:induction false} GroupsPassIff(w: World, t: Tables, groups: seq<seq<Txid>>, s: Script, txids: set<Txid>)
    requires ValidScript(w, s) && PoolReady(t) && Serves(s, txids) && NewLasts(t, groups) && ServedLasts(groups, txids)
    ensures ProcessGroupsSpec(t, groups, s).result.Ok? <==> GroupsPass(MempoolTxids(t), t.nextIndex, groups, s)
    decreases |groups|
  {
    hide *;
    PassStep(t, groups, s, txids);
    ProcessStep(t, groups, s);
    if groups != [] {
      ServedLastsRest(t, groups, txids);
      FirstPassesIff(w, t, groups[0], s, txids);
      if FirstPasses(t, groups[0], s) {
        var g := ProcessTxGroupSpec(t, groups[0], Rest(s));
        NewLastsRest(t, groups, g.t, {Last(groups[0])});
        GroupsPassIff(w, g.t, groups[1..], Rest(g.s), txids);
      }
    }
  }

  // ---- Cleanup and round ---------------------------------------------------------------

  lemma {:induction false} ServedThrough(s: Script, n: nat, txids: set<Txid>)
    requires Serves(s, txids)
    ensures Through(s, n).ok <==> |s| >= n
    ensures |s| >= n ==> Through(s, n).s == s[n..]
    decreases n
  {
    hide Serves;
    ServesRest(s, txids);
    if n > 0 && s != [] {
      ServedThrough(Rest(s), n - 1, txids);
    }
  }

  /** The moments of the cleanup: none, or a transaction around the chunks. */
  function CleanupCost(gone: set<Txid>): nat
  {
    if gone == {} then 0 else Chunks(|gone|) + 2
  }

  lemma ServedCleanup(gone: set<Txid>, s: Script, txids: set<Txid>)
    requires Serves(s, txids)
    ensures CleanupSpec(gone, s).ok <==> |s| >= CleanupCost(gone)
    ensures |s| >= CleanupCost(gone) ==> CleanupSpec(gone, s).s == s[CleanupCost(gone)..]
  {
    hide Serves, Chunks;
    ServesRest(s, txids);
    if gone != {} && s != [] {
      var n := Chunks(|gone|);
      ServedThrough(Rest(s), n, txids);
      if |Rest(s)| >= n {
        ServedSuffix(Rest(s), n, txids);
        ServesRest(Rest(s)[n..], txids);
      }
    }
  }

  /** What the round deletes and the groups it processes. */
  function Gone(t: Tables, entries: seq<MempoolEntry>): set<Txid>
  {
    MempoolTxids(t) - Keys(entries) - Depends(entries)
  }

  function Todo(t: Tables, entries: seq<MempoolEntry>): seq<seq<Txid>>
  {
    ToProcess(GroupsOf(entries), MempoolTxids(t))
  }

  /**
   * Against nodes that serve every call a round completes if and only if the moments last for the cleanup and every
   * group passes: one package whose last meta cannot be stored, or the end of the index range, stops it and all later
   * groups.
   */
  lemma ServedRoundCompletesIff(w: World, t: Tables, s: Script)
    requires ValidScript(w, s) && PoolReady(t) && s != [] && Serves(s, Keys(s[0].mempool))
    ensures var entries := s[0].mempool;
      var cost := 2 + CleanupCost(Gone(t, entries));
      && (forall i | 0 <= i < |Todo(t, entries)| :: Todo(t, entries)[i] != [])
      && (SyncMempoolSpec(t, s).result.Ok? <==>
            && |s| >= cost
            && GroupsPass(MempoolTxids(t) - Gone(t, entries), t.nextIndex, Todo(t, entries), s[cost..]))
  {
    hide PoolReady, Serves, MempoolTxids, ValidScript, ProcessGroupsSpec, CleanupSpec, GroupsOf, ToProcess, Dropped,
      Members, Keys, Depends, GroupsPass, CleanupCost, EndInEach, Untouched;
    var entries := s[0].mempool;
    var k := Keys(entries);
    var gone, todo := Gone(t, entries), Todo(t, entries);
    MembersOfEntries(entries);
    assert gone == MempoolTxids(t) - Members(GroupsOf(entries));
    EntriesDistinct(w, s);
    LastsToProcess(entries, MempoolTxids(t));
    EndsGiven(todo, k - MempoolTxids(t), k);
    ServesRest(s, k);
    ServesRest(Rest(s), k);
    RestValid(w, s);
    RestValid(w, Rest(s));
    if |s| >= 2 {
      var s2 := Rest(Rest(s));
      assert s2 == s[2..];
      ServedCleanup(gone, s2, k);
      CleanupScript(w, gone, s2);
      if |s2| >= CleanupCost(gone) {
        ServedSuffix(s2, CleanupCost(gone), k);
        var t1 := if gone == {} then t else Dropped(t, gone);
        DropEffect(t, gone);
        DroppedSequence(t, gone);
        assert MempoolTxids(t) - {} == MempoolTxids(t);
        EndsAreNew(t1, todo, k - MempoolTxids(t));
        GroupsPassIff(w, t1, todo, s2[CleanupCost(gone)..], k);
        assert s2[CleanupCost(gone)..] == s[2 + CleanupCost(gone)..];
      }
    }
  }

  lemma EndsGiven(groups: seq<seq<Txid>>, txids: set<Txid>, all: set<Txid>)
    requires EndInEach(groups, txids) && txids <= all
    ensures ServedLasts(groups, all)
  {
  }

  lemma DroppedSequence(t: Tables, gone: set<Txid>)
    ensures Dropped(t, gone).nextIndex == t.nextIndex
  {
  }
}
