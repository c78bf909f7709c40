/** Completed and interrupted rounds of syncMempool: what they converge to, and the spaces rows they leave. */
module Interruptions {
  import opened Outcomes
  import opened Node
  import opened Schema
  import opened Spaces
  import opened Chain
  import opened Mempool
  import opened Convergence

  // ---- One completed round -------------------------------------------------------------

  /**
   * A completed round leaves the node's keys and the stored transactions they depend on, if and only if no fetch of a
   * new key failed; without dependencies outside the mempool that is exactly the node's mempool.
   */
  lemma CompletedRoundConverges(w: World, t: Tables, s: Script)
    requires ValidScript(w, s) && PoolReady(t) && SyncMempoolSpec(t, s).result.Ok?
    ensures s != []
    ensures var out := SyncMempoolSpec(t, s);
      var k, d := Keys(s[0].mempool), Depends(s[0].mempool);
      && MempoolTxids(out.t) <= k + MempoolTxids(t) * d
      && (MempoolTxids(out.t) == k + MempoolTxids(t) * d <==> AllFetched(out.log))
      && (d <= k && AllFetched(out.log) ==> MempoolTxids(out.t) == k)
  {
    hide SyncMempoolSpec, PoolReady, Untouched, MempoolTxids, AllFetched, Keys, Depends, AddedTxids;
    NoScript(t, s);
    RoundEffects(w, t, s);
    var out := SyncMempoolSpec(t, s);
    var k, d, had, added := Keys(s[0].mempool), Depends(s[0].mempool), MempoolTxids(t), AddedTxids(GroupLog(out.log));
    assert k + had * d == had * (k + d) + (k - had);
    assert added == (had * (k + d) + added) - had;
  }

  lemma NoScript(t: Tables, s: Script)
    requires SyncMempoolSpec(t, s).result.Ok?
    ensures s != []
  {
  }

  /** No round, completed or not and in whatever order the mempool is visited, runs into a duplicate key. */
  lemma NeverDuplicate(w: World, t: Tables, s: Script)
    requires ValidScript(w, s) && PoolReady(t)
    ensures SyncMempoolSpec(t, s).result != Err(UniqueViolation)
    ensures PoolReady(SyncMempoolSpec(t, s).t) && Untouched(t, SyncMempoolSpec(t, s).t)
    ensures ValidScript(w, SyncMempoolSpec(t, s).s)
  {
    hide PoolReady, Untouched, MempoolTxids, ValidScript, ProcessGroupsSpec;
    RestValid(w, s);
    UntouchedSelf(t);
    if s != [] {
      RoundEffects(w, t, s);
    }
  }

  // ---- When every fetch succeeds -------------------------------------------------------

  /** Every operation gets through and the node can look up these transactions. */
  ghost predicate Serves(s: Script, txids: set<Txid>)
  {
    forall i | 0 <= i < |s| :: s[i].up && txids <= s[i].lookup.Keys
  }

  lemma ServesRest(s: Script, txids: set<Txid>)
    requires Serves(s, txids)
    ensures Serves(Rest(s), txids) && (s != [] ==> Live(s) && forall x | x in txids :: TransactionAnswer(s, x).Ok?)
  {
  }

  lemma {:induction false} FetchServed(t: Tables, group: seq<Txid>, s: Script, hexes: nat, txids: set<Txid>)
    requires Serves(s, txids) && group != [] && Last(group) in txids
    ensures var f := FetchGroup(t, group, s, hexes);
      Serves(f.s, txids) && (f.s != [] && f.violation.None? ==> f.stored.Some?)
    decreases |group|
  {
    hide Serves, TransactionAnswer, Pooled, TxViolation, NextIndex, WithTx;
    ServesRest(s, txids);
    if |group| > 1 {
      assert Last(group[1..]) == Last(group);
      FetchServed(t, group[1..], Rest(s), if TransactionAnswer(s, group[0]).Ok? then hexes + 1 else hexes, txids);
    }
  }

  lemma GroupServed(t: Tables, group: seq<Txid>, s: Script, txids: set<Txid>)
    requires Serves(s, txids) && group != [] && Last(group) in txids
    ensures var g := ProcessTxGroupSpec(t, group, s);
      Serves(g.s, txids) && (g.result.Ok? && g.s != [] ==> g.stored.Some?)
  {
    hide Serves, FetchGroup, InsertRows, LastMetaRows, AllComputed;
    FetchServed(t, group, s, 0, txids);
    ServesRest(FetchGroup(t, group, s, 0).s, txids);
  }

  lemma {:induction false} GroupsServed(t: Tables, groups: seq<seq<Txid>>, s: Script, txids: set<Txid>)
    requires Serves(s, txids) && forall i | 0 <= i < |groups| :: groups[i] != [] && Last(groups[i]) in txids
    ensures AllFetched(ProcessGroupsSpec(t, groups, s).log)
    decreases |groups|
  {
    hide Serves, ProcessTxGroupSpec;
    ServesRest(s, txids);
    if groups != [] && Live(s) {
      var g := ProcessTxGroupSpec(t, groups[0], Rest(s));
      GroupServed(t, groups[0], Rest(s), txids);
      ServesRest(g.s, txids);
      GroupsServed(g.t, groups[1..], Rest(g.s), txids);
    }
  }

  /** Against a node that serves its own mempool no fetch fails. */
  lemma ServedRoundFetchesAll(w: World, t: Tables, s: Script)
    requires ValidScript(w, s) && s != [] && Serves(s, Keys(s[0].mempool))
    ensures AllFetched(SyncMempoolSpec(t, s).log)
  {
    hide Serves, GroupsOf, ToProcess, Dropped, MempoolTxids, ProcessGroupsSpec, Members, Keys, ValidScript;
    var entries := s[0].mempool;
    var k := Keys(entries);
    EntriesDistinct(w, s);
    ServesRest(s, k);
    ServesRest(Rest(s), k);
    if Live(s) && Live(Rest(s)) {
      var gone := MempoolTxids(t) - Members(GroupsOf(entries));
      var todo := ToProcess(GroupsOf(entries), MempoolTxids(t));
      LastsToProcess(entries, MempoolTxids(t));
      CleanupServed(gone, Rest(Rest(s)), k);
      var s2 := CleanupSpec(gone, Rest(Rest(s))).s;
      GroupsServed(if gone == {} then t else Dropped(t, gone), todo, s2, k);
      hide CleanupSpec, EndInEach;
      var out := SyncMempoolSpec(t, s);
      if CleanupSpec(gone, Rest(Rest(s))).ok {
        var log := ProcessGroupsSpec(if gone == {} then t else Dropped(t, gone), todo, s2).log;
        assert out.log == (if gone == {} then [] else [Removed(gone)]) + log;
        FetchedAfterRemoval(gone, log);
      }
    }
  }

  lemma FetchedAfterRemoval(gone: set<Txid>, log: seq<PoolCommit>)
    requires AllFetched(log)
    ensures AllFetched((if gone == {} then [] else [Removed(gone)]) + log)
  {
  }

  lemma {:induction false} ThroughServed(s: Script, n: nat, txids: set<Txid>)
    requires Serves(s, txids)
    ensures Serves(Through(s, n).s, txids)
    decreases n
  {
    hide Serves;
    ServesRest(s, txids);
    if n > 0 && Live(s) {
      ThroughServed(Rest(s), n - 1, txids);
    }
  }

  lemma CleanupServed(gone: set<Txid>, s: Script, txids: set<Txid>)
    requires Serves(s, txids)
    ensures Serves(CleanupSpec(gone, s).s, txids)
  {
    hide Serves, Chunks;
    ServesRest(s, txids);
    ThroughServed(Rest(s), Chunks(|gone|), txids);
    ServesRest(Through(Rest(s), Chunks(|gone|)).s, txids);
  }

  // ---- Interrupted rounds --------------------------------------------------------------

  /** Rounds one after the other, each against its own script. */
  ghost function Rounds(t: Tables, scripts: seq<Script>): Tables
    decreases |scripts|
  {
    if scripts == [] then t else Rounds(SyncMempoolSpec(t, scripts[0]).t, scripts[1..])
  }

  /** The node answers with this mempool, visited in any order. */
  ghost predicate SeesPool(w: World, s: Script, keys: set<Txid>, depends: set<Txid>)
  {
    ValidScript(w, s) && (s != [] ==> Keys(s[0].mempool) == keys && Depends(s[0].mempool) == depends)
  }

  lemma RoundKeepsGoal(w: World, t: Tables, s: Script, k: set<Txid>, d: set<Txid>)
    requires PoolReady(t) && SeesPool(w, s, k, d)
    ensures PoolReady(SyncMempoolSpec(t, s).t)
    ensures k + MempoolTxids(SyncMempoolSpec(t, s).t) * d == k + MempoolTxids(t) * d
  {
    hide PoolReady, Untouched, MempoolTxids, ProcessGroupsSpec, Keys, Depends, AddedTxids, ValidScript;
    if s != [] {
      RoundEffects(w, t, s);
      hide SyncMempoolSpec;
      var out := SyncMempoolSpec(t, s);
      var had, added := MempoolTxids(t), AddedTxids(GroupLog(out.log));
      if MempoolTxids(out.t) == had * (k + d) + added {
        assert k + (had * (k + d) + added) * d == k + had * d;
      }
    }
  }

  lemma {:induction false} RoundsKeepGoal(w: World, t: Tables, scripts: seq<Script>, k: set<Txid>, d: set<Txid>)
    requires PoolReady(t) && forall i | 0 <= i < |scripts| :: SeesPool(w, scripts[i], k, d)
    ensures PoolReady(Rounds(t, scripts))
    ensures k + MempoolTxids(Rounds(t, scripts)) * d == k + MempoolTxids(t) * d
    decreases |scripts|
  {
    hide PoolReady, MempoolTxids, SeesPool, SyncMempoolSpec;
    if scripts != [] {
      RoundKeepsGoal(w, t, scripts[0], k, d);
      RoundsKeepGoal(w, SyncMempoolSpec(t, scripts[0]).t, scripts[1..], k, d);
    }
  }

  /**
   * Interruptions lose nothing: any rounds stopped anywhere, then a completed one, store the same transactions as
   * a single completed round.
   */
  lemma InterruptedRoundsLoseNothing(
    w: World, t: Tables, scripts: seq<Script>, last: Script, once: Script, k: set<Txid>, d: set<Txid>)
    requires PoolReady(t) && forall i | 0 <= i < |scripts| :: SeesPool(w, scripts[i], k, d)
    requires SeesPool(w, last, k, d) && SeesPool(w, once, k, d)
    requires var out := SyncMempoolSpec(Rounds(t, scripts), last); out.result.Ok? && AllFetched(out.log)
    requires SyncMempoolSpec(t, once).result.Ok? && AllFetched(SyncMempoolSpec(t, once).log)
    ensures MempoolTxids(SyncMempoolSpec(Rounds(t, scripts), last).t) == MempoolTxids(SyncMempoolSpec(t, once).t)
  {
    hide PoolReady, MempoolTxids, SyncMempoolSpec, AllFetched, Keys, Depends;
    RoundsKeepGoal(w, t, scripts, k, d);
    CompletedRoundConverges(w, Rounds(t, scripts), last);
    CompletedRoundConverges(w, t, once);
  }
}
