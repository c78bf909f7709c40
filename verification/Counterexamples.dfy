/**
 * Runs from the migrated database that go wrong: the node changes branch between two calls, and a crash between the
 * orphan updates, after which a round leaves a hole or completes without a block.
 */
module Counterexamples {
  import opened Outcomes
  import opened Node
  import opened Schema
  import opened Store
  import opened Sync
  import opened Chain
  import opened Safety
  import opened ForkPoint
  import opened Rebuild
  import opened Mempool
  import opened Service

  /** Above the genesis block 1: block 2 with child 5, and block 3 with child 4. No block has transactions. */
  function Forked(): World
  {
    World(1, map[
      1 := BlockData(0, 0, [], []), 2 := BlockData(1, 1, [], []), 3 := BlockData(1, 1, [], []),
      4 := BlockData(2, 3, [], []), 5 := BlockData(2, 2, [], [])])
  }

  /** Synchronises from height 0 and fetches no meta at these heights. */
  function FromGenesis(): Config
  {
    Config(100, -1)
  }

  /** Blocks 1 and 2 are stored; flagged says whether a crash left the row of block 2 flagged. */
  function TwoBlocks(flagged: bool): Tables
  {
    Migrated().(blocks := map[DEADBEEF := BlockRow(-1, false), 1 := BlockRow(0, false), 2 := BlockRow(1, flagged)])
  }

  function On(active: seq<Hash>): Moment
  {
    Moment(true, active, [], map[], [])
  }

  function Times(n: nat, m: Moment): Script
  {
    seq(n, _ => m)
  }

  /** Five moments for GetSyncedHead on one branch, four on another for the hash, the block, and its transaction. */
  function Switching(before: seq<Hash>, after: seq<Hash>): Script
  {
    var a, b := On(before), On(after);
    [a, a, a, a, a, b, b, b, b]
  }

  // ---- Reaching the two blocks ---------------------------------------------------------

  lemma ForkedIsValid()
    ensures ValidWorld(Forked())
  {
  }

  lemma BranchIsPath(top: seq<Hash>)
    requires top == [2] || top == [3] || top == [2, 5] || top == [3, 4]
    ensures Path(Forked(), 0, [1] + top)
  {
  }

  lemma TimesIsValid(n: nat, active: seq<Hash>)
    requires Path(Forked(), 0, active)
    ensures ValidScript(Forked(), Times(n, On(active)))
  {
    hide Path;
  }

  lemma BothValid(a: Script, b: Script)
    requires ValidScript(Forked(), a) && ValidScript(Forked(), b)
    ensures ValidScript(Forked(), a + b)
  {
  }

  lemma SwitchingIsValid(before: seq<Hash>, after: seq<Hash>)
    requires Path(Forked(), 0, before) && Path(Forked(), 0, after)
    ensures ValidScript(Forked(), Switching(before, after))
  {
    hide Path;
  }

  lemma TwoBlocksHold(flagged: bool)
    ensures Holds(Forked(), TwoBlocks(flagged), 0, [1, 2], if flagged then 1 else 2)
  {
    var t := TwoBlocks(flagged);
    forall b | b in t.blocks && b != DEADBEEF ensures b in Forked().tree && OnChain(t, 0, [1, 2], b) {
      assert b == 1 || b == 2;
    }
  }

  predicate StartsWith(s: Script, n: nat, m: Moment)
  {
    |s| >= n && forall i | 0 <= i < n :: s[i] == m
  }

  /** Storing a block without transactions below the activation height. */
  lemma StoreEmpty(cfg: Config, t: Tables, b: Block, s: Script)
    requires b.hash in Forked().tree && b.txs == [] && b.height < cfg.activation && CanUpsert(t, b.hash, b.height)
    requires |s| >= 2 && s[0].up && s[1].up
    ensures StoreBlockSpec(Forked(), cfg, t, b, s) == Out(Ok(()), Upserted(t, b.hash, b.height), s[2..])
  {
    hide CanUpsert;
    assert Rest(s) == s[1..] && Rest(Rest(s)) == s[2..];
  }

  /** Only the genesis block is stored. */
  function OneBlock(): Tables
  {
    Migrated().(blocks := map[DEADBEEF := BlockRow(-1, false), 1 := BlockRow(0, false)])
  }

  lemma StepsOfTwo()
    ensures CanUpsert(Migrated(), 1, 0) && Upserted(Migrated(), 1, 0) == OneBlock()
    ensures CanUpsert(OneBlock(), 2, 1) && Upserted(OneBlock(), 2, 1) == TwoBlocks(false)
  {
  }

  lemma BlocksOfTwo()
    ensures BlockAt(Forked(), [1, 2], 1) == Block(1, 0, 0, [], Some(2))
    ensures BlockAt(Forked(), [1, 2], 2) == Block(2, 1, 1, [], None)
    ensures 1 in Forked().tree && 2 in Forked().tree
  {
  }

  lemma WalkOfTwo(s: Script)
    requires StartsWith(s, 6, On([1, 2]))
    ensures Walk(Forked(), FromGenesis(), Migrated(), Some(1), s) == WalkOut(Ok(()), TwoBlocks(false), s[6..], [1, 2])
  {
    StepsOfTwo();
    BlocksOfTwo();
    assert FromGenesis().activation == 100;
    hide Forked, FromGenesis, Migrated, OneBlock, TwoBlocks, Upserted, CanUpsert, StoreBlockSpec, BlockAt;
    assert Rest(s) == s[1..] && s[1..][2..] == s[3..] && Rest(s[3..]) == s[4..] && s[4..][2..] == s[6..];
    StoreEmpty(FromGenesis(), Migrated(), BlockAt(Forked(), [1, 2], 1), s[1..]);
    StoreEmpty(FromGenesis(), OneBlock(), BlockAt(Forked(), [1, 2], 2), s[4..]);
    assert Walk(Forked(), FromGenesis(), TwoBlocks(false), None, s[6..]) ==
      WalkOut(Ok(()), TwoBlocks(false), s[6..], []);
    assert Walk(Forked(), FromGenesis(), OneBlock(), Some(2), s[3..]) == WalkOut(Ok(()), TwoBlocks(false), s[6..], [2]);
  }

  lemma MigratedHead(s: Script)
    requires Live(s)
    ensures GetSyncedHeadSpec(Migrated(), s) == Out(Ok(Head(-1, None)), Migrated(), Rest(s))
  {
    assert IsMaxHeight(Migrated().blocks, MaxHeight(Migrated().blocks)) && Migrated().blocks[DEADBEEF].height == -1;
  }

  lemma EmptyPool(t: Tables, s: Script)
    requires |s| >= 2 && s[0].up && s[1].up && s[0].mempool == [] && MempoolTxids(t) == {}
    ensures SyncMempoolSpec(t, s) == PoolOut(Ok(()), t, s[2..], [])
  {
    assert Rest(Rest(s)) == s[2..];
    assert GroupsOf([]) == [] && ToProcess([], {}) == [];
    assert MempoolTxids(t) - Members(GroupsOf([])) == {};
  }

  lemma NoPool(flagged: bool)
    ensures MempoolTxids(TwoBlocks(flagged)) == {}
  {
  }

  /** The first turn of a run stores blocks 1 and 2. */
  lemma FirstTurn(s: Script)
    requires StartsWith(s, 11, On([1, 2]))
    ensures TurnSpec(Forked(), FromGenesis(), Migrated(), s) == TurnOut(TwoBlocks(false), s[11..], Turn([1, 2], []))
  {
    hide Forked, TwoBlocks, GetSyncedHeadSpec, Walk, SyncMempoolSpec, MempoolTxids, Migrated;
    assert Rest(s) == s[1..] && Rest(s[1..]) == s[2..] && Rest(s[2..]) == s[3..];
    assert s[3..][6..] == s[9..] && s[9..][2..] == s[11..];
    MigratedHead(s[1..]);
    assert BlockHashAnswer(s[2..], 0) == Ok(1);
    WalkOfTwo(s[3..]);
    NoPool(false);
    EmptyPool(TwoBlocks(false), s[9..]);
  }

  // ---- The crash -----------------------------------------------------------------------

  function Down(active: seq<Hash>): Moment
  {
    On(active).(up := false)
  }

  /** The first orphan update flags block 2. */
  lemma FlagsTwo()
    ensures Flagged(TwoBlocks(false), 0) == TwoBlocks(true)
  {
  }

  lemma TwoBlockRows()
    ensures MaxHeight(TwoBlocks(false).blocks) == 1
    ensures RowAt(TwoBlocks(false).blocks, 1) == Some(2) && RowAt(TwoBlocks(false).blocks, 0) == Some(1)
  {
    TwoBlocksHold(false);
    hide TwoBlocks, Holds, RowAt;
    TopHeight(Forked(), TwoBlocks(false), 0, [1, 2], 2);
    RowOnChain(Forked(), TwoBlocks(false), 0, [1, 2], 2, 1);
    RowOnChain(Forked(), TwoBlocks(false), 0, [1, 2], 2, 0);
  }

  /** The node has moved to block 3, and the second orphan update does not get through. */
  lemma CrashedHead(s: Script)
    requires |s| >= 7 && StartsWith(s, 6, On([1, 3])) && s[6] == Down([1, 3])
    ensures GetSyncedHeadSpec(TwoBlocks(false), s) == Out(Err(Unavailable), TwoBlocks(true), s[7..])
  {
    TwoBlockRows();
    FlagsTwo();
    var t := TwoBlocks(false);
    hide Forked, TwoBlocks, Flagged, Buried, RowAt, Scan, Settle, MaxHeight, BlockHashAnswer;
    ScanStep(t, 1, 2, 3, s[1..]);
    assert s[1..][2..] == s[3..];
    ScanStep(t, 0, 1, 1, s[3..]);
    assert s[3..][2..] == s[5..];
    SettleCut(t, 0, 1, s[5..]);
    assert s[5..][2..] == s[7..];
    assert Rest(s) == s[1..];
  }

  /** One comparison of the stored hash at height h with the node's. */
  lemma ScanStep(t: Tables, h: nat, stored: Hash, answered: Hash, s: Script)
    requires |s| >= 2 && s[0].up && s[1].up && h < |s[1].active| && s[1].active[h] == answered
    requires RowAt(t.blocks, h) == Some(stored)
    ensures Scan(t, h, s) == if answered == stored then Settle(t, h, stored, s[2..]) else Scan(t, h - 1, s[2..])
  {
    hide RowAt;
  }

  /** The first orphan update gets through, the second does not. */
  lemma SettleCut(t: Tables, h: nat, hash: Hash, s: Script)
    requires |s| >= 2 && s[0].up && !s[1].up
    ensures Settle(t, h, hash, s) == Out(Err(Unavailable), Flagged(t, h), s[2..])
  {
    hide Flagged;
  }

  lemma CrashedTurn(s: Script)
    requires |s| >= 8 && StartsWith(s, 7, On([1, 3])) && s[7] == Down([1, 3])
    ensures TurnSpec(Forked(), FromGenesis(), TwoBlocks(false), s) == TurnOut(TwoBlocks(true), s[8..], Turn([], []))
  {
    hide Forked, TwoBlocks, GetSyncedHeadSpec;
    CrashedHead(s[1..]);
    assert s[1..][7..] == s[8..] && Rest(s) == s[1..];
  }

  /** Blocks 1 and 2 stored, then the crash. */
  function Crash(): Script
  {
    Times(11, On([1, 2])) + Times(7, On([1, 3])) + [Down([1, 3])]
  }

  lemma CrashIsValid()
    ensures ValidScript(Forked(), Crash())
  {
    BranchIsPath([2]);
    BranchIsPath([3]);
    assert [1] + [2] == [1, 2] && [1] + [3] == [1, 3];
    TimesIsValid(11, [1, 2]);
    TimesIsValid(7, [1, 3]);
    hide Path, Forked;
    assert ValidScript(Forked(), [Down([1, 3])]) by {
      assert ValidMoment(Forked(), Times(7, On([1, 3]))[0]);
    }
    BothValid(Times(11, On([1, 2])), Times(7, On([1, 3])));
    BothValid(Times(11, On([1, 2])) + Times(7, On([1, 3])), [Down([1, 3])]);
  }

  /** Every run that begins with the crash goes on from the flagged tables. */
  lemma CrashReached(rest: Script)
    ensures Run(Forked(), FromGenesis(), Migrated(), Crash() + rest).t ==
      Run(Forked(), FromGenesis(), TwoBlocks(true), rest).t
  {
    hide Forked, FromGenesis, TwoBlocks, TurnSpec, Migrated;
    var s := Crash() + rest;
    FirstTurn(s);
    CrashedTurn(s[11..]);
    assert s[11..][8..] == rest;
  }

  // ---- The last turn -------------------------------------------------------------------

  /** A turn whose chain round takes all remaining moments. */
  lemma LastTurn(t: Tables, m: Moment, s: Script)
    requires m.up && SyncBlocksSpec(Forked(), FromGenesis(), t, s).s == []
    ensures Run(Forked(), FromGenesis(), t, [m] + s).t == SyncBlocksSpec(Forked(), FromGenesis(), t, s).t
  {
    hide SyncBlocksSpec, Forked;
    assert Rest([m] + s) == s;
  }

  /** GetSyncedHead, if the node agrees on the highest row and five operations get through. */
  lemma MatchesTop(t: Tables, k: nat, hash: Hash, s: Script)
    requires MaxHeight(t.blocks) == k && RowAt(t.blocks, k) == Some(hash)
    requires |s| >= 5 && (forall i | 0 <= i < 5 :: s[i].up) && k < |s[2].active| && s[2].active[k] == hash
    ensures GetSyncedHeadSpec(t, s) == Out(Ok(Head(k, Some(hash))), Buried(Flagged(t, k)), s[5..])
  {
    hide Flagged, Buried, RowAt;
    assert Rest(Rest(s)) == s[2..] && Rest(s[2..]) == s[3..] && Rest(Rest(s[3..])) == s[5..];
  }

  /** GetSyncedHead matches block 2 at height 1. */
  lemma MatchesTwo(flagged: bool, before: seq<Hash>, after: seq<Hash>)
    requires |before| >= 2 && before[1] == 2
    ensures var out := GetSyncedHeadSpec(TwoBlocks(flagged), Switching(before, after));
      && out.result == Ok(Head(1, Some(2))) && out.s == [On(after), On(after), On(after), On(after)]
      && out.t == Buried(Flagged(TwoBlocks(flagged), 1))
  {
    hide Flagged, Buried, RowAt, GetSyncedHeadSpec, Holds, TwoBlocks;
    TwoBlocksHold(flagged);
    TopHeight(Forked(), TwoBlocks(flagged), 0, [1, 2], if flagged then 1 else 2);
    RowOnChain(Forked(), TwoBlocks(flagged), 0, [1, 2], if flagged then 1 else 2, 1);
    MatchesTop(TwoBlocks(flagged), 1, 2, Switching(before, after));
  }

  /** The block at height 2 is then stored, whatever its parent. */
  lemma StoresNext(flagged: bool, first: Hash, after: seq<Hash>)
    requires first in Forked().tree && Forked().tree[first].height == 2 && Forked().tree[first].txs == []
    requires |after| == 3 && after[2] == first
    ensures var t := Buried(Flagged(TwoBlocks(flagged), 1));
      var out := Walk(Forked(), FromGenesis(), t, Some(first), [On(after), On(after), On(after)]);
      out.stored == [first] && out.s == []
  {
    var b := On(after);
    var t := Buried(Flagged(TwoBlocks(flagged), 1));
    assert Rest([b, b, b]) == [b, b] && Rest([b, b]) == [b];
    var block := BlockAt(Forked(), after, first);
    assert BitcoinBlockStored(t, block).violation.None?;
    assert StoreBlockSpec(Forked(), FromGenesis(), t, block, [b, b]).result.Ok?;
    assert block.next.None?;
  }

  /** A round that matched block 2 and then stores a block at height 2. */
  lemma RoundStores(flagged: bool, before: seq<Hash>, after: seq<Hash>)
    requires |before| >= 2 && before[1] == 2 && |after| == 3
    requires after[2] in Forked().tree && Forked().tree[after[2]].height == 2 && Forked().tree[after[2]].txs == []
    ensures var s := Switching(before, after);
      && SyncBlocksSpec(Forked(), FromGenesis(), TwoBlocks(flagged), s).stored == [after[2]]
      && SyncBlocksSpec(Forked(), FromGenesis(), TwoBlocks(flagged), s).s == []
      && GetSyncedHeadSpec(TwoBlocks(flagged), s).result == Ok(Head(1, Some(2)))
  {
    hide GetSyncedHeadSpec, Walk, Flagged, Buried, Forked;
    MatchesTwo(flagged, before, after);
    StoresNext(flagged, after[2], after);
    var b := On(after);
    assert Rest([b, b, b, b]) == [b, b, b];
  }

  lemma SecondBlocks()
    ensures forall b | b == 4 || b == 5 ::
      b in Forked().tree && Forked().tree[b].height == 2 && Forked().tree[b].txs == []
  {
  }

  lemma NotLinked(flagged: bool, first: Hash)
    requires flagged || first == 4
    ensures !Linked(Forked(), FromGenesis(), TwoBlocks(flagged), 0, Head(1, Some(2)), first)
  {
  }

  /** A round on the two blocks that stores an unlinked block leaves no chain. */
  lemma UnlinkedEnds(flagged: bool, before: seq<Hash>, after: seq<Hash>)
    requires |before| >= 2 && before[1] == 2 && |after| == 3 && (after[2] == 4 || (flagged && after[2] == 5))
    requires Path(Forked(), 0, before) && Path(Forked(), 0, after)
    ensures ValidWorld(Forked()) && ValidScript(Forked(), Switching(before, after))
    ensures SyncBlocksSpec(Forked(), FromGenesis(), TwoBlocks(flagged), Switching(before, after)).s == []
    ensures !HasChain(
      Forked(), SyncBlocksSpec(Forked(), FromGenesis(), TwoBlocks(flagged), Switching(before, after)).t,
      Base(FromGenesis()))
  {
    ForkedIsValid();
    SwitchingIsValid(before, after);
    TwoBlocksHold(flagged);
    SecondBlocks();
    NotLinked(flagged, after[2]);
    hide Forked, TwoBlocks, Linked, Path, Holds, ValidScript, ValidWorld, HasChain;
    RoundStores(flagged, before, after);
    hide SyncBlocksSpec, GetSyncedHeadSpec, Switching;
    UnlinkedRoundBreaks(
      Forked(), FromGenesis(), TwoBlocks(flagged), 0, [1, 2], if flagged then 1 else 2, Switching(before, after));
  }

  // ---- Three runs ----------------------------------------------------------------------

  /** A second turn in which the node changes branch between the match at height 1 and the hash at height 2. */
  function Race(): Script
  {
    Times(11, On([1, 2])) + ([On([1, 2])] + Switching([1, 2], [1, 3, 4]))
  }

  /**
   * The node leaves the branch of block 2 for that of block 3 after GetSyncedHead matched block 2 at height 1 and
   * before the hash at height 2 is read: block 4 is stored above block 2, which is not its parent.
   */
  lemma RacingReorgBreaksChain()
    ensures ValidWorld(Forked()) && ValidScript(Forked(), Race())
    ensures !HasChain(Forked(), Run(Forked(), FromGenesis(), Migrated(), Race()).t, Base(FromGenesis()))
  {
    BranchIsPath([2]);
    BranchIsPath([3, 4]);
    assert [1] + [2] == [1, 2] && [1] + [3, 4] == [1, 3, 4];
    hide Forked, FromGenesis, TwoBlocks, TurnSpec, Migrated, SyncBlocksSpec, HasChain, Path, ValidWorld, ValidScript,
      Switching, On;
    UnlinkedEnds(false, [1, 2], [1, 3, 4]);
    TurnThenRound([1, 2], Switching([1, 2], [1, 3, 4]));
    TwoThenRound(Switching([1, 2], [1, 3, 4]));
  }

  lemma TurnThenRound(active: seq<Hash>, s: Script)
    requires Path(Forked(), 0, active) && ValidScript(Forked(), s)
    ensures ValidScript(Forked(), Times(11, On(active)) + ([On(active)] + s))
  {
    hide Path, Forked, On;
    TimesIsValid(11, active);
    TimesIsValid(1, active);
    assert Times(1, On(active)) == [On(active)];
    BothValid([On(active)], s);
    BothValid(Times(11, On(active)), [On(active)] + s);
  }

  lemma TwoThenRound(s: Script)
    requires SyncBlocksSpec(Forked(), FromGenesis(), TwoBlocks(false), s).s == []
    ensures Run(Forked(), FromGenesis(), Migrated(), Times(11, On([1, 2])) + ([On([1, 2])] + s)).t ==
      SyncBlocksSpec(Forked(), FromGenesis(), TwoBlocks(false), s).t
  {
    hide Forked, FromGenesis, TwoBlocks, TurnSpec, Migrated, SyncBlocksSpec;
    var run := Times(11, On([1, 2])) + ([On([1, 2])] + s);
    FirstTurn(run);
    assert run[11..] == [On([1, 2])] + s;
    LastTurn(TwoBlocks(false), On([1, 2]), s);
  }

  lemma CrashThenRound(active: seq<Hash>, s: Script)
    requires Path(Forked(), 0, active) && ValidScript(Forked(), s)
    requires SyncBlocksSpec(Forked(), FromGenesis(), TwoBlocks(true), s).s == []
    ensures ValidScript(Forked(), Crash() + ([On(active)] + s))
    ensures Run(Forked(), FromGenesis(), Migrated(), Crash() + ([On(active)] + s)).t ==
      SyncBlocksSpec(Forked(), FromGenesis(), TwoBlocks(true), s).t
  {
    assert On(active).up;
    TimesIsValid(1, active);
    assert Times(1, On(active)) == [On(active)];
    hide *;
    BothValid([On(active)], s);
    CrashIsValid();
    BothValid(Crash(), [On(active)] + s);
    CrashReached([On(active)] + s);
    LastTurn(TwoBlocks(true), On(active), s);
  }

  /** After the crash the node returns to block 2 and has block 5 above it. */
  function CrashAndReturn(): Script
  {
    Crash() + ([On([1, 2, 5])] + Switching([1, 2, 5], [1, 2, 5]))
  }

  /**
   * A crash after the first orphan update leaves the row of block 2 flagged at height 1, and the node returns to
   * block 2: GetSyncedHead matches the flagged row and moves it to -2, and block 5 is stored above a hole.
   */
  lemma CrashLeavesHole()
    ensures ValidWorld(Forked()) && ValidScript(Forked(), CrashAndReturn())
    ensures !HasChain(Forked(), Run(Forked(), FromGenesis(), Migrated(), CrashAndReturn()).t, Base(FromGenesis()))
  {
    BranchIsPath([2, 5]);
    assert [1] + [2, 5] == [1, 2, 5];
    hide Forked, FromGenesis, TwoBlocks, Run, Migrated, SyncBlocksSpec, HasChain, Path, ValidWorld, ValidScript,
      Switching, Crash, On;
    UnlinkedEnds(true, [1, 2, 5], [1, 2, 5]);
    CrashThenRound([1, 2, 5], Switching([1, 2, 5], [1, 2, 5]));
  }

  lemma FlaggedGone()
    ensures var t := Buried(Flagged(TwoBlocks(true), 1));
      t.blocks == map[DEADBEEF := BlockRow(-1, false), 1 := BlockRow(0, false), 2 := BlockRow(-2, true)]
  {
  }

  lemma OnlyGenesisLeft(t: Tables)
    requires t.blocks == map[DEADBEEF := BlockRow(-1, false), 1 := BlockRow(0, false), 2 := BlockRow(-2, true)]
    ensures RowAt(t.blocks, 1).None? && Settled(Forked(), t, 0, [1]) && !Settled(Forked(), t, 0, [1, 2])
  {
    forall b | b in t.blocks && b != DEADBEEF && b != 2 ensures OnChain(t, 0, [1], b) {
      assert b == 1;
    }
    assert [1, 2][1] == 2 && t.blocks[2] != BlockRow(1, false);
  }

  /** A completed round that stores nothing and leaves height 1 without a row. */
  ghost predicate SkipsHeight(w: World, cfg: Config, t: Tables, s: Script, active: seq<Hash>)
  {
    var out := SyncBlocksSpec(w, cfg, t, s);
    && ValidScript(w, s) && Steady(s, active) && out.result.Ok? && out.stored == [] && RowAt(out.t.blocks, 1).None?
    && HasChain(w, out.t, Base(cfg)) && !Settled(w, out.t, Base(cfg), FromBase(active, Base(cfg)))
  }

  lemma MatchesFlagged(s: Script)
    requires StartsWith(s, 5, On([1, 2]))
    ensures GetSyncedHeadSpec(TwoBlocks(true), s) ==
      Out(Ok(Head(1, Some(2))), Buried(Flagged(TwoBlocks(true), 1)), s[5..])
  {
    TwoBlocksHold(true);
    TopHeight(Forked(), TwoBlocks(true), 0, [1, 2], 1);
    RowOnChain(Forked(), TwoBlocks(true), 0, [1, 2], 1, 1);
    hide TwoBlocks, Holds, Flagged, Buried, RowAt, GetSyncedHeadSpec;
    MatchesTop(TwoBlocks(true), 1, 2, s);
  }

  lemma IdleRoundOnTwo(s: Script)
    requires StartsWith(s, 6, On([1, 2]))
    ensures SyncBlocksSpec(Forked(), FromGenesis(), TwoBlocks(true), s) ==
      WalkOut(Ok(()), Buried(Flagged(TwoBlocks(true), 1)), s[6..], [])
  {
    MatchesFlagged(s);
    hide Forked, GetSyncedHeadSpec, TwoBlocks, Flagged, Buried;
    assert BlockHashAnswer(s[5..], 2) == Err(OutOfRange) && Rest(s[5..]) == s[6..];
  }

  lemma NotFollowed(t: Tables)
    requires t.blocks == map[DEADBEEF := BlockRow(-1, false), 1 := BlockRow(0, false), 2 := BlockRow(-2, true)]
    ensures RowAt(t.blocks, 1).None? && HasChain(Forked(), t, Base(FromGenesis()))
    ensures !Settled(Forked(), t, Base(FromGenesis()), FromBase([1, 2], Base(FromGenesis())))
  {
    OnlyGenesisLeft(t);
    hide Forked, RowAt, Holds;
    SettledHolds(Forked(), t, 0, [1]);
    assert FromBase([1, 2], 0) == [1, 2];
  }

  lemma SteadyTimes(n: nat, active: seq<Hash>)
    ensures Steady(Times(n, On(active)), active)
  {
  }

  lemma IdleRoundSkips()
    ensures SkipsHeight(Forked(), FromGenesis(), TwoBlocks(true), Times(6, On([1, 2])), [1, 2])
  {
    var s := Times(6, On([1, 2]));
    BranchIsPath([2]);
    assert [1] + [2] == [1, 2];
    TimesIsValid(6, [1, 2]);
    IdleRoundOnTwo(s);
    FlaggedGone();
    NotFollowed(Buried(Flagged(TwoBlocks(true), 1)));
    SteadyTimes(6, [1, 2]);
    hide Forked, FromGenesis, SyncBlocksSpec, TwoBlocks, Flagged, Buried, RowAt, HasChain, ValidScript, Path, Steady,
      Times, Holds;
  }

  /**
   * After the same crash the node returns to block 2 as its tip and stays: the round completes and stores nothing, and
   * height 1 has no row. The rows are still a chain, but not the node's.
   */
  lemma CrashSkipsHeight()
    ensures ValidScript(Forked(), Crash())
    ensures SkipsHeight(
      Forked(), FromGenesis(), Run(Forked(), FromGenesis(), Migrated(), Crash()).t, Times(6, On([1, 2])), [1, 2])
  {
    hide SkipsHeight, Forked, Migrated, TurnSpec, Crash, TwoBlocks, ValidScript;
    CrashIsValid();
    CrashReached([]);
    assert Crash() + [] == Crash();
    IdleRoundSkips();
  }
}
