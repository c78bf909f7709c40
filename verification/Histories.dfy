/**
 * Any alternation of runs of the service and runs of the backfill on one database, each stopped anywhere: what holds
 * after every one of them.
 */
module Histories {
  import opened Outcomes
  import opened Node
  import opened Schema
  import opened Store
  import opened Chain
  import opened Safety
  import opened ForkPoint
  import opened Ledger
  import opened Accounts
  import opened Collisions
  import opened Rows
  import opened Rebuild
  import opened Mempool
  import opened Convergence
  import opened Tally
  import opened Service
  import opened Runs
  import opened Backfill
  import opened Gaps
  import opened Filling
  import opened Genesis

  // ---- A backfill leaves the mempool alone ---------------------------------------------

  lemma {:induction false} FillSamePool(
    w: World, cfg: Config, t: Tables, commits: multiset<Hash>, next: Option<Hash>, beginning: int, s: Script)
    requires ValidWorld(w) && ValidScript(w, s) && Balanced(w, cfg, t, commits)
    ensures SamePool(t, Fill(w, cfg, t, next, beginning, s).t)
    decreases |s|
  {
    hide Accounted, Valid, Conserved, StoreBlockSpec, ValidScript, ValidWorld, Committed, Storable, CanUpsert,
      SamePool, OnlyOrphans;
    RestValid(w, s);
    RestValid(w, Rest(s));
    NoOrphans(t);
    OrphansSamePool(t, t);
    if next.Some? {
      var answer := BlockAnswer(w, s, next.value);
      if answer.Ok? {
        var b := answer.value;
        NextIsChild(w, s, next.value);
        if b.height <= beginning {
          StoreScript(w, cfg, t, b, Rest(s));
          var out := StoreBlockSpec(w, cfg, t, b, Rest(s));
          if out.result.Ok? {
            StoreBlockExactly(w, cfg, t, b, Rest(s));
            CommittedSamePool(w, cfg, t, b, out.t);
            BalancedStore(w, cfg, t, commits, b, Rest(s));
            FillSamePool(w, cfg, out.t, commits + multiset{b.hash}, b.next, beginning, out.s);
            SamePoolTwice(t, out.t, Fill(w, cfg, out.t, b.next, beginning, out.s).t);
          }
        } else if Live(Rest(s)) {
          FillSamePool(w, cfg, t, commits, b.next, beginning, Rest(Rest(s)));
        }
      }
    }
  }

  lemma PassSamePool(w: World, cfg: Config, t: Tables, commits: multiset<Hash>, s: Script)
    requires ValidWorld(w) && ValidScript(w, s) && Balanced(w, cfg, t, commits) && OwnHeights(w, t)
    ensures SamePool(t, SyncGapBlocksSpec(w, cfg, t, s).t)
  {
    hide Balanced, OwnHeights, GetSyncedHeadSpec, Search, Fill, ValidScript, ValidWorld, OnlyOrphans, SamePool,
      BlockHashAnswer;
    HeadOwnHeights(w, t, s);
    var head := GetSyncedHeadSpec(t, s);
    OrphansSamePool(t, head.t);
    BalancedOrphans(w, cfg, t, commits, head.t);
    if head.result.Ok? {
      SearchScript(w, head.t, head.result.value.height, None, head.s);
      var found := Search(head.t, head.result.value.height, None, head.s);
      RestValid(w, found.s);
      if found.result.Ok? && found.result.value.beginning.Some? {
        var first := BlockHashAnswer(found.s, found.result.value.end + 1);
        var beginning := found.result.value.beginning.value;
        if first.Ok? {
          FillSamePool(w, cfg, head.t, commits, Some(first.value), beginning, Rest(found.s));
          SamePoolTwice(t, head.t, Fill(w, cfg, head.t, Some(first.value), beginning, Rest(found.s)).t);
        }
      }
    }
  }

  lemma {:induction false} BackfillSamePool(w: World, cfg: Config, t: Tables, commits: multiset<Hash>, s: Script)
    requires ValidWorld(w) && ValidScript(w, s) && Balanced(w, cfg, t, commits) && OwnHeights(w, t)
    ensures SamePool(t, BackfillSpec(w, cfg, t, s).t)
    decreases |s|
  {
    hide Balanced, OwnHeights, SyncGapBlocksSpec, ValidScript, ValidWorld, SamePool, OnlyOrphans;
    NoOrphans(t);
    OrphansSamePool(t, t);
    if s != [] {
      PassSamePool(w, cfg, t, commits, s);
      BalancedPass(w, cfg, t, commits, s);
      var out := SyncGapBlocksSpec(w, cfg, t, s);
      if out.result.Err? {
        BackfillSamePool(w, cfg, out.t, commits + multiset(out.stored), out.s);
        SamePoolTwice(t, out.t, BackfillSpec(w, cfg, out.t, out.s).t);
      }
    }
  }

  /** A whole backfill keeps what the service relies on, and touches nothing of the mempool's. */
  lemma BackfillConsistent(w: World, cfg: Config, t: Tables, commits: multiset<Hash>, s: Script)
    requires ValidWorld(w) && ValidScript(w, s) && Consistent(w, cfg, t, commits)
    ensures var out := BackfillSpec(w, cfg, t, s);
      Consistent(w, cfg, out.t, commits + multiset(out.stored)) && SamePool(t, out.t)
  {
    hide Conserved, Accounted, Valid, BackfillSpec, PoolReady, SamePool, OwnHeights;
    BalancedBackfill(w, cfg, t, commits, s);
    BackfillSamePool(w, cfg, t, commits, s);
    PoolReadyKept(t, BackfillSpec(w, cfg, t, s).t);
  }

  // ---- A backfill never collides -------------------------------------------------------

  /**
   * Even if the node changes branch between any two calls, a fill that starts in a gap meets no taken height or row.
   */
  lemma {:induction false} FillNeverCollides(
    w: World, cfg: Config, t: Tables, commits: multiset<Hash>, next: Option<Hash>, high: int, s: Script)
    requires ValidWorld(w) && DistinctBlocks(w) && ValidScript(w, s) && Balanced(w, cfg, t, commits)
    requires next.Some? && next.value in w.tree ==> Absent(t, w.tree[next.value].height - 1, high)
    ensures Fill(w, cfg, t, next, high, s).result != Err(UniqueViolation)
    decreases |s|
  {
    hide ValidScript, StoreBlockSpec, Valid, Conserved, Accounted, ValidWorld, Distinct, Absent;
    RestValid(w, s);
    RestValid(w, Rest(s));
    if next.Some? {
      var answer := BlockAnswer(w, s, next.value);
      if answer.Ok? {
        var b := answer.value;
        NextIsChild(w, s, next.value);
        if b.height <= high {
          StoreScript(w, cfg, t, b, Rest(s));
          AbsentFree(t, b.hash, b.height, high);
          StoreNoCollision(w, cfg, t, b, Rest(s));
          var out := StoreBlockSpec(w, cfg, t, b, Rest(s));
          if out.result.Ok? {
            StoredRow(w, cfg, t, b, Rest(s));
            StillAbsent(w, t, b.hash, b.height, high, out.t);
            BalancedStore(w, cfg, t, commits, b, Rest(s));
            FillNeverCollides(w, cfg, out.t, commits + multiset{b.hash}, b.next, high, out.s);
          }
        } else if Live(Rest(s)) {
          NothingAbsent(t, b.height, high);
          FillNeverCollides(w, cfg, t, commits, b.next, high, Rest(Rest(s)));
        }
      }
    }
  }

  lemma NothingAbsent(t: Tables, h: int, high: int)
    requires h >= high
    ensures Absent(t, h, high)
  {
  }

  lemma PassNeverCollides(w: World, cfg: Config, t: Tables, commits: multiset<Hash>, s: Script)
    requires ValidWorld(w) && DistinctBlocks(w) && ValidScript(w, s) && Balanced(w, cfg, t, commits) && OwnHeights(w, t)
    ensures SyncGapBlocksSpec(w, cfg, t, s).result != Err(UniqueViolation)
  {
    hide Balanced, OwnHeights, Search, Fill, ValidScript, ValidWorld, DistinctBlocks, OnlyOrphans, Absent, Present,
      Scan, RowAt;
    ScanErrors(t, MaxHeight(t.blocks), Rest(s));
    HeadOwnHeights(w, t, s);
    var head := GetSyncedHeadSpec(t, s);
    BalancedOrphans(w, cfg, t, commits, head.t);
    if head.result.Ok? {
      HeadIsTop(t, s);
      SearchScript(w, head.t, head.result.value.height, None, head.s);
      SearchFinds(head.t, head.result.value.height, head.s);
      var found := Search(head.t, head.result.value.height, None, head.s);
      RestValid(w, found.s);
      if found.result.Ok? && found.result.value.beginning.Some? {
        var h := found.result.value.end + 1;
        if BlockHashAnswer(found.s, h).Ok? {
          AnsweredHash(w, found.s, h);
          FillNeverCollides(w, cfg, head.t, commits, Some(BlockHashAnswer(found.s, h).value),
            found.result.value.beginning.value, Rest(found.s));
        }
      }
    }
  }

  /** No pass of the backfill breaks a unique constraint. */
  ghost predicate PassesNeverCollide(w: World, cfg: Config, t: Tables, s: Script)
    decreases |s|
  {
    s == [] ||
    var out := SyncGapBlocksSpec(w, cfg, t, s);
    out.result != Err(UniqueViolation) && (out.result.Err? ==> PassesNeverCollide(w, cfg, out.t, out.s))
  }

  lemma {:induction false} BackfillNeverCollides(w: World, cfg: Config, t: Tables, commits: multiset<Hash>, s: Script)
    requires ValidWorld(w) && DistinctBlocks(w) && ValidScript(w, s) && Balanced(w, cfg, t, commits) && OwnHeights(w, t)
    ensures PassesNeverCollide(w, cfg, t, s)
    decreases |s|
  {
    hide Balanced, OwnHeights, SyncGapBlocksSpec, ValidScript, ValidWorld, DistinctBlocks;
    if s != [] {
      PassNeverCollides(w, cfg, t, commits, s);
      BalancedPass(w, cfg, t, commits, s);
      var out := SyncGapBlocksSpec(w, cfg, t, s);
      if out.result.Err? {
        BackfillNeverCollides(w, cfg, out.t, commits + multiset(out.stored), out.s);
      }
    }
  }

  // ---- Histories -----------------------------------------------------------------------

  /** One program at work on the database, for as long as its script lasts. */
  datatype Phase =
    | Serve(script: Script)
    | Refill(script: Script)

  /** The tables in the end, the blocks committed, and the mempool's commits in order. */
  datatype Past = Past(t: Tables, commits: multiset<Hash>, log: seq<PoolCommit>)

  ghost function PhaseSpec(w: World, cfg: Config, t: Tables, phase: Phase): Past
  {
    match phase
    case Serve(s) =>
      var out := Run(w, cfg, t, s);
      Past(out.t, Stored(out.turns), Logs(out.turns))
    case Refill(s) =>
      var out := BackfillSpec(w, cfg, t, s);
      Past(out.t, multiset(out.stored), [])
  }

  /** One program after the other, from the given tables. */
  ghost function History(w: World, cfg: Config, t: Tables, phases: seq<Phase>): Past
    decreases |phases|
  {
    if phases == [] then Past(t, multiset{}, [])
    else
      var first := PhaseSpec(w, cfg, t, phases[0]);
      var rest := History(w, cfg, first.t, phases[1..]);
      Past(rest.t, first.commits + rest.commits, first.log + rest.log)
  }

  ghost predicate ValidPhases(w: World, phases: seq<Phase>)
  {
    forall i | 0 <= i < |phases| :: ValidScript(w, phases[i].script)
  }

  lemma PhaseConsistent(w: World, cfg: Config, t: Tables, commits: multiset<Hash>, phase: Phase)
    requires ValidWorld(w) && ValidScript(w, phase.script) && Consistent(w, cfg, t, commits)
    ensures var out := PhaseSpec(w, cfg, t, phase); Consistent(w, cfg, out.t, commits + out.commits)
  {
    hide Consistent, Run, BackfillSpec, ValidScript, ValidWorld, SamePool;
    match phase {
      case Serve(s) => RunConsistent(w, cfg, t, commits, s);
      case Refill(s) => BackfillConsistent(w, cfg, t, commits, s);
    }
  }

  lemma {:induction false} HistoryConsistent(
    w: World, cfg: Config, t: Tables, commits: multiset<Hash>, phases: seq<Phase>)
    requires ValidWorld(w) && ValidPhases(w, phases) && Consistent(w, cfg, t, commits)
    ensures var out := History(w, cfg, t, phases); Consistent(w, cfg, out.t, commits + out.commits)
    decreases |phases|
  {
    hide Consistent, PhaseSpec, ValidScript, ValidWorld;
    assert commits + multiset{} == commits;
    if phases != [] {
      var first := PhaseSpec(w, cfg, t, phases[0]);
      PhaseConsistent(w, cfg, t, commits, phases[0]);
      HistoryConsistent(w, cfg, first.t, commits + first.commits, phases[1..]);
      var rest := History(w, cfg, first.t, phases[1..]);
      assert commits + first.commits + rest.commits == commits + (first.commits + rest.commits);
    }
  }

  /**
   * From the migrated database, whatever the node does and wherever each program is stopped: the schema's constraints
   * hold, no committed block is lost, every stored block has exactly its transactions and, for each of its commits, its
   * spaces rows, and rows sit at their blocks' heights.
   */
  lemma EveryHistoryIsBalanced(w: World, cfg: Config, phases: seq<Phase>)
    requires ValidWorld(w) && ValidPhases(w, phases)
    ensures var out := History(w, cfg, Migrated(), phases); Consistent(w, cfg, out.t, out.commits)
  {
    hide Consistent, History, ValidPhases, ValidWorld;
    MigratedConsistent(w, cfg);
    HistoryConsistent(w, cfg, Migrated(), multiset{}, phases);
    assert multiset{} + History(w, cfg, Migrated(), phases).commits == History(w, cfg, Migrated(), phases).commits;
  }

  /** No program of the history breaks a unique constraint. */
  ghost predicate NoneCollides(w: World, cfg: Config, t: Tables, phases: seq<Phase>)
    decreases |phases|
  {
    phases == [] ||
    ((match phases[0]
      case Serve(s) => NeverCollides(w, cfg, t, s)
      case Refill(s) => PassesNeverCollide(w, cfg, t, s))
     && NoneCollides(w, cfg, PhaseSpec(w, cfg, t, phases[0]).t, phases[1..]))
  }

  lemma {:induction false} ConsistentNoneCollides(
    w: World, cfg: Config, t: Tables, commits: multiset<Hash>, phases: seq<Phase>)
    requires ValidWorld(w) && DistinctBlocks(w) && ValidPhases(w, phases) && Consistent(w, cfg, t, commits)
    ensures NoneCollides(w, cfg, t, phases)
    decreases |phases|
  {
    hide Balanced, PoolReady, OwnHeights, PhaseSpec, ValidScript, ValidWorld, DistinctBlocks, NeverCollides,
      PassesNeverCollide;
    if phases != [] {
      var first := PhaseSpec(w, cfg, t, phases[0]);
      match phases[0] {
        case Serve(s) => ConsistentNeverCollides(w, cfg, t, commits, s);
        case Refill(s) => BackfillNeverCollides(w, cfg, t, commits, s);
      }
      PhaseConsistent(w, cfg, t, commits, phases[0]);
      ConsistentNoneCollides(w, cfg, first.t, commits + first.commits, phases[1..]);
    }
  }

  /** From the migrated database, however service and backfill alternate: no height is taken, no key inserted twice. */
  lemma NoHistoryCollides(w: World, cfg: Config, phases: seq<Phase>)
    requires ValidWorld(w) && DistinctBlocks(w) && ValidPhases(w, phases)
    ensures NoneCollides(w, cfg, Migrated(), phases)
  {
    MigratedConsistent(w, cfg);
    hide Consistent, DistinctBlocks, ValidPhases, ValidWorld;
    ConsistentNoneCollides(w, cfg, Migrated(), multiset{}, phases);
  }

  // ---- The mempool's rows over a history -----------------------------------------------

  /** The rows are as tallied at the beginning, and after each turn of the service. */
  ghost predicate TalliedAlong(
    w: World, cfg: Config, t: Tables, tally: map<Txid, seq<VMetaOut>>, phases: seq<Phase>)
    decreases |phases|
  {
    && Tallied(t, tally)
    && (phases == [] ||
        var out := PhaseSpec(w, cfg, t, phases[0]);
        && (phases[0].Serve? ==> TalliedThroughout(w, cfg, t, tally, phases[0].script))
        && TalliedAlong(w, cfg, out.t, CountedAll(tally, out.log), phases[1..]))
  }

  lemma PhaseTalliedIff(
    w: World, cfg: Config, t: Tables, commits: multiset<Hash>, tally: map<Txid, seq<VMetaOut>>, phase: Phase)
    requires ValidWorld(w) && ValidScript(w, phase.script) && Consistent(w, cfg, t, commits) && Tallied(t, tally)
    ensures var out := PhaseSpec(w, cfg, t, phase);
      && (phase.Serve? ==> (TalliedThroughout(w, cfg, t, tally, phase.script) <==> AllFaithful(out.log)))
      && (phase.Refill? ==> AllFaithful(out.log))
      && (AllFaithful(out.log) ==> Tallied(out.t, CountedAll(tally, out.log)))
  {
    hide Consistent, Run, BackfillSpec, ValidScript, ValidWorld, SamePool, Tallied, AllFaithful, TalliedThroughout;
    NoCommits();
    match phase {
      case Serve(s) => TalliedThroughoutIff(w, cfg, t, commits, tally, s);
      case Refill(s) =>
        BackfillConsistent(w, cfg, t, commits, s);
        TalliedKept(t, BackfillSpec(w, cfg, t, s).t, tally);
    }
  }

  lemma {:induction false} HistoryTalliedIff(
    w: World, cfg: Config, t: Tables, commits: multiset<Hash>, tally: map<Txid, seq<VMetaOut>>, phases: seq<Phase>)
    requires ValidWorld(w) && ValidPhases(w, phases) && Consistent(w, cfg, t, commits) && Tallied(t, tally)
    ensures var out := History(w, cfg, t, phases);
      && (TalliedAlong(w, cfg, t, tally, phases) <==> AllFaithful(out.log))
      && (AllFaithful(out.log) ==> Tallied(out.t, CountedAll(tally, out.log)))
    decreases |phases|
  {
    hide Consistent, PhaseSpec, ValidScript, ValidWorld, Tallied, AllFaithful, TalliedThroughout;
    NoCommits();
    if phases != [] {
      var first := PhaseSpec(w, cfg, t, phases[0]);
      var rest := History(w, cfg, first.t, phases[1..]);
      var after := CountedAll(tally, first.log);
      PhaseConsistent(w, cfg, t, commits, phases[0]);
      PhaseTalliedIff(w, cfg, t, commits, tally, phases[0]);
      FaithfulParts(first.log, rest.log);
      CountedConcat(tally, first.log, rest.log);
      if AllFaithful(first.log) {
        HistoryTalliedIff(w, cfg, first.t, commits + first.commits, after, phases[1..]);
      }
    }
  }

  /**
   * However service and backfill alternate: each sentinel transaction has the rows it was inserted with, once, after
   * every turn, if and only if the last meta of each package belonged to the group's fetched transaction.
   */
  lemma EveryHistoryIsTalliedIff(w: World, cfg: Config, phases: seq<Phase>)
    requires ValidWorld(w) && ValidPhases(w, phases)
    ensures var out := History(w, cfg, Migrated(), phases);
      && (TalliedAlong(w, cfg, Migrated(), map[], phases) <==> AllFaithful(out.log))
      && (AllFaithful(out.log) ==> Tallied(out.t, CountedAll(map[], out.log)))
  {
    MigratedConsistent(w, cfg);
    assert Tallied(Migrated(), map[]);
    hide Consistent, History, AllFaithful, CountedAll, TalliedAlong, ValidPhases, ValidWorld, Migrated;
    HistoryTalliedIff(w, cfg, Migrated(), multiset{}, map[], phases);
  }

  // ---- The chain after a backfill ------------------------------------------------------

  /**
   * A chain from a fast-sync base, after any history; a backfill against an unchanging node, in the end of which the
   * node's chain is stored from the genesis block; and then any run of the service: the rows stay one parent-linked
   * chain from the genesis block after every turn, if and only if the first block that each turn stores is linked.
   */
  lemma BackfilledRunKeepsChainIff(
    w: World, cfg: Config, past: seq<Phase>, base: nat, chain: seq<Hash>, kept: nat, s: Script, active: seq<Hash>,
    run: Script)
    requires ValidWorld(w) && ValidPhases(w, past) && ValidScript(w, s) && Steady(s, active) && ValidScript(w, run)
    requires Holds(w, History(w, cfg, Migrated(), past).t, base, chain, kept) && chain != []
    requires GetSyncedHeadSpec(History(w, cfg, Migrated(), past).t, s).result.Ok?
    requires Affordable(active, GetSyncedHeadSpec(History(w, cfg, Migrated(), past).t, s))
    requires forall i | 0 <= i < base :: StorableAt(w, cfg, active, i)
    ensures var t := History(w, cfg, Migrated(), past).t;
      var u := BackfillSpec(w, cfg, t, s).t;
      && IsNodeChain(w, u, GetSyncedHeadSpec(t, s).result.value.height, active)
      && (ChainThroughout(w, cfg, u, 0, run) <==> AllLinked(w, cfg, u, 0, run))
  {
    hide Balanced, PoolReady, OwnHeights, History, BackfillSpec, GetSyncedHeadSpec, ValidPhases, ValidScript,
      ValidWorld, Steady, Holds, StorableAt, Affordable, ChainThroughout, AllLinked, Migrated, SamePool;
    EveryHistoryIsBalanced(w, cfg, past);
    var before := History(w, cfg, Migrated(), past);
    BackfillReachesGenesisIff(w, cfg, before.t, before.commits, base, chain, kept, s, active);
    BackfillConsistent(w, cfg, before.t, before.commits, s);
    var out := BackfillSpec(w, cfg, before.t, s);
    SettledHolds(w, out.t, 0, active[..GetSyncedHeadSpec(before.t, s).result.value.height + 1]);
    ChainThroughoutIff(w, cfg, out.t, before.commits + multiset(out.stored), 0, run);
  }
}
