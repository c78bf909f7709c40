/** A mempool round against a serving node that one package stops before a later group has its turn. */
module Starved {
  import opened Outcomes
  import opened Node
  import opened Schema
  import opened Spaces
  import opened Mempool
  import opened Convergence
  import opened Interruptions
  import opened Completion
  import opened Misplaced

  function Child(): Transaction
  {
    Transaction(8, 70, 0, [], 0.0)
  }

  /** The meta of 7 creates a space under a covenant type that the indexer does not know. */
  function UnknownMeta(): MetaTransaction
  {
    MetaTransaction(7, [], [CreateMeta(0, "@a", Covenant("MYSTERY", None, None, None, None, None), 1, "")], [])
  }

  /** The mempool is 7 and 8, neither depends on the other, and both can be looked up. */
  function Answering(package: seq<Option<MetaTransaction>>): Moment
  {
    Moment(
      true, [], [MempoolEntry(7, []), MempoolEntry(8, [])], map[7 := Parent(), 8 := Child()], package)
  }

  /** The fifth call checks the package of 7; the last four would do for the group of 8. */
  function Starving(): Script
  {
    var good, bad := Answering([]), Answering([Some(UnknownMeta())]);
    [good, good, good, good, bad, good, good, good, good]
  }

  lemma StarvingIsValid(w: World)
    ensures ValidScript(w, Starving()) && Serves(Starving(), {7, 8})
    ensures Keys(Starving()[0].mempool) == {7, 8}
  {
    assert ValidMoment(w, Answering([])) && ValidMoment(w, Answering([Some(UnknownMeta())]));
    var entries := Starving()[0].mempool;
    assert entries[0].txid == 7 && entries[1].txid == 8;
  }

  lemma StarvingGroups()
    ensures GroupsOf(Starving()[0].mempool) == [[7], [8]] && ToProcess([[7], [8]], {}) == [[7], [8]]
  {
    TwoGroups(MempoolEntry(7, []), MempoolEntry(8, []));
    assert GroupOf(MempoolEntry(7, [])) == [7] && GroupOf(MempoolEntry(8, [])) == [8];
    assert Starving()[0].mempool == [MempoolEntry(7, []), MempoolEntry(8, [])];
    hide GroupsOf, GroupOf, ToProcess, Parent, Child, Starving;
    NothingToProcess();
    OneToProcess([], [7]);
    OneToProcess([[7]], [8]);
    assert [] + [[7]] == [[7]] && [[7]] + [[8]] == [[7], [8]];
  }

  lemma MysteryUnknown()
    ensures !Fits(UnknownMeta())
  {
    var kind := UnknownMeta().creates[0].covenant.kind;
    assert kind == "MYSTERY" && |kind| == 7 && kind[0] == 'M';
    assert !Spelled(kind, "RESERVE");
    assert !Known(kind);
  }

  lemma UnknownDoesNotFit(stored: set<Txid>)
    ensures !PackageFits(stored, [Some(UnknownMeta())])
  {
    MysteryUnknown();
    hide Fits, RowCount;
    assert [Some(UnknownMeta())][0] == Some(UnknownMeta());
  }

  lemma EmptyPackageFits(stored: set<Txid>)
    ensures PackageFits(stored, [])
  {
  }

  lemma MigratedReady()
    ensures PoolReady(Migrated()) && HasIndex(Migrated()) && MempoolTxids(Migrated()) == {}
  {
  }

  /** The group of 7, from after its beginning. */
  lemma FirstGroupFails(w: World)
    ensures var g := ProcessTxGroupSpec(Migrated(), [7], Starving()[3..]);
      g.result.Err? && g.s == Starving()[5..] && g.t.nextIndex == Migrated().nextIndex - 1
  {
    StarvingIsValid(w);
    MigratedReady();
    var s := Starving()[3..];
    assert s[1].package == [Some(UnknownMeta())] && |s| == 6 && s[2..] == Starving()[5..];
    assert ValidScript(w, s);
    hide Starving, Migrated, UnknownMeta, PackageFits, MempoolTxids, PoolReady, ValidScript, ProcessTxGroupSpec,
      Answering;
    ServedSuffix(Starving(), 3, {7, 8});
    UnknownDoesNotFit({7});
    assert {} + {Last([7])} == {7};
    GroupPassesIff(w, Migrated(), [7], s, {7, 8});
    IndexDrawn(w, s);
  }

  /** The sequence moves on once, whether the package fits or not. */
  lemma IndexDrawn(w: World, s: Script)
    requires ValidScript(w, s) && Serves(s, {7, 8}) && |s| >= 2
    ensures ProcessTxGroupSpec(Migrated(), [7], s).t.nextIndex == Migrated().nextIndex - 1
  {
    MigratedReady();
    hide Migrated, MempoolTxids, PoolReady, ValidScript, FetchGroup, InsertRows, LastMetaRows, PackageFits, Serves;
    FetchAll(Migrated(), [7], s, 0, w, {7, 8});
    assert s[1..] != [];
    PackageFitsIff(FetchGroup(Migrated(), [7], s, 0).t, s[1..][0].package);
  }

  /** What the groups come to: none is committed. */
  lemma GroupsStop(w: World)
    ensures var out := ProcessGroupsSpec(Migrated(), [[7], [8]], Starving()[2..]);
      && out.result.Err? && out.log == [] && out.s == Starving()[5..]
      && out.t == Migrated().(nextIndex := Migrated().nextIndex - 1)
  {
    FirstGroupFails(w);
    assert Live(Starving()[2..]) && Rest(Starving()[2..]) == Starving()[3..];
    hide Starving, Migrated, ProcessTxGroupSpec;
  }

  /** The group of 8 would have passed in the moments left. */
  lemma NextGroupPasses(t: Tables)
    requires t == Migrated().(nextIndex := Migrated().nextIndex - 1)
    ensures MempoolTxids(t) == {} && FirstPasses(t, [8], Starving()[5..])
  {
    MigratedReady();
    assert t.transactions == Migrated().transactions;
    var s := Starving()[5..];
    assert |s| == 4 && s[2].package == [];
    EmptyPackageFits(MempoolTxids(t) + {8});
  }

  /**
   * A round from the migrated database against a node that serves every call: the package of 7 has an unknown type, so
   * the round fails with nothing committed, although the group of 8 would have passed next.
   */
  lemma UnknownTypeStarvesGroups(w: World)
    ensures var s := Starving();
      var out := SyncMempoolSpec(Migrated(), s);
      && ValidScript(w, s) && Serves(s, Keys(s[0].mempool)) && Keys(s[0].mempool) == {7, 8}
      && out.result.Err? && out.log == [] && MempoolTxids(out.t) == {}
      && FirstPasses(out.t, [8], out.s)
  {
    StarvingIsValid(w);
    StarvingGroups();
    MigratedReady();
    GroupsStop(w);
    assert Live(Starving()) && Rest(Starving()) == Starving()[1..] && Live(Starving()[1..]);
    assert Rest(Starving()[1..]) == Starving()[2..];
    hide Starving, Migrated, ProcessGroupsSpec, GroupsOf, ToProcess, MempoolTxids, Members, FirstPasses, Serves, Keys;
    assert {} - Members([[7], [8]]) == {};
    NextGroupPasses(ProcessGroupsSpec(Migrated(), [[7], [8]], Starving()[2..]).t);
  }
}
