/** A package of two metas: the group's spaces rows are those of the second. */
module Packages {
  import opened Outcomes
  import opened Node
  import opened Schema
  import opened Spaces
  import opened Mempool
  import opened Convergence
  import opened Interruptions
  import opened Completion
  import opened Misplaced
  import opened Starved
  import opened Served

  /** Each meta creates one space, without a covenant type. */
  function Creating(txid: Txid, name: string): MetaTransaction
  {
    MetaTransaction(txid, [], [CreateMeta(0, name, Covenant("", None, None, None, None, None), 1, "")], [])
  }

  /** Transactions 7 and 8 can be looked up, and the package answers both. */
  function Both(): Moment
  {
    Moment(
      true, [], [], map[7 := Parent(), 8 := Child()],
      [Some(Creating(7, "@a")), Some(Creating(8, "@b"))])
  }

  lemma BothServe(w: World)
    ensures ValidScript(w, [Both(), Both(), Both()]) && Serves([Both(), Both(), Both()], {7, 8})
  {
    assert ValidMoment(w, Both());
  }

  lemma SecondFits()
    ensures PackageFits({8}, Both().package) && RowCount(Creating(8, "@b")) == 1
  {
    var m := Creating(8, "@b");
    assert Both().package[1] == Some(m);
    assert Rejected([]) == [] && RowCount(m) == 1;
    assert RowName(m, 0) == "@b" && Recognized(m);
  }

  lemma SecondListed(rows: seq<VMetaOut>)
    requires LastListed(rows, Both().package)
    ensures |rows| == 1 && rows[0].key == TxKey(DEADBEEF, 8) && rows[0].name == Some("b")
  {
    SecondFits();
    var m := Creating(8, "@b");
    assert Both().package[1] == Some(m);
    assert RowSays(m, 0, rows[0]);
    assert Named(rows[0].name, "@b");
    NameOfB(rows[0].name);
  }

  lemma NameOfB(name: Option<string>)
    requires Named(name, "@b")
    ensures name == Some("b")
  {
    var b := name.value;
    assert "@b" == "@" + b ==> "@b"[1..] == ("@" + b)[1..];
    assert "@b"[1..] == "b" && ("@" + b)[1..] == b;
  }

  /** On the empty mempool, the group of 7 and 8 stores transaction 8 and the space it creates, and nothing of 7. */
  lemma LastOfTwo(w: World)
    ensures var s := [Both(), Both(), Both()];
      var g := ProcessTxGroupSpec(Migrated(), [7, 8], s);
      && ValidScript(w, s) && g.result.Ok? && g.stored == Some(8)
      && |g.t.vmetaouts| == 1 && g.t.vmetaouts[0].key == TxKey(DEADBEEF, 8) && g.t.vmetaouts[0].name == Some("b")
  {
    BothServe(w);
    MigratedReady();
    SecondFits();
    var s := [Both(), Both(), Both()];
    assert s[2].package == Both().package;
    assert Last([7, 8]) == 8 && {} + {8} == {8};
    assert Migrated().vmetaouts == [];
    assert Answers(s, 0, 7) && Answers(s, 1, 8) && s[1].lookup[8].txid == 8;
    hide Migrated, Both, MempoolTxids, PoolReady, ValidScript, Serves, PackageFits, ProcessTxGroupSpec, RowAdded,
      LastListed;
    GroupPassesIff(w, Migrated(), [7, 8], s, {7, 8});
    GroupStores(Migrated(), [7, 8], s);
    var g := ProcessTxGroupSpec(Migrated(), [7, 8], s);
    assert Answers(s, 0, [7, 8][0]);
    assert g.t.vmetaouts == g.rows;
    SecondListed(g.rows);
  }
}
