/** The spaces rows of the sentinel block's transactions: the rows of the meta seen at insertion, once. */
module Tally {
  import opened Node
  import opened Schema
  import opened Chain
  import opened Accounts
  import opened Mempool
  import opened Convergence

  /** The rows of one transaction, in the order of their identifiers. */
  function OfKey(vs: seq<VMetaOut>, key: TxKey): seq<VMetaOut>
  {
    if vs == [] then []
    else OfKey(vs[..|vs| - 1], key) + (if vs[|vs| - 1].key == key then [vs[|vs| - 1]] else [])
  }

  lemma {:induction false} OfKeyConcat(a: seq<VMetaOut>, c: seq<VMetaOut>, key: TxKey)
    ensures OfKey(a + c, key) == OfKey(a, key) + OfKey(c, key)
    decreases |c|
  {
    if c == [] {
      assert a + c == a;
    } else {
      var n := |c| - 1;
      assert (a + c)[..|a + c| - 1] == a + c[..n];
      OfKeyConcat(a, c[..n], key);
    }
  }

  /** All rows are the transaction's own, or none is. */
  lemma {:induction false} OfKeyAll(vs: seq<VMetaOut>, key: TxKey)
    ensures |OfKey(vs, key)| <= |vs|
    ensures OfKey(vs, key) == vs <==> forall i | 0 <= i < |vs| :: vs[i].key == key
  {
    if vs != [] {
      var n := |vs| - 1;
      OfKeyAll(vs[..n], key);
      assert vs == vs[..n] + [vs[n]];
      assert OfKey(vs, key) == vs ==> vs[n].key == key && OfKey(vs[..n], key) == vs[..n];
    }
  }

  lemma {:induction false} OfKeyNone(vs: seq<VMetaOut>, key: TxKey)
    ensures OfKey(vs, key) == [] <==> forall i | 0 <= i < |vs| :: vs[i].key != key
  {
    if vs != [] {
      OfKeyNone(vs[..|vs| - 1], key);
    }
  }

  lemma {:induction false} OfKeyKeys(vs: seq<VMetaOut>, key: TxKey)
    ensures forall i | 0 <= i < |OfKey(vs, key)| :: OfKey(vs, key)[i].key == key
  {
    if vs != [] {
      OfKeyKeys(vs[..|vs| - 1], key);
    }
  }

  /** Rows of a transaction depend only on the rows of its block. */
  lemma {:induction false} OfKeyInBlock(vs: seq<VMetaOut>, key: TxKey)
    ensures OfKey(OfBlock(vs, key.block), key) == OfKey(vs, key)
  {
    if vs != [] {
      var n := |vs| - 1;
      var rest := OfBlock(vs[..n], key.block);
      OfKeyInBlock(vs[..n], key);
      assert rest + [] == rest;
      assert OfKey(vs[..n], key) + [] == OfKey(vs[..n], key);
      OfKeyConcat(rest, [vs[n]], key);
      assert [vs[n]][..0] == [];
      assert OfKey([vs[n]], key) == if vs[n].key == key then [vs[n]] else [];
    }
  }

  lemma {:induction false} OfKeySurviving(vs: seq<VMetaOut>, txids: set<Txid>, x: Txid)
    requires x !in txids
    ensures OfKey(Surviving(vs, txids), TxKey(DEADBEEF, x)) == OfKey(vs, TxKey(DEADBEEF, x))
  {
    if vs != [] {
      var n := |vs| - 1;
      var key := TxKey(DEADBEEF, x);
      OfKeySurviving(vs[..n], txids, x);
      var kept := Surviving(vs[..n], txids);
      assert (kept + [vs[n]])[..|kept|] == kept;
      assert kept + [] == kept;
      assert OfKey(vs[..n], key) + [] == OfKey(vs[..n], key);
    }
  }

  // ---- The tally -----------------------------------------------------------------------

  /** Every sentinel transaction carries exactly the tallied rows. */
  ghost predicate Tallied(t: Tables, tally: map<Txid, seq<VMetaOut>>)
  {
    && tally.Keys == MempoolTxids(t)
    && forall x | x in tally :: OfKey(t.vmetaouts, TxKey(DEADBEEF, x)) == tally[x]
  }

  /** A deletion forgets its transactions; an insertion tallies the rows of the meta it saw. */
  function Counted(tally: map<Txid, seq<VMetaOut>>, c: PoolCommit): map<Txid, seq<VMetaOut>>
  {
    match c
    case Removed(txids) => tally - txids
    case Added(None, _) => tally
    case Added(Some(x), rows) => tally[x := rows]
  }

  function CountedAll(tally: map<Txid, seq<VMetaOut>>, log: seq<PoolCommit>): map<Txid, seq<VMetaOut>>
    decreases |log|
  {
    if log == [] then tally else CountedAll(Counted(tally, log[0]), log[1..])
  }

  /** The last meta of the package belongs to the group's last transaction, and that was fetched. */
  predicate Faithful(c: PoolCommit)
  {
    match c
    case Removed(_) => true
    case Added(None, rows) => rows == []
    case Added(Some(x), rows) => forall i | 0 <= i < |rows| :: rows[i].key.txid == x
  }

  ghost predicate AllFaithful(log: seq<PoolCommit>)
  {
    forall i | 0 <= i < |log| :: Faithful(log[i])
  }

  /** What the commit of one group leaves. */
  ghost predicate Adds(t: Tables, c: PoolCommit, u: Tables)
  {
    && c.Added? && Valid(t) && Valid(u)
    && (c.txid.Some? ==> c.txid.value !in MempoolTxids(t))
    && MempoolTxids(u) == MempoolTxids(t) + (if c.txid.Some? then {c.txid.value} else {})
    && u.vmetaouts == t.vmetaouts + c.rows
    && (forall i | 0 <= i < |c.rows| :: c.rows[i].key.block == DEADBEEF)
  }

  /** No row without its transaction. */
  lemma NoRowsOfStrangers(t: Tables, x: Txid)
    requires Valid(t) && x !in MempoolTxids(t)
    ensures OfKey(t.vmetaouts, TxKey(DEADBEEF, x)) == []
  {
    OfKeyNone(t.vmetaouts, TxKey(DEADBEEF, x));
    forall i | 0 <= i < |t.vmetaouts| ensures t.vmetaouts[i].key != TxKey(DEADBEEF, x) {
      assert t.vmetaouts[i].key in t.transactions;
    }
  }

  /** A group's commit keeps the tally if and only if its rows are its transaction's own. */
  lemma AdditionTalliedIff(t: Tables, tally: map<Txid, seq<VMetaOut>>, c: PoolCommit, u: Tables)
    requires Tallied(t, tally) && Adds(t, c, u)
    ensures Tallied(u, Counted(tally, c)) <==> Faithful(c)
  {
    hide OfKey, MempoolTxids, Valid;
    forall x | x in MempoolTxids(u)
      ensures OfKey(u.vmetaouts, TxKey(DEADBEEF, x)) ==
        (if x in tally then tally[x] else []) + OfKey(c.rows, TxKey(DEADBEEF, x))
    {
      OfKeyConcat(t.vmetaouts, c.rows, TxKey(DEADBEEF, x));
      if x !in tally {
        NoRowsOfStrangers(t, x);
      }
    }
    if Faithful(c) {
      TallyAfter(t, tally, c, u);
    } else {
      UnfaithfulSpoils(t, tally, c, u);
      SpoiltIsNotTallied(u, Counted(tally, c));
    }
  }

  lemma TallyAfter(t: Tables, tally: map<Txid, seq<VMetaOut>>, c: PoolCommit, u: Tables)
    requires Tallied(t, tally) && Adds(t, c, u) && Faithful(c)
    requires forall x | x in MempoolTxids(u) ::
      OfKey(u.vmetaouts, TxKey(DEADBEEF, x)) ==
        (if x in tally then tally[x] else []) + OfKey(c.rows, TxKey(DEADBEEF, x))
    ensures Tallied(u, Counted(tally, c))
  {
    hide OfKey, MempoolTxids, Valid;
    var after := Counted(tally, c);
    forall x | x in after ensures OfKey(u.vmetaouts, TxKey(DEADBEEF, x)) == after[x] {
      OfKeyAll(c.rows, TxKey(DEADBEEF, x));
      OfKeyNone(c.rows, TxKey(DEADBEEF, x));
    }
  }

  /** Some transaction has more rows than tallied, or its tally holds a row of another one. */
  ghost predicate Spoilt(t: Tables, tally: map<Txid, seq<VMetaOut>>)
  {
    && tally.Keys == MempoolTxids(t)
    && exists x :: x in tally && SpoiltAt(t, tally[x], x)
  }

  ghost predicate SpoiltAt(t: Tables, rows: seq<VMetaOut>, x: Txid)
  {
    |OfKey(t.vmetaouts, TxKey(DEADBEEF, x))| > |rows| || exists i :: 0 <= i < |rows| && rows[i].key.txid != x
  }

  lemma SpoiltIsNotTallied(t: Tables, tally: map<Txid, seq<VMetaOut>>)
    requires Spoilt(t, tally)
    ensures !Tallied(t, tally)
  {
    hide OfKey, MempoolTxids;
    var x :| x in tally && SpoiltAt(t, tally[x], x);
    OfKeyKeys(t.vmetaouts, TxKey(DEADBEEF, x));
  }

  lemma UnfaithfulSpoils(t: Tables, tally: map<Txid, seq<VMetaOut>>, c: PoolCommit, u: Tables)
    requires Tallied(t, tally) && Adds(t, c, u) && !Faithful(c)
    ensures Spoilt(u, Counted(tally, c))
  {
    hide OfKey, MempoolTxids, Valid;
    var after := Counted(tally, c);
    assert after.Keys == MempoolTxids(u);
    if c.txid.Some? {
      assert SpoiltAt(u, after[c.txid.value], c.txid.value);
    } else {
      var y := c.rows[0].key.txid;
      assert y in MempoolTxids(u) by { RowTxid(u, |t.vmetaouts|); }
      OfKeyConcat(t.vmetaouts, c.rows, TxKey(DEADBEEF, y));
      OfKeyNone(c.rows, TxKey(DEADBEEF, y));
      assert SpoiltAt(u, after[y], y);
    }
  }

  /** Later insertions do not mend it. */
  lemma SpoiltStays(t: Tables, tally: map<Txid, seq<VMetaOut>>, c: PoolCommit, u: Tables)
    requires Spoilt(t, tally) && Adds(t, c, u)
    ensures Spoilt(u, Counted(tally, c))
  {
    hide OfKey, MempoolTxids, Valid;
    var x :| x in tally && SpoiltAt(t, tally[x], x);
    var after := Counted(tally, c);
    assert after.Keys == MempoolTxids(u);
    OfKeyConcat(t.vmetaouts, c.rows, TxKey(DEADBEEF, x));
    assert after[x] == tally[x];
    assert SpoiltAt(u, after[x], x);
  }

  lemma RowTxid(t: Tables, i: nat)
    requires Valid(t) && i < |t.vmetaouts| && t.vmetaouts[i].key.block == DEADBEEF
    ensures t.vmetaouts[i].key.txid in MempoolTxids(t)
  {
    assert t.vmetaouts[i].key in t.transactions;
  }

  lemma RemovalTallied(t: Tables, tally: map<Txid, seq<VMetaOut>>, gone: set<Txid>)
    requires Valid(t) && Tallied(t, tally)
    ensures Tallied(Dropped(t, gone), tally - gone)
  {
    hide OfKey, MempoolTxids, Valid, Surviving;
    DropKeepsValid(t, gone);
    forall x | x in tally - gone ensures OfKey(Dropped(t, gone).vmetaouts, TxKey(DEADBEEF, x)) == (tally - gone)[x] {
      OfKeySurviving(t.vmetaouts, gone, x);
    }
  }

  // ---- Rounds --------------------------------------------------------------------------

  lemma GroupAdds(w: World, t: Tables, group: seq<Txid>, s: Script)
    requires ValidScript(w, s) && PoolReady(t) && group != [] && Last(group) !in MempoolTxids(t)
    requires ProcessTxGroupSpec(t, group, s).result.Ok?
    ensures var g := ProcessTxGroupSpec(t, group, s); Adds(t, Added(g.stored, g.rows), g.t)
  {
    hide ProcessTxGroupSpec, Valid, Sequenced, MempoolTxids, Untouched;
    GroupEffects(w, t, group, s);
  }

  lemma FaithfulRest(c: PoolCommit, log: seq<PoolCommit>)
    ensures AllFaithful([c] + log) <==> Faithful(c) && AllFaithful(log)
  {
    hide Faithful;
    assert ([c] + log)[0] == c;
    assert forall i | 0 <= i < |log| :: ([c] + log)[i + 1] == log[i];
    assert forall i | 0 < i < |[c] + log| :: ([c] + log)[i] == log[i - 1];
  }

  lemma SkippedSpoilt(t: Tables, tally: map<Txid, seq<VMetaOut>>, n: int)
    requires Spoilt(t, tally)
    ensures Spoilt(t.(nextIndex := n), tally)
  {
    hide OfKey;
    SameTxids(t, n);
    hide MempoolTxids;
    var x :| x in tally && SpoiltAt(t, tally[x], x);
    assert SpoiltAt(t.(nextIndex := n), tally[x], x);
  }

  lemma {:induction false} GroupsStaySpoilt(
    w: World, t: Tables, tally: map<Txid, seq<VMetaOut>>, groups: seq<seq<Txid>>, s: Script)
    requires ValidScript(w, s) && PoolReady(t) && NewLasts(t, groups) && Spoilt(t, tally)
    ensures var out := ProcessGroupsSpec(t, groups, s); Spoilt(out.t, CountedAll(tally, out.log))
    decreases |groups|
  {
    hide ValidScript, PoolReady, Untouched, MempoolTxids, ProcessTxGroupSpec, Spoilt;
    if groups != [] && Live(s) {
      RestValid(w, s);
      var g := ProcessTxGroupSpec(t, groups[0], Rest(s));
      GroupEffects(w, t, groups[0], Rest(s));
      SkippedSpoilt(t, tally, g.t.nextIndex);
      if g.result.Ok? && Live(g.s) {
        RestValid(w, g.s);
        var c := Added(g.stored, g.rows);
        var rest := ProcessGroupsSpec(g.t, groups[1..], Rest(g.s));
        assert ([c] + rest.log)[1..] == rest.log;
        GroupAdds(w, t, groups[0], Rest(s));
        SpoiltStays(t, tally, c, g.t);
        NewLastsRest(t, groups, g.t, if g.stored.Some? then {Last(groups[0])} else {});
        GroupsStaySpoilt(w, g.t, Counted(tally, c), groups[1..], Rest(g.s));
      }
    }
  }

  lemma {:induction false} GroupsTalliedIff(
    w: World, t: Tables, tally: map<Txid, seq<VMetaOut>>, groups: seq<seq<Txid>>, s: Script)
    requires ValidScript(w, s) && PoolReady(t) && NewLasts(t, groups) && Tallied(t, tally)
    ensures var out := ProcessGroupsSpec(t, groups, s); Tallied(out.t, CountedAll(tally, out.log)) <==>
      AllFaithful(out.log)
    decreases |groups|
  {
    hide ValidScript, PoolReady, Untouched, MempoolTxids, ProcessTxGroupSpec, AllFaithful, Faithful, OfKey, Spoilt;
    NoCommits();
    if groups != [] && Live(s) {
      RestValid(w, s);
      var g := ProcessTxGroupSpec(t, groups[0], Rest(s));
      GroupEffects(w, t, groups[0], Rest(s));
      SameTxids(t, g.t.nextIndex);
      if g.result.Ok? && Live(g.s) {
        RestValid(w, g.s);
        var c := Added(g.stored, g.rows);
        var rest := ProcessGroupsSpec(g.t, groups[1..], Rest(g.s));
        assert ([c] + rest.log)[1..] == rest.log;
        FaithfulRest(c, rest.log);
        GroupAdds(w, t, groups[0], Rest(s));
        NewLastsRest(t, groups, g.t, if g.stored.Some? then {Last(groups[0])} else {});
        if Faithful(c) {
          AdditionTalliedIff(t, tally, c, g.t);
          GroupsTalliedIff(w, g.t, Counted(tally, c), groups[1..], Rest(g.s));
        } else {
          UnfaithfulSpoils(t, tally, c, g.t);
          GroupsStaySpoilt(w, g.t, Counted(tally, c), groups[1..], Rest(g.s));
          SpoiltIsNotTallied(rest.t, CountedAll(Counted(tally, c), rest.log));
        }
      }
    }
  }

  lemma NoCommits()
    ensures AllFaithful([])
  {
  }

  /**
   * A round, wherever it stops, leaves each sentinel transaction the rows of its insertion, once, if and only if all
   * its commits are faithful.
   */
  lemma RoundTalliedIff(w: World, t: Tables, tally: map<Txid, seq<VMetaOut>>, s: Script)
    requires ValidScript(w, s) && PoolReady(t) && Tallied(t, tally)
    ensures var out := SyncMempoolSpec(t, s); Tallied(out.t, CountedAll(tally, out.log)) <==> AllFaithful(out.log)
  {
    hide ValidScript, PoolReady, Tallied, MempoolTxids, ProcessGroupsSpec, CleanupSpec, GroupsOf, ToProcess, Members,
      Dropped, AllFaithful, Untouched, EndInEach, NewLasts, Keys, Depends;
    NoCommits();
    RestValid(w, s);
    RestValid(w, Rest(s));
    if Live(s) && Live(Rest(s)) {
      var entries := s[0].mempool;
      EntriesDistinct(w, s);
      MembersOfEntries(entries);
      LastsToProcess(entries, MempoolTxids(t));
      var gone := MempoolTxids(t) - Members(GroupsOf(entries));
      var todo := ToProcess(GroupsOf(entries), MempoolTxids(t));
      CleanupScript(w, gone, Rest(Rest(s)));
      var cleaned := CleanupSpec(gone, Rest(Rest(s)));
      if cleaned.ok {
        var t1 := if gone == {} then t else Dropped(t, gone);
        RemovalTallied(t, tally, gone) by { assert Valid(t) by { PoolIsValid(t); } }
        DropEffect(t, gone);
        EndsAreNew(t1, todo, Keys(entries) - MempoolTxids(t));
        var rest := ProcessGroupsSpec(t1, todo, cleaned.s);
        if gone == {} {
          assert [] + rest.log == rest.log;
          GroupsTalliedIff(w, t, tally, todo, cleaned.s);
        } else {
          assert ([Removed(gone)] + rest.log)[1..] == rest.log;
          FaithfulRest(Removed(gone), rest.log);
          GroupsTalliedIff(w, t1, tally - gone, todo, cleaned.s);
        }
      }
    }
  }

  lemma PoolIsValid(t: Tables)
    requires PoolReady(t)
    ensures Valid(t)
  {
  }
}
