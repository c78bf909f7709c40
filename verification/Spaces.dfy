/** Rows of vmetaouts computed from the spaces meta of a transaction, and their insertion. */
module Spaces {
  import opened Outcomes
  import opened Node
  import opened Schema
  import opened Database
  import opened Batch

  /** strings.ToUpper on ASCII. */
  function ToUpper(s: string): string
  {
    seq(|s|, i requires 0 <= i < |s| => if 'a' <= s[i] <= 'z' then s[i] - 'a' + 'A' else s[i])
  }

  /** An empty name is NULL; a leading '@' is dropped. */
  function StoredName(name: string): Option<string>
  {
    if name == "" then None else if name[0] == '@' then Some(name[1..]) else Some(name)
  }

  function CovenantAction(kind: string): Option<Action>
  {
    match ToUpper(kind)
    case "BID" => Some(BID)
    case "RESERVE" => Some(RESERVE)
    case "TRANSFER" => Some(TRANSFER)
    case "ROLLOUT" => Some(ROLLOUT)
    case "REVOKE" => Some(REVOKE)
    case _ => None
  }

  function CreateRow(key: TxKey, c: CreateMeta): Result<VMetaOut>
  {
    var row := VMetaOut(
      key, None, StoredName(c.name), None, Some(c.value), Some(c.scriptPubKey), None,
      None, None, None, None, None, None, Some(key.txid), Some(c.n));
    if c.covenant.kind == "" then Ok(row)
    else
      match CovenantAction(c.covenant.kind)
      case None => Err(UnknownAction)
      case Some(_) => Ok(row.(
        action := CovenantAction(c.covenant.kind), burnIncrement := c.covenant.burnIncrement,
        signature := c.covenant.signature, totalBurned := c.covenant.totalBurned,
        claimHeight := c.covenant.claimHeight, expireHeight := c.covenant.expireHeight))
  }

  function UpdateRow(key: TxKey, u: UpdateMeta): Result<VMetaOut>
  {
    match CovenantAction(u.kind)
    case None => Err(UnknownAction)
    case Some(_) => Ok(VMetaOut(
      key, if u.priority != 0 then Some(u.priority) else None, StoredName(u.output.name),
      if u.reason != "" then Some(u.reason) else None, Some(u.output.value), Some(u.output.scriptPubKey),
      CovenantAction(u.kind), u.output.covenant.burnIncrement, u.output.covenant.signature,
      u.output.covenant.totalBurned, u.output.covenant.claimHeight, u.output.covenant.expireHeight, None,
      Some(u.output.txid), Some(u.output.n)))
  }

  function SpendRow(key: TxKey, e: ScriptError): VMetaOut
  {
    var text :=
      if ToUpper(e.kind) == "REJECT" then (if e.reason != "" then Some(e.reason) else None)
      else Some(e.reason + e.kind);
    VMetaOut(key, None, StoredName(e.name), None, None, None, Some(REJECT), None, None, None, None, None, text, None,
      None)
  }

  function SpendRows(key: TxKey, spends: seq<SpendMeta>): seq<Result<VMetaOut>>
  {
    if spends == [] then []
    else
      (match spends[0].scriptError case Some(e) => [Ok(SpendRow(key, e))] case None => [])
      + SpendRows(key, spends[1..])
  }

  function CreateRows(key: TxKey, creates: seq<CreateMeta>): seq<Result<VMetaOut>>
  {
    seq(|creates|, i requires 0 <= i < |creates| => CreateRow(key, creates[i]))
  }

  function UpdateRows(key: TxKey, updates: seq<UpdateMeta>): seq<Result<VMetaOut>>
  {
    seq(|updates|, i requires 0 <= i < |updates| => UpdateRow(key, updates[i]))
  }

  /** The rows of one transaction in insertion order; Err where the source gives up. */
  function MetaRows(block: Hash, m: MetaTransaction): seq<Result<VMetaOut>>
  {
    var key := TxKey(block, m.txid);
    CreateRows(key, m.creates) + UpdateRows(key, m.updates) + SpendRows(key, m.spends)
  }

  /** The rows of a block's meta. */
  function BlockMetaRows(block: Hash, ms: seq<MetaTransaction>): seq<Result<VMetaOut>>
  {
    if ms == [] then [] else MetaRows(block, ms[0]) + BlockMetaRows(block, ms[1..])
  }

  /** Inserts row after row until one cannot be computed or breaks a constraint. */
  function InsertRows(t: Tables, rows: seq<Result<VMetaOut>>): Step
    decreases |rows|
  {
    if rows == [] then Step(None, t)
    else
      match rows[0]
      case Err(e) => Step(Some(e), t)
      case Ok(v) =>
        var e := MetaViolation(t, v);
        if e.Some? then Step(e, t) else InsertRows(WithMeta(t, v), rows[1..])
  }

  /** The three loops of StoreSpacesTransaction, one method each. */
  method StoreCreates(db: Connection, key: TxKey, creates: seq<CreateMeta>) returns (violation: Option<Error>)
    requires db.Sound()
    modifies db
    ensures db.Sound() && db.saved == old(db.saved)
    ensures Step(violation, db.State()) == InsertRows(old(db.State()), CreateRows(key, creates))
    ensures violation.None? ==> CreatesAdded(old(db.vmetaouts), db.vmetaouts, key, creates)
  {
    CreatesInserted(db.State(), key, creates);
    ghost var t0, rows := db.State(), CreateRows(key, creates);
    violation := None;
    for i := 0 to |creates|
      invariant db.Sound() && db.saved == old(db.saved) && violation.None?
      invariant InsertRows(t0, rows) == InsertRows(db.State(), rows[i..])
    {
      var row := CreateRow(key, creates[i]);
      if row.Err? {
        return Some(row.error);
      }
      violation := db.InsertVMetaOut(row.value);
      if violation.Some? {
        return;
      }
    }
  }

  method StoreUpdates(db: Connection, key: TxKey, updates: seq<UpdateMeta>) returns (violation: Option<Error>)
    requires db.Sound()
    modifies db
    ensures db.Sound() && db.saved == old(db.saved)
    ensures Step(violation, db.State()) == InsertRows(old(db.State()), UpdateRows(key, updates))
    ensures violation.None? ==> UpdatesAdded(old(db.vmetaouts), db.vmetaouts, key, updates)
  {
    UpdatesInserted(db.State(), key, updates);
    ghost var t0, rows := db.State(), UpdateRows(key, updates);
    violation := None;
    for i := 0 to |updates|
      invariant db.Sound() && db.saved == old(db.saved) && violation.None?
      invariant InsertRows(t0, rows) == InsertRows(db.State(), rows[i..])
    {
      var row := UpdateRow(key, updates[i]);
      if row.Err? {
        return Some(row.error);
      }
      violation := db.InsertVMetaOut(row.value);
      if violation.Some? {
        return;
      }
    }
  }

  method StoreSpends(db: Connection, key: TxKey, spends: seq<SpendMeta>) returns (violation: Option<Error>)
    requires db.Sound()
    modifies db
    ensures db.Sound() && db.saved == old(db.saved)
    ensures Step(violation, db.State()) == InsertRows(old(db.State()), SpendRows(key, spends))
    ensures violation.None? ==> RejectsAdded(old(db.vmetaouts), db.vmetaouts, key, spends)
  {
    RejectsInserted(db.State(), key, spends);
    ghost var t0 := db.State();
    violation := None;
    for i := 0 to |spends|
      invariant db.Sound() && db.saved == old(db.saved) && violation.None?
      invariant InsertRows(t0, SpendRows(key, spends)) == InsertRows(db.State(), SpendRows(key, spends[i..]))
    {
      assert spends[i..][1..] == spends[i + 1..];
      if spends[i].scriptError.Some? {
        assert SpendRows(key, spends[i..])[1..] == SpendRows(key, spends[i + 1..]);
        violation := db.InsertVMetaOut(SpendRow(key, spends[i].scriptError.value));
        if violation.Some? {
          return;
        }
      } else {
        assert SpendRows(key, spends[i..]) == SpendRows(key, spends[i + 1..]);
      }
    }
  }

  method StoreSpacesTransaction(db: Connection, m: MetaTransaction, block: Hash) returns (violation: Option<Error>)
    requires db.Sound()
    modifies db
    ensures db.Sound() && db.saved == old(db.saved)
    ensures Step(violation, db.State()) == InsertRows(old(db.State()), MetaRows(block, m))
    ensures violation.None? <==> GoesIn(old(db.State()), block, m)
    ensures violation.None? ==>
      var n := |old(db.vmetaouts)|;
      n <= |db.vmetaouts| && db.vmetaouts[..n] == old(db.vmetaouts) && MetaListed(db.vmetaouts[n..], block, m)
  {
    MetaInserted(db.State(), block, m);
    hide GoesIn, MetaListed;
    var key := TxKey(block, m.txid);
    ghost var creates, updates, spends := CreateRows(key, m.creates), UpdateRows(key, m.updates),
      SpendRows(key, m.spends);
    InsertRowsConcat(db.State(), creates + updates, spends);
    InsertRowsConcat(db.State(), creates, updates);
    violation := StoreCreates(db, key, m.creates);
    if violation.Some? {
      return;
    }
    violation := StoreUpdates(db, key, m.updates);
    if violation.Some? {
      return;
    }
    violation := StoreSpends(db, key, m.spends);
  }

  method StoreSpacesTransactions(db: Connection, ms: seq<MetaTransaction>, block: Hash)
    returns (violation: Option<Error>)
    requires db.Sound()
    modifies db
    ensures db.Sound() && db.saved == old(db.saved)
    ensures Step(violation, db.State()) == InsertRows(old(db.State()), BlockMetaRows(block, ms))
    ensures violation.None? <==> forall i | 0 <= i < |ms| :: GoesIn(old(db.State()), block, ms[i])
    ensures violation.None? ==>
      var n := |old(db.vmetaouts)|;
      n <= |db.vmetaouts| && db.vmetaouts[..n] == old(db.vmetaouts) && Lists(db.vmetaouts[n..], block, ms)
  {
    BlockInserted(db.State(), block, ms);
    hide GoesIn, MetaListed, Lists;
    ghost var t0 := db.State();
    violation := None;
    assert ms[0..] == ms;
    for i := 0 to |ms|
      invariant db.Sound() && db.saved == old(db.saved) && violation.None?
      invariant InsertRows(t0, BlockMetaRows(block, ms)) == InsertRows(db.State(), BlockMetaRows(block, ms[i..]))
    {
      assert ms[i..][1..] == ms[i + 1..];
      InsertRowsConcat(db.State(), MetaRows(block, ms[i]), BlockMetaRows(block, ms[i + 1..]));
      violation := StoreSpacesTransaction(db, ms[i], block);
      if violation.Some? {
        return;
      }
    }
  }

  lemma {:induction false} InsertRowsConcat(t: Tables, a: seq<Result<VMetaOut>>, b: seq<Result<VMetaOut>>)
    ensures InsertRows(t, a + b) ==
      var s := InsertRows(t, a); if s.violation.Some? then s else InsertRows(s.t, b)
    decreases |a|
  {
    if a == [] {
      assert a + b == b;
    } else if a[0].Ok? && MetaViolation(t, a[0].value).None? {
      assert (a + b)[1..] == a[1..] + b;
      InsertRowsConcat(WithMeta(t, a[0].value), a[1..], b);
    }
  }

  // ---- When the spaces part succeeds, and what it then adds ----------------------------

  ghost predicate AllComputed(rows: seq<Result<VMetaOut>>)
  {
    forall i | 0 <= i < |rows| :: rows[i].Ok?
  }

  ghost predicate AllInsertable(t: Tables, rows: seq<Result<VMetaOut>>)
  {
    forall i | 0 <= i < |rows| && rows[i].Ok? :: MetaViolation(t, rows[i].value).None?
  }

  function Values(rows: seq<Result<VMetaOut>>): (vs: seq<VMetaOut>)
    requires forall i | 0 <= i < |rows| :: rows[i].Ok?
    ensures |vs| == |rows|
  {
    seq(|rows|, i requires 0 <= i < |rows| => rows[i].value)
  }

  /** Insertion succeeds if and only if every row can be computed and stored; then exactly these rows are appended. */
  lemma {:induction false} InsertRowsExactly(t: Tables, rows: seq<Result<VMetaOut>>)
    ensures InsertRows(t, rows).violation.None? <==> AllComputed(rows) && AllInsertable(t, rows)
    ensures InsertRows(t, rows).violation.None? ==>
      InsertRows(t, rows).t == t.(vmetaouts := t.vmetaouts + Values(rows))
    ensures Valid(t) ==> Valid(InsertRows(t, rows).t)
    ensures InsertRows(t, rows).t.(vmetaouts := t.vmetaouts) == t
    decreases |rows|
  {
    if rows != [] && rows[0].Ok? && MetaViolation(t, rows[0].value).None? {
      var u := WithMeta(t, rows[0].value);
      InsertRowsExactly(u, rows[1..]);
      assert rows == [rows[0]] + rows[1..];
      assert AllInsertable(t, rows) <==> AllInsertable(u, rows[1..]);
      if AllComputed(rows) {
        assert t.vmetaouts + Values(rows) == u.vmetaouts + Values(rows[1..]);
      }
      if Valid(t) { MetaKeepsValid(t, rows[0].value); }
    } else if rows != [] {
      assert rows[0].Err? || MetaViolation(t, rows[0].value).Some?;
    } else {
      assert t.vmetaouts + Values(rows) == t.vmetaouts;
    }
  }

  /** The word in capital letters, any of which may be small in kind. */
  predicate Spelled(kind: string, word: string)
  {
    |kind| == |word| && forall i | 0 <= i < |word| :: kind[i] == word[i] || kind[i] as int == word[i] as int + 32
  }

  /** One of the five types that creates and updates may have. */
  predicate Known(kind: string)
  {
    Spelled(kind, "BID") || Spelled(kind, "RESERVE") || Spelled(kind, "TRANSFER") || Spelled(kind, "ROLLOUT")
      || Spelled(kind, "REVOKE")
  }

  /** The action is the one that the type spells, if any. */
  predicate Acted(action: Option<Action>, kind: string)
  {
    && (action == Some(BID) <==> Spelled(kind, "BID"))
    && (action == Some(RESERVE) <==> Spelled(kind, "RESERVE"))
    && (action == Some(TRANSFER) <==> Spelled(kind, "TRANSFER"))
    && (action == Some(ROLLOUT) <==> Spelled(kind, "ROLLOUT"))
    && (action == Some(REVOKE) <==> Spelled(kind, "REVOKE"))
    && action != Some(REJECT)
  }

  lemma UpperSpelled(kind: string, word: string)
    requires forall i | 0 <= i < |word| :: 'A' <= word[i] <= 'Z'
    ensures ToUpper(kind) == word <==> Spelled(kind, word)
  {
    if Spelled(kind, word) {
      assert forall i | 0 <= i < |word| :: ToUpper(kind)[i] == word[i];
    }
    if ToUpper(kind) == word {
      forall i | 0 <= i < |word| ensures kind[i] == word[i] || kind[i] as int == word[i] as int + 32 {
        assert ToUpper(kind)[i] == word[i];
      }
    }
  }

  lemma ActionSpelled(kind: string)
    ensures Acted(CovenantAction(kind), kind) && (CovenantAction(kind).Some? <==> Known(kind))
  {
    UpperSpelled(kind, "BID");
    UpperSpelled(kind, "RESERVE");
    UpperSpelled(kind, "TRANSFER");
    UpperSpelled(kind, "ROLLOUT");
    UpperSpelled(kind, "REVOKE");
    hide ToUpper, Spelled;
  }

  /** Every create has no covenant type or a known one, and every update a known type. */
  ghost predicate Recognized(m: MetaTransaction)
  {
    && (forall i | 0 <= i < |m.creates| :: m.creates[i].covenant.kind == "" || Known(m.creates[i].covenant.kind))
    && (forall i | 0 <= i < |m.updates| :: Known(m.updates[i].kind))
  }

  /** No name for an empty one; otherwise the name less a leading '@'. */
  predicate Named(stored: Option<string>, name: string)
  {
    && (stored.None? <==> name == "")
    && (stored.Some? ==> name == "@" + stored.value || (name == stored.value && name[0] != '@'))
  }

  /** The name, less a leading '@', has at most 63 characters. */
  predicate ShortName(name: string)
  {
    |name| <= 63 || (|name| == 64 && name[0] == '@')
  }

  lemma NameStored(name: string)
    ensures Named(StoredName(name), name)
    ensures ShortName(name) <==> StoredName(name).Some? ==> |StoredName(name).value| <= 63
  {
    if name != "" && name[0] == '@' {
      assert name == "@" + name[1..];
    }
  }

  /** The row of an output. */
  predicate Pays(v: VMetaOut, txid: Txid, n: int, value: int, scriptPubKey: string, name: string)
  {
    && v.outpointTxid == Some(txid) && v.outpointIndex == Some(n)
    && v.value == Some(value) && v.scriptPubKey == Some(scriptPubKey) && Named(v.name, name)
    && v.scriptError.None?
  }

  predicate Covenanted(v: VMetaOut, c: Covenant)
  {
    && v.burnIncrement == c.burnIncrement && v.signature == c.signature && v.totalBurned == c.totalBurned
    && v.claimHeight == c.claimHeight && v.expireHeight == c.expireHeight
  }

  predicate Uncovenanted(v: VMetaOut)
  {
    && v.burnIncrement.None? && v.signature.None? && v.totalBurned.None? && v.claimHeight.None?
    && v.expireHeight.None?
  }

  predicate Unprompted(v: VMetaOut)
  {
    v.priority.None? && v.reason.None?
  }

  /** The whole row of a create; without a covenant type the covenant is left out. */
  ghost predicate Creates(v: VMetaOut, txid: Txid, c: CreateMeta)
  {
    && Pays(v, txid, c.n, c.value, c.scriptPubKey, c.name) && Unprompted(v)
    && Acted(v.action, c.covenant.kind)
    && (if v.action.Some? then Covenanted(v, c.covenant) else Uncovenanted(v))
  }

  lemma CreateRowExactly(key: TxKey, c: CreateMeta)
    ensures CreateRow(key, c).Ok? <==> c.covenant.kind == "" || Known(c.covenant.kind)
    ensures CreateRow(key, c).Ok? ==>
      CreateRow(key, c).value.key == key && Creates(CreateRow(key, c).value, key.txid, c)
    ensures CreateRow(key, c).Ok? ==> (NameFits(CreateRow(key, c).value) <==> ShortName(c.name))
  {
    ActionSpelled(c.covenant.kind);
    NameStored(c.name);
    if c.covenant.kind == "" {
      assert !Known("");
    }
    hide CovenantAction, StoredName, Named, ShortName, Spelled, Known;
  }

  /** Zero and empty mean absent. */
  predicate Prompted(v: VMetaOut, u: UpdateMeta)
  {
    && (v.priority.None? <==> u.priority == 0) && (v.priority.Some? ==> v.priority.value == u.priority)
    && (v.reason.None? <==> u.reason == "") && (v.reason.Some? ==> v.reason.value == u.reason)
  }

  /** The whole row of an update. */
  ghost predicate Updates(v: VMetaOut, u: UpdateMeta)
  {
    && Pays(v, u.output.txid, u.output.n, u.output.value, u.output.scriptPubKey, u.output.name)
    && Acted(v.action, u.kind) && Covenanted(v, u.output.covenant) && Prompted(v, u)
  }

  lemma UpdateRowExactly(key: TxKey, u: UpdateMeta)
    ensures UpdateRow(key, u).Ok? <==> Known(u.kind)
    ensures UpdateRow(key, u).Ok? ==> UpdateRow(key, u).value.key == key && Updates(UpdateRow(key, u).value, u)
    ensures UpdateRow(key, u).Ok? ==> (NameFits(UpdateRow(key, u).value) <==> ShortName(u.output.name))
  {
    ActionSpelled(u.kind);
    NameStored(u.output.name);
    hide CovenantAction, StoredName, Named, ShortName, Acted, Known;
  }

  /** The script errors of the spends that have one, in order. */
  function Rejected(spends: seq<SpendMeta>): seq<ScriptError>
  {
    if spends == [] then []
    else (match spends[0].scriptError case Some(e) => [e] case None => []) + Rejected(spends[1..])
  }

  /** The errors stand at increasing places, and every spend with an error has its place. */
  ghost predicate Places(spends: seq<SpendMeta>, errors: seq<ScriptError>, at: seq<nat>)
  {
    && |at| == |errors|
    && (forall p | 0 <= p < |at| :: at[p] < |spends| && spends[at[p]].scriptError == Some(errors[p]))
    && (forall p, q | 0 <= p < q < |at| :: at[p] < at[q])
    && (forall i | 0 <= i < |spends| && spends[i].scriptError.Some? :: i in at)
  }

  lemma PlacesMoved(spends: seq<SpendMeta>, errors: seq<ScriptError>, at: seq<nat>)
    requires spends != [] && spends[0].scriptError.None? && Places(spends[1..], errors, at)
    ensures Places(spends, errors, Moved(at))
  {
    var moved := Moved(at);
    forall i | 0 <= i < |spends| && spends[i].scriptError.Some? ensures i in moved {
      assert spends[1..][i - 1] == spends[i];
      var p :| 0 <= p < |at| && at[p] == i - 1;
      assert moved[p] == i;
    }
  }

  lemma PlacesBefore(spends: seq<SpendMeta>, errors: seq<ScriptError>, e: ScriptError, moved: seq<nat>)
    requires spends != [] && spends[0].scriptError == Some(e)
    requires Places([SpendMeta(0, None)] + spends[1..], errors, moved)
    ensures Places(spends, [e] + errors, [0] + moved)
  {
    var all, other := [0] + moved, [SpendMeta(0, None)] + spends[1..];
    forall p | 0 <= p < |all| ensures all[p] < |spends| && spends[all[p]].scriptError == Some(([e] + errors)[p]) {
      if p > 0 {
        assert all[p] == moved[p - 1] && other[moved[p - 1]].scriptError == Some(errors[p - 1]);
      }
    }
    forall p, q | 0 <= p < q < |all| ensures all[p] < all[q] {
      assert all[q] == moved[q - 1] && other[moved[q - 1]].scriptError.Some?;
    }
    forall i | 0 <= i < |spends| && spends[i].scriptError.Some? ensures i in all {
      if i > 0 {
        assert other[i] == spends[i];
      }
    }
  }

  function Moved(at: seq<nat>): (moved: seq<nat>)
    ensures |moved| == |at| && forall p | 0 <= p < |at| :: moved[p] == at[p] + 1
  {
    seq(|at|, p requires 0 <= p < |at| => at[p] + 1)
  }

  lemma PlacesFirst(spends: seq<SpendMeta>, rest: seq<ScriptError>, at: seq<nat>) returns (all: seq<nat>)
    requires spends != [] && Places(spends[1..], rest, at)
    ensures Places(spends, (match spends[0].scriptError case Some(e) => [e] case None => []) + rest, all)
  {
    hide Places, Moved;
    match spends[0].scriptError {
      case None =>
        assert [] + rest == rest;
        PlacesMoved(spends, rest, at);
        all := Moved(at);
      case Some(e) =>
        var other := [SpendMeta(0, None)] + spends[1..];
        assert other[1..] == spends[1..];
        PlacesMoved(other, rest, at);
        PlacesBefore(spends, rest, e, Moved(at));
        all := [0] + Moved(at);
    }
  }

  lemma {:induction false} RejectedPlaces(spends: seq<SpendMeta>) returns (at: seq<nat>)
    ensures Places(spends, Rejected(spends), at)
  {
    hide Places;
    if spends == [] {
      NoPlaces();
      at := [];
    } else {
      var rest := RejectedPlaces(spends[1..]);
      at := PlacesFirst(spends, Rejected(spends[1..]), rest);
    }
  }

  lemma NoPlaces()
    ensures Places([], [], [])
  {
  }

  /** A rejection: the name and the error's reason, followed by its type unless that is REJECT; nothing else. */
  ghost predicate Rejects(v: VMetaOut, e: ScriptError)
  {
    && v.action == Some(REJECT) && Named(v.name, e.name)
    && (if !Spelled(e.kind, "REJECT") then v.scriptError == Some(e.reason + e.kind)
        else if e.reason == "" then v.scriptError.None?
        else v.scriptError == Some(e.reason))
    && v.outpointTxid.None? && v.outpointIndex.None? && v.value.None? && v.scriptPubKey.None?
    && Unprompted(v) && Uncovenanted(v)
  }

  lemma SpendRowExactly(key: TxKey, e: ScriptError)
    ensures SpendRow(key, e).key == key && Rejects(SpendRow(key, e), e)
    ensures NameFits(SpendRow(key, e)) <==> ShortName(e.name)
  {
    UpperSpelled(e.kind, "REJECT");
    NameStored(e.name);
    hide ToUpper, StoredName, Named, Spelled, ShortName;
  }

  lemma {:induction false} SpendRowsComputed(key: TxKey, spends: seq<SpendMeta>)
    ensures AllComputed(SpendRows(key, spends)) && |SpendRows(key, spends)| == |Rejected(spends)|
    ensures forall i | 0 <= i < |SpendRows(key, spends)| ::
      var v, e := SpendRows(key, spends)[i].value, Rejected(spends)[i];
      v.key == key && Rejects(v, e) && (NameFits(v) <==> ShortName(e.name))
  {
    hide Rejects, SpendRow, NameFits, ShortName;
    if spends != [] {
      SpendRowsComputed(key, spends[1..]);
      if spends[0].scriptError.Some? {
        SpendRowExactly(key, spends[0].scriptError.value);
      }
    }
  }

  lemma MetaRowAt(block: Hash, m: MetaTransaction, i: nat)
    ensures |MetaRows(block, m)| == RowCount(m)
    ensures i < |MetaRows(block, m)| ==>
      var c, u, key := |m.creates|, |m.updates|, TxKey(block, m.txid);
      && |SpendRows(key, m.spends)| == |Rejected(m.spends)|
      && MetaRows(block, m)[i] ==
         if i < c then CreateRow(key, m.creates[i])
         else if i < c + u then UpdateRow(key, m.updates[i - c])
         else SpendRows(key, m.spends)[i - c - u]
  {
    SpendRowsComputed(TxKey(block, m.txid), m.spends);
    hide CreateRow, UpdateRow, SpendRows;
  }

  /** The rows of a transaction: one per create, per update and per spend with a script error. */
  function RowCount(m: MetaTransaction): nat
  {
    |m.creates| + |m.updates| + |Rejected(m.spends)|
  }

  /** What the row at a place says: first the creates, then the updates, then the rejected spends. */
  ghost predicate RowSays(m: MetaTransaction, i: nat, v: VMetaOut)
    requires i < RowCount(m)
  {
    var c, u := |m.creates|, |m.updates|;
    if i < c then Creates(v, m.txid, m.creates[i])
    else if i < c + u then Updates(v, m.updates[i - c])
    else Rejects(v, Rejected(m.spends)[i - c - u])
  }

  /** The name that the row at a place takes. */
  function RowName(m: MetaTransaction, i: nat): string
    requires i < RowCount(m)
  {
    var c, u := |m.creates|, |m.updates|;
    if i < c then m.creates[i].name
    else if i < c + u then m.updates[i - c].output.name
    else Rejected(m.spends)[i - c - u].name
  }

  predicate KindKnown(m: MetaTransaction, i: nat)
  {
    && (i < |m.creates| ==> m.creates[i].covenant.kind == "" || Known(m.creates[i].covenant.kind))
    && (|m.creates| <= i < |m.creates| + |m.updates| ==> Known(m.updates[i - |m.creates|].kind))
  }

  lemma MetaRowExactly(block: Hash, m: MetaTransaction, i: nat)
    requires i < |MetaRows(block, m)| == RowCount(m)
    ensures MetaRows(block, m)[i].Ok? <==> KindKnown(m, i)
    ensures MetaRows(block, m)[i].Ok? ==>
      var v := MetaRows(block, m)[i].value;
      v.key == TxKey(block, m.txid) && RowSays(m, i, v) && (NameFits(v) <==> ShortName(RowName(m, i)))
  {
    hide MetaRows, CreateRow, UpdateRow, SpendRows, Known, Rejects, Creates, Updates, NameFits, ShortName;
    var c, u, key := |m.creates|, |m.updates|, TxKey(block, m.txid);
    MetaRowAt(block, m, i);
    SpendRowsComputed(key, m.spends);
    if i < c {
      CreateRowExactly(key, m.creates[i]);
    } else if i < c + u {
      UpdateRowExactly(key, m.updates[i - c]);
    }
  }

  lemma RecognizedIff(m: MetaTransaction)
    ensures Recognized(m) <==> forall i | 0 <= i < |m.creates| + |m.updates| :: KindKnown(m, i)
  {
    hide Known;
    if forall i | 0 <= i < |m.creates| + |m.updates| :: KindKnown(m, i) {
      forall j | 0 <= j < |m.updates| ensures Known(m.updates[j].kind) {
        assert KindKnown(m, |m.creates| + j);
      }
      forall i | 0 <= i < |m.creates|
        ensures m.creates[i].covenant.kind == "" || Known(m.creates[i].covenant.kind)
      {
        assert KindKnown(m, i);
      }
    }
  }

  /** Every type is recognized, and every name short enough. */
  ghost predicate Fits(m: MetaTransaction)
  {
    Recognized(m) && forall i | 0 <= i < RowCount(m) :: ShortName(RowName(m, i))
  }

  /** The rows of one transaction, and no others. */
  ghost predicate MetaListed(vs: seq<VMetaOut>, block: Hash, m: MetaTransaction)
  {
    && |vs| == RowCount(m)
    && forall i | 0 <= i < |vs| :: vs[i].key == TxKey(block, m.txid) && RowSays(m, i, vs[i])
  }

  /**
   * One row per create, per update and per spend with a script error, in that order and under the transaction's key;
   * all of them can be computed if and only if every covenant type is recognized.
   */
  lemma MetaRowsExactly(block: Hash, m: MetaTransaction)
    ensures AllComputed(MetaRows(block, m)) <==> Recognized(m)
    ensures |MetaRows(block, m)| == RowCount(m)
    ensures forall i | 0 <= i < |MetaRows(block, m)| && MetaRows(block, m)[i].Ok? ::
      var v := MetaRows(block, m)[i].value;
      v.key == TxKey(block, m.txid) && RowSays(m, i, v) && (NameFits(v) <==> ShortName(RowName(m, i)))
  {
    hide MetaRows, RowSays, Recognized, Rejected, NameFits, ShortName, RowName;
    MetaRowAt(block, m, 0);
    RecognizedIff(m);
    var rows := MetaRows(block, m);
    forall i | 0 <= i < |rows|
      ensures rows[i].Ok? <==> KindKnown(m, i)
      ensures rows[i].Ok? ==>
        var v := rows[i].value;
        v.key == TxKey(block, m.txid) && RowSays(m, i, v) && (NameFits(v) <==> ShortName(RowName(m, i)))
    {
      MetaRowExactly(block, m, i);
    }
    assert forall i | |m.creates| + |m.updates| <= i < |rows| :: KindKnown(m, i);
    hide KindKnown;
    if forall i | 0 <= i < |m.creates| + |m.updates| :: KindKnown(m, i) {
      forall i | 0 <= i < |rows| ensures rows[i].Ok? {
        assert KindKnown(m, i);
      }
    } else {
      var i :| 0 <= i < |m.creates| + |m.updates| && !KindKnown(m, i);
      assert rows[i].Err?;
    }
  }

  lemma MetaRowsListed(block: Hash, m: MetaTransaction)
    requires AllComputed(MetaRows(block, m))
    ensures MetaListed(Values(MetaRows(block, m)), block, m)
  {
    MetaRowsExactly(block, m);
    hide MetaRows, RowSays, NameFits, ShortName, RowName, RowCount;
  }

  // ---- The rows of several transactions ------------------------------------------------

  function Total(ms: seq<MetaTransaction>): nat
  {
    if ms == [] then 0 else RowCount(ms[0]) + Total(ms[1..])
  }

  ghost predicate ListedAt(vs: seq<VMetaOut>, at: nat, block: Hash, m: MetaTransaction)
  {
    at + RowCount(m) <= |vs| && MetaListed(vs[at..at + RowCount(m)], block, m)
  }

  /** The rows of all transactions, one transaction after the other, and no others. */
  ghost predicate Lists(vs: seq<VMetaOut>, block: Hash, ms: seq<MetaTransaction>)
  {
    |vs| == Total(ms) && forall i | 0 <= i < |ms| :: ListedAt(vs, Total(ms[..i]), block, ms[i])
  }

  lemma ListsFirst(vs: seq<VMetaOut>, rest: seq<VMetaOut>, block: Hash, ms: seq<MetaTransaction>)
    requires ms != [] && MetaListed(vs, block, ms[0]) && Lists(rest, block, ms[1..])
    ensures Lists(vs + rest, block, ms)
  {
    hide MetaListed, RowCount;
    var all := vs + rest;
    CountListed(vs, block, ms[0]);
    forall i | 0 <= i < |ms| ensures ListedAt(all, Total(ms[..i]), block, ms[i]) {
      if i == 0 {
        assert ms[..0] == [] && all[0..|vs|] == vs;
      } else {
        assert ms[..i][1..] == ms[1..][..i - 1] && ms[..i][0] == ms[0] && ms[1..][i - 1] == ms[i];
        var at := Total(ms[1..][..i - 1]);
        assert ListedAt(rest, at, block, ms[i]);
        assert all[|vs| + at..|vs| + at + RowCount(ms[i])] == rest[at..at + RowCount(ms[i])];
      }
    }
  }

  lemma CountListed(vs: seq<VMetaOut>, block: Hash, m: MetaTransaction)
    requires MetaListed(vs, block, m)
    ensures |vs| == RowCount(m)
  {
  }

  lemma ComputedParts(a: seq<Result<VMetaOut>>, b: seq<Result<VMetaOut>>)
    ensures AllComputed(a + b) <==> AllComputed(a) && AllComputed(b)
    ensures AllComputed(a + b) ==> Values(a + b) == Values(a) + Values(b)
  {
    assert forall i | 0 <= i < |a| :: (a + b)[i] == a[i];
    assert forall i | 0 <= i < |b| :: (a + b)[|a| + i] == b[i];
  }

  lemma InsertableParts(t: Tables, a: seq<Result<VMetaOut>>, b: seq<Result<VMetaOut>>)
    ensures AllInsertable(t, a + b) <==> AllInsertable(t, a) && AllInsertable(t, b)
  {
    hide MetaViolation;
    assert forall i | 0 <= i < |a| :: (a + b)[i] == a[i];
    assert forall i | 0 <= i < |b| :: (a + b)[|a| + i] == b[i];
    assert forall i | |a| <= i < |a + b| :: (a + b)[i] == b[i - |a|];
  }

  /** The rows computed for a block's meta list all its transactions. */
  lemma {:induction false} BlockRowsListed(block: Hash, ms: seq<MetaTransaction>)
    requires AllComputed(BlockMetaRows(block, ms))
    ensures Lists(Values(BlockMetaRows(block, ms)), block, ms)
  {
    hide MetaRows, Lists, MetaListed, Values;
    if ms == [] {
      NothingListed(block);
    } else {
      ComputedParts(MetaRows(block, ms[0]), BlockMetaRows(block, ms[1..]));
      BlockRowsListed(block, ms[1..]);
      MetaRowsListed(block, ms[0]);
      ListsFirst(Values(MetaRows(block, ms[0])), Values(BlockMetaRows(block, ms[1..])), block, ms);
    }
  }

  lemma NothingListed(block: Hash)
    ensures AllComputed([]) && Lists(Values([]), block, [])
  {
  }

  // ---- When the rows of a transaction can be stored ------------------------------------

  /** All its types and names fit, and the transaction is stored unless there are no rows for it. */
  ghost predicate GoesIn(t: Tables, block: Hash, m: MetaTransaction)
  {
    Fits(m) && (RowCount(m) > 0 ==> TxKey(block, m.txid) in t.transactions)
  }

  lemma MetaGoesIn(t: Tables, block: Hash, m: MetaTransaction)
    ensures var rows := MetaRows(block, m);
      AllComputed(rows) && AllInsertable(t, rows) <==> GoesIn(t, block, m)
  {
    MetaRowsExactly(block, m);
    hide MetaRows, RowSays, NameFits, ShortName, RowName, RowCount, Recognized;
    var rows := MetaRows(block, m);
    if AllComputed(rows) && AllInsertable(t, rows) {
      forall i | 0 <= i < RowCount(m) ensures ShortName(RowName(m, i)) {
        assert rows[i].Ok?;
      }
      if RowCount(m) > 0 {
        assert rows[0].Ok?;
      }
    }
  }

  lemma {:induction false} BlockGoesIn(t: Tables, block: Hash, ms: seq<MetaTransaction>)
    ensures var rows := BlockMetaRows(block, ms);
      AllComputed(rows) && AllInsertable(t, rows) <==> forall i | 0 <= i < |ms| :: GoesIn(t, block, ms[i])
  {
    hide MetaRows, AllComputed, AllInsertable, GoesIn;
    if ms == [] {
      NothingToInsert(t);
    } else {
      var first, rest := MetaRows(block, ms[0]), BlockMetaRows(block, ms[1..]);
      ComputedParts(first, rest);
      InsertableParts(t, first, rest);
      MetaGoesIn(t, block, ms[0]);
      BlockGoesIn(t, block, ms[1..]);
      assert forall i | 0 < i < |ms| :: ms[i] == ms[1..][i - 1];
    }
  }

  lemma NothingToInsert(t: Tables)
    ensures AllComputed([]) && AllInsertable(t, [])
  {
  }

  // ---- What the methods append ---------------------------------------------------------

  ghost predicate CreatesAdded(before: seq<VMetaOut>, after: seq<VMetaOut>, key: TxKey, creates: seq<CreateMeta>)
  {
    var n := |before|;
    && |after| == n + |creates| && after[..n] == before
    && forall i | 0 <= i < |creates| :: after[n..][i].key == key && Creates(after[n..][i], key.txid, creates[i])
  }

  lemma CreatesInserted(t: Tables, key: TxKey, creates: seq<CreateMeta>)
    ensures var out := InsertRows(t, CreateRows(key, creates));
      out.violation.None? ==> CreatesAdded(t.vmetaouts, out.t.vmetaouts, key, creates)
  {
    hide CreateRow, Creates, NameFits, ShortName, Known, InsertRows;
    var rows := CreateRows(key, creates);
    InsertRowsExactly(t, rows);
    var out := InsertRows(t, rows);
    if out.violation.None? {
      assert out.t.vmetaouts[|t.vmetaouts|..] == Values(rows);
      forall i | 0 <= i < |creates|
        ensures Values(rows)[i].key == key && Creates(Values(rows)[i], key.txid, creates[i])
      {
        CreateRowExactly(key, creates[i]);
      }
    }
  }

  ghost predicate UpdatesAdded(before: seq<VMetaOut>, after: seq<VMetaOut>, key: TxKey, updates: seq<UpdateMeta>)
  {
    var n := |before|;
    && |after| == n + |updates| && after[..n] == before
    && forall i | 0 <= i < |updates| :: after[n..][i].key == key && Updates(after[n..][i], updates[i])
  }

  lemma UpdatesInserted(t: Tables, key: TxKey, updates: seq<UpdateMeta>)
    ensures var out := InsertRows(t, UpdateRows(key, updates));
      out.violation.None? ==> UpdatesAdded(t.vmetaouts, out.t.vmetaouts, key, updates)
  {
    hide UpdateRow, Updates, NameFits, ShortName, Known, InsertRows;
    var rows := UpdateRows(key, updates);
    InsertRowsExactly(t, rows);
    var out := InsertRows(t, rows);
    if out.violation.None? {
      assert out.t.vmetaouts[|t.vmetaouts|..] == Values(rows);
      forall i | 0 <= i < |updates| ensures Values(rows)[i].key == key && Updates(Values(rows)[i], updates[i]) {
        UpdateRowExactly(key, updates[i]);
      }
    }
  }

  ghost predicate RejectsAdded(before: seq<VMetaOut>, after: seq<VMetaOut>, key: TxKey, spends: seq<SpendMeta>)
  {
    var n, errors := |before|, Rejected(spends);
    && |after| == n + |errors| && after[..n] == before
    && forall i | 0 <= i < |errors| :: after[n..][i].key == key && Rejects(after[n..][i], errors[i])
  }

  lemma RejectsInserted(t: Tables, key: TxKey, spends: seq<SpendMeta>)
    ensures var out := InsertRows(t, SpendRows(key, spends));
      out.violation.None? ==> RejectsAdded(t.vmetaouts, out.t.vmetaouts, key, spends)
  {
    hide SpendRows, Rejects, NameFits, ShortName, InsertRows, Rejected;
    var rows := SpendRows(key, spends);
    InsertRowsExactly(t, rows);
    SpendRowsComputed(key, spends);
    var out := InsertRows(t, rows);
    if out.violation.None? {
      assert out.t.vmetaouts[|t.vmetaouts|..] == Values(rows);
    }
  }

  /** A transaction's rows are inserted if and only if they go in, and then appended as listed. */
  lemma MetaInserted(t: Tables, block: Hash, m: MetaTransaction)
    ensures var out := InsertRows(t, MetaRows(block, m));
      var n := |t.vmetaouts|;
      && (out.violation.None? <==> GoesIn(t, block, m))
      && (out.violation.None? ==>
            n <= |out.t.vmetaouts| && out.t.vmetaouts[..n] == t.vmetaouts
            && MetaListed(out.t.vmetaouts[n..], block, m))
  {
    hide MetaRows, InsertRows, GoesIn, MetaListed;
    var rows := MetaRows(block, m);
    InsertRowsExactly(t, rows);
    MetaGoesIn(t, block, m);
    if InsertRows(t, rows).violation.None? {
      MetaRowsListed(block, m);
      assert InsertRows(t, rows).t.vmetaouts[|t.vmetaouts|..] == Values(rows);
    }
  }

  /** So are those of a block. */
  lemma BlockInserted(t: Tables, block: Hash, ms: seq<MetaTransaction>)
    ensures var out := InsertRows(t, BlockMetaRows(block, ms));
      var n := |t.vmetaouts|;
      && (out.violation.None? <==> forall i | 0 <= i < |ms| :: GoesIn(t, block, ms[i]))
      && (out.violation.None? ==>
            n <= |out.t.vmetaouts| && out.t.vmetaouts[..n] == t.vmetaouts && Lists(out.t.vmetaouts[n..], block, ms))
  {
    hide BlockMetaRows, InsertRows, GoesIn, Lists;
    var rows := BlockMetaRows(block, ms);
    InsertRowsExactly(t, rows);
    BlockGoesIn(t, block, ms);
    if InsertRows(t, rows).violation.None? {
      BlockRowsListed(block, ms);
      assert InsertRows(t, rows).t.vmetaouts[|t.vmetaouts|..] == Values(rows);
    }
  }

  // ---- No row of spaces breaks a unique constraint -------------------------------------

  lemma MetaErrors(block: Hash, m: MetaTransaction)
    ensures forall i | 0 <= i < |MetaRows(block, m)| :: MetaRows(block, m)[i] != Err(UniqueViolation)
  {
    SpendRowsComputed(TxKey(block, m.txid), m.spends);
    hide SpendRows;
  }

  lemma {:induction false} InsertRowsErrors(t: Tables, rows: seq<Result<VMetaOut>>)
    requires forall i | 0 <= i < |rows| :: rows[i] != Err(UniqueViolation)
    ensures InsertRows(t, rows).violation != Some(UniqueViolation)
    decreases |rows|
  {
    if rows != [] && rows[0].Ok? && MetaViolation(t, rows[0].value).None? {
      InsertRowsErrors(WithMeta(t, rows[0].value), rows[1..]);
    }
  }
}
