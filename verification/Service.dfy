/** The main loop of cmd/sync: turn after turn of following the chain and then the mempool. */
module Service {
  import opened Node
  import opened Schema
  import opened Database
  import opened Store
  import opened Sync
  import opened Mempool

  /** What one turn of the loop committed: blocks stored, and the mempool's commits. */
  datatype Turn = Turn(stored: seq<Hash>, log: seq<PoolCommit>)

  datatype TurnOut = TurnOut(t: Tables, s: Script, turn: Turn)

  /** Connects, follows the chain, and unless that failed, the mempool. */
  ghost function TurnSpec(w: World, cfg: Config, t: Tables, s: Script): (out: TurnOut)
    ensures |out.s| <= |s| && (s != [] ==> |out.s| < |s|)
  {
    if !Live(s) then TurnOut(t, Rest(s), Turn([], []))
    else
      var blocks := SyncBlocksSpec(w, cfg, t, Rest(s));
      if blocks.result.Err? then TurnOut(blocks.t, blocks.s, Turn(blocks.stored, []))
      else
        var pool := SyncMempoolSpec(blocks.t, blocks.s);
        TurnOut(pool.t, pool.s, Turn(blocks.stored, pool.log))
  }

  datatype ServiceOut = ServiceOut(t: Tables, turns: seq<Turn>)

  function Earlier(turns: seq<Turn>, out: ServiceOut): ServiceOut
  {
    out.(turns := turns + out.turns)
  }

  /** A whole run; it is stopped when the script ends, in the middle of a turn or between two. */
  ghost function Run(w: World, cfg: Config, t: Tables, s: Script): ServiceOut
    decreases |s|
  {
    if s == [] then ServiceOut(t, [])
    else
      var out := TurnSpec(w, cfg, t, s);
      Earlier([out.turn], Run(w, cfg, out.t, out.s))
  }

  method TakeTurn(db: Connection, c: Clients, cfg: Config) returns (ghost turn: Turn)
    requires db.Sound() && db.saved.None?
    modifies db, c
    ensures db.Sound() && db.saved.None?
    ensures TurnOut(db.State(), c.script, turn) == TurnSpec(c.w, cfg, old(db.State()), old(c.script))
  {
    hide SyncBlocksSpec, SyncMempoolSpec;
    turn := Turn([], []);
    var up := c.Reach();
    if !up {
      return;
    }
    var r;
    ghost var stored, log;
    r, stored := SyncBlocks(db, c, cfg);
    turn := Turn(stored, []);
    if r.Err? {
      return;
    }
    r, log := SyncMempool(db, c);
    turn := Turn(stored, log);
  }

  method RunService(db: Connection, c: Clients, cfg: Config) returns (ghost turns: seq<Turn>)
    requires db.Sound() && db.saved.None?
    modifies db, c
    ensures db.Sound() && db.saved.None?
    ensures c.script == []
    ensures ServiceOut(db.State(), turns) == Run(c.w, cfg, old(db.State()), old(c.script))
  {
    hide TurnSpec;
    turns := [];
    ghost var t0, s0 := db.State(), c.script;
    while c.script != []
      invariant db.Sound() && db.saved.None?
      invariant Run(c.w, cfg, t0, s0) == Earlier(turns, Run(c.w, cfg, db.State(), c.script))
      decreases |c.script|
    {
      ghost var t1, s1 := db.State(), c.script;
      ghost var turn := TakeTurn(db, c, cfg);
      EarlierTwice(turns, turn, Run(c.w, cfg, db.State(), c.script));
      turns := turns + [turn];
    }
    assert turns + [] == turns;
  }

  lemma EarlierTwice(turns: seq<Turn>, turn: Turn, out: ServiceOut)
    ensures Earlier(turns, Earlier([turn], out)) == Earlier(turns + [turn], out)
  {
    assert turns + ([turn] + out.turns) == turns + [turn] + out.turns;
  }
}
