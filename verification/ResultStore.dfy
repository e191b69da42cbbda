/**
 The Postgres tables behind `AnalysisResultRepository`, and the transactions over them and
 the job table. `View` groups the rows of each job with its game; every transaction is
 proved to take one `Release` step on that view, or to leave everything as it was.
 */
module ResultStore {
  import opened Common
  import opened Chess
  import opened FullGame
  import opened JobLifecycle
  import opened JobTable
  import opened Persistence
  import opened Release
  import opened ReleaseEffects
  import E = JobEffects

  /** Rows indexed by the foreign key they are selected on. */
  datatype Tables = Tables(
    games: map<GameId, GameRow>,
    gameOf: map<JobId, GameId>,
    runs: map<JobId, map<nat, RunRow>>,
    positions: map<RunId, seq<PositionRow>>,
    moves: map<RunId, seq<MoveRow>>)

  function RunRows(t: Tables, id: JobId): map<nat, RunRow> {
    if id in t.runs then t.runs[id] else map[]
  }

  function PositionsOf(t: Tables, run: RunId): seq<PositionRow> {
    if run in t.positions then t.positions[run] else []
  }

  function MovesOf(t: Tables, run: RunId): seq<MoveRow> {
    if run in t.moves then t.moves[run] else []
  }

  function RunsOf(t: Tables, id: JobId): map<nat, StoredRun> {
    map g | g in RunRows(t, id) ::
      StoredRun(RunRows(t, id)[g], PositionsOf(t, RunId(id, g)), MovesOf(t, RunId(id, g)))
  }

  /** The job exists and its game does. */
  predicate Known(t: Tables, id: JobId) {
    id in t.gameOf && t.gameOf[id] in t.games
  }

  function RecordOf(t: Tables, e: Entry, id: JobId): Record
    requires Known(t, id)
  {
    Record(id, e, t.games[t.gameOf[id]], RunsOf(t, id))
  }

  function Records(t: Tables, db: Ledger): map<JobId, Record> {
    map id | id in db && Known(t, id) :: RecordOf(t, db[id], id)
  }

  /** The unique index on (game, profile, version): one job per game. */
  ghost predicate OneJobPerGame(gameOf: map<JobId, GameId>) {
    forall i, j :: i in gameOf && j in gameOf && gameOf[i] == gameOf[j] ==> i == j
  }

  ghost predicate GamesKeyed(games: map<GameId, GameRow>) {
    forall g :: g in games ==> games[g].game == g
  }

  /** Run rows carry the keys they are stored under. */
  ghost predicate RunsKeyed(t: Tables) {
    forall id, g :: Known(t, id) && g in RunRows(t, id) ==>
      RunRows(t, id)[g].id == RunId(id, g) && RunRows(t, id)[g].game == t.gameOf[id]
  }

  /** The foreign key from position and move rows to their run. */
  ghost predicate RowsHaveRuns(t: Tables) {
    forall run :: run in t.positions || run in t.moves ==> run.generation in RunRows(t, run.job)
  }

  ghost predicate Sane(t: Tables) {
    OneJobPerGame(t.gameOf) && GamesKeyed(t.games) && RunsKeyed(t) && RowsHaveRuns(t)
  }

  function SetRunRow(t: Tables, id: JobId, g: nat, row: RunRow): Tables {
    t.(runs := t.runs[id := RunRows(t, id)[g := row]])
  }

  function SetRows(t: Tables, run: RunId, positions: seq<PositionRow>, moves: seq<MoveRow>): Tables {
    t.(positions := t.positions[run := positions], moves := t.moves[run := moves])
  }

  lemma RunsFrame(t: Tables, t': Tables, id: JobId)
    requires RunRows(t', id) == RunRows(t, id)
    requires forall g :: g in RunRows(t, id) ==>
               PositionsOf(t', RunId(id, g)) == PositionsOf(t, RunId(id, g))
               && MovesOf(t', RunId(id, g)) == MovesOf(t, RunId(id, g))
    ensures RunsOf(t', id) == RunsOf(t, id)
  {
  }

  /** The tables with one run replaced, rows and all. */
  function WithRun(t: Tables, id: JobId, g: nat, stored: StoredRun): Tables {
    SetRows(SetRunRow(t, id, g, stored.run), RunId(id, g), stored.positions, stored.moves)
  }

  function WithoutRun(t: Tables, id: JobId, g: nat): Tables {
    t.(runs := t.runs[id := RunRows(t, id) - {g}],
       positions := t.positions - {RunId(id, g)}, moves := t.moves - {RunId(id, g)})
  }

  /** Every record but this job's is as it was, and this job's is the given one. */
  lemma RecordsChange(t: Tables, t': Tables, db: Ledger, id: JobId, r: Record)
    requires id in db && Known(t, id) && Known(t', id) && t'.gameOf == t.gameOf && t'.games.Keys == t.games.Keys
    requires RecordOf(t', db[id], id) == r
    requires forall j :: j in db && Known(t, j) && j != id ==> RecordOf(t', db[j], j) == RecordOf(t, db[j], j)
    ensures Records(t', db) == Records(t, db)[id := r]
  {
  }

  lemma RunsSet(t: Tables, id: JobId, g: nat, stored: StoredRun)
    ensures RunsOf(WithRun(t, id, g, stored), id) == RunsOf(t, id)[g := stored]
  {
  }

  lemma RecordsSetRun(t: Tables, db: Ledger, id: JobId, g: nat, stored: StoredRun)
    requires id in db && Known(t, id)
    ensures var r := Records(t, db)[id];
            Records(WithRun(t, id, g, stored), db) == Records(t, db)[id := r.(runs := r.runs[g := stored])]
  {
    var t' := WithRun(t, id, g, stored);
    forall j | j in db && Known(t, j) && j != id
      ensures RecordOf(t', db[j], j) == RecordOf(t, db[j], j)
    {
      RunsFrame(t, t', j);
    }
    RunsSet(t, id, g, stored);
    RecordsChange(t, t', db, id, RecordOf(t, db[id], id).(runs := RunsOf(t, id)[g := stored]));
  }

  lemma RecordsDropRun(t: Tables, db: Ledger, id: JobId, g: nat)
    requires id in db && Known(t, id)
    ensures var r := Records(t, db)[id];
            Records(WithoutRun(t, id, g), db) == Records(t, db)[id := r.(runs := r.runs - {g})]
  {
    var t' := WithoutRun(t, id, g);
    forall j | j in db && Known(t, j) && j != id
      ensures RecordOf(t', db[j], j) == RecordOf(t, db[j], j)
    {
      RunsFrame(t, t', j);
    }
    assert RunsOf(t', id) == RunsOf(t, id) - {g};
    RecordsChange(t, t', db, id, RecordOf(t, db[id], id).(runs := RunsOf(t, id) - {g}));
  }

  lemma RecordsSetGame(t: Tables, db: Ledger, id: JobId, game: GameRow)
    requires id in db && Known(t, id) && Sane(t)
    ensures var r := Records(t, db)[id];
            Records(t.(games := t.games[t.gameOf[id] := game]), db) == Records(t, db)[id := r.(game := game)]
  {
    var t' := t.(games := t.games[t.gameOf[id] := game]);
    forall j | j in db && Known(t, j)
      ensures RunsOf(t', j) == RunsOf(t, j)
    {
      RunsFrame(t, t', j);
    }
    RecordsChange(t, t', db, id, RecordOf(t, db[id], id).(game := game));
  }

  lemma RecordsSetEntry(t: Tables, db: Ledger, id: JobId, e: Entry)
    requires id in db && Known(t, id)
    ensures Records(t, db[id := e]) == Records(t, db)[id := Records(t, db)[id].(entry := e)]
  {
  }

  // ---------------------------------------------------------------- inserting a result

  /** The first insert loop, with the dictionary it fills. */
  method InsertPositions(run: RunId, evaluations: seq<Evaluation>)
    returns (rows: seq<PositionRow>, positionIds: map<nat, RecordId>)
    ensures rows == PositionRows(run, evaluations)
    ensures positionIds.Keys == Plies(evaluations)
    ensures forall ply :: ply in positionIds ==> positionIds[ply] == RecordId(run, ply)
  {
    rows, positionIds := [], map[];
    for i := 0 to |evaluations|
      invariant rows == PositionRows(run, evaluations[..i])
      invariant positionIds.Keys == Plies(evaluations[..i])
      invariant forall ply :: ply in positionIds ==> positionIds[ply] == RecordId(run, ply)
    {
      assert evaluations[..i + 1][..i] == evaluations[..i];
      assert evaluations[..i + 1] == evaluations[..i] + [evaluations[i]];
      positionIds := positionIds[evaluations[i].ply := RecordId(run, evaluations[i].ply)];
      rows := rows + [PositionRowOf(run, evaluations[i])];
    }
    assert evaluations[..|evaluations|] == evaluations;
  }

  /** The second; a position without an id raises KeyError. */
  method InsertMoves(run: RunId, moves: seq<MoveEvaluation>, positionIds: map<nat, RecordId>)
    returns (rows: Option<seq<MoveRow>>)
    requires forall ply :: ply in positionIds ==> positionIds[ply] == RecordId(run, ply)
    ensures rows.Some? <==> forall m :: m in moves ==> m.before.ply in positionIds && m.after.ply in positionIds
    ensures rows.Some? ==> rows.value == MoveRows(run, moves)
  {
    var inserted: seq<MoveRow> := [];
    for i := 0 to |moves|
      invariant inserted == MoveRows(run, moves[..i])
      invariant forall m :: m in moves[..i] ==> m.before.ply in positionIds && m.after.ply in positionIds
    {
      assert moves[..i + 1][..i] == moves[..i];
      assert moves[..i + 1] == moves[..i] + [moves[i]];
      var m := moves[i];
      if m.before.ply !in positionIds || m.after.ply !in positionIds {
        return None;
      }
      inserted := inserted + [MoveRow(RecordId(run, m.ply), m.ply, m.uci, m.san,
                                      positionIds[m.before.ply], positionIds[m.after.ply])];
    }
    assert moves[..|moves|] == moves;
    return Some(inserted);
  }

  /** What a replacement writes. */
  function Staged(t: Tables, id: JobId, w: Write): Tables {
    WithRun(t, id, w.generation, Stored(RunId(id, w.generation), w.result, w.configuration, w.started, w.finished))
  }

  lemma KeyedWithRun(t: Tables, id: JobId, g: nat, stored: StoredRun)
    requires RunsKeyed(t) && Known(t, id) && stored.run.id == RunId(id, g) && stored.run.game == t.gameOf[id]
    ensures RunsKeyed(WithRun(t, id, g, stored))
  {
    var t' := WithRun(t, id, g, stored);
    forall j, h | Known(t', j) && h in RunRows(t', j)
      ensures RunRows(t', j)[h].id == RunId(j, h) && RunRows(t', j)[h].game == t'.gameOf[j]
    {
      if j != id || h != g {
        assert Known(t, j) && h in RunRows(t, j) && RunRows(t', j)[h] == RunRows(t, j)[h];
      }
    }
  }

  lemma ResolvedWithRun(t: Tables, id: JobId, g: nat, stored: StoredRun)
    requires RowsHaveRuns(t)
    ensures RowsHaveRuns(WithRun(t, id, g, stored))
  {
    var t' := WithRun(t, id, g, stored);
    forall run | run in t'.positions || run in t'.moves
      ensures run.generation in RunRows(t', run.job)
    {
      assert run == RunId(id, g) || run.generation in RunRows(t, run.job);
    }
  }

  lemma SaneWithRun(t: Tables, id: JobId, g: nat, stored: StoredRun)
    requires Sane(t) && Known(t, id) && stored.run.id == RunId(id, g) && stored.run.game == t.gameOf[id]
    ensures Sane(WithRun(t, id, g, stored))
  {
    KeyedWithRun(t, id, g, stored);
    ResolvedWithRun(t, id, g, stored);
  }

  lemma StagedRefines(t: Tables, db: Ledger, id: JobId, w: Write)
    requires id in db && Known(t, id) && Sane(t) && Replace(RecordOf(t, db[id], id), w).Ok?
    ensures Sane(Staged(t, id, w))
    ensures Records(Staged(t, id, w), db) == Records(t, db)[id := Replace(Records(t, db)[id], w).value]
  {
    var stored := Stored(RunId(id, w.generation), w.result, w.configuration, w.started, w.finished);
    SaneWithRun(t, id, w.generation, stored);
    RecordsSetRun(t, db, id, w.generation, stored);
  }

  lemma DeleteThenInsert<K, V>(rows: map<K, V>, key: K, row: V)
    ensures (rows - {key})[key := row] == rows[key := row]
  {
  }

  /** Delete the rows of the run if it exists, keep its identity columns, and insert the new rows. */
  method StageRows(t: Tables, id: JobId, w: Write) returns (staged: Option<Tables>)
    requires Sane(t) && Known(t, id) && t.gameOf[id] == w.result.game
    ensures staged == if Resolvable(w.result) then Some(Staged(t, id, w)) else None
  {
    var run := RunId(id, w.generation);
    var row := RunRowOf(run, w.result, w.configuration, w.started, w.finished);
    var cleared := t;
    if w.generation in RunRows(t, id) {
      row := row.(id := RunRows(t, id)[w.generation].id, game := RunRows(t, id)[w.generation].game);
      cleared := t.(moves := t.moves - {run}, positions := t.positions - {run});
    }
    var positions, positionIds := InsertPositions(run, SortedPositions(w.result));
    var moves := InsertMoves(run, SortedMoves(w.result), positionIds);
    if moves.None? {
      return None;
    }
    var inserted := SetRows(SetRunRow(cleared, id, w.generation, row), run,
                            PositionsOf(cleared, run) + positions, MovesOf(cleared, run) + moves.value);
    assert PositionsOf(cleared, run) == [] && MovesOf(cleared, run) == [];
    assert [] + positions == positions && [] + moves.value == moves.value;
    DeleteThenInsert(t.positions, run, positions);
    DeleteThenInsert(t.moves, run, moves.value);
    return Some(inserted);
  }

  lemma SaneWithGame(t: Tables, id: JobId, game: GameRow)
    requires Sane(t) && Known(t, id) && game.game == t.gameOf[id]
    ensures Sane(t.(games := t.games[t.gameOf[id] := game]))
  {
    var t' := t.(games := t.games[t.gameOf[id] := game]);
    assert forall j :: Known(t', j) <==> Known(t, j);
    assert forall j :: RunRows(t', j) == RunRows(t, j);
    assert RunsKeyed(t');
  }

  lemma SaneWithoutRun(t: Tables, id: JobId, g: nat)
    requires Sane(t)
    ensures Sane(WithoutRun(t, id, g))
  {
    var t' := WithoutRun(t, id, g);
    forall j, h | Known(t', j) && h in RunRows(t', j)
      ensures RunRows(t', j)[h].id == RunId(j, h) && RunRows(t', j)[h].game == t'.gameOf[j]
    {
      assert Known(t, j) && h in RunRows(t, j) && RunRows(t', j)[h] == RunRows(t, j)[h];
    }
    forall run | run in t'.positions || run in t'.moves
      ensures run.generation in RunRows(t', run.job)
    {
      assert run != RunId(id, g) && run.generation in RunRows(t, run.job);
    }
  }

  /** The job's row rewritten and its game rewritten: one record changes. */
  lemma RecordsSetBoth(t: Tables, db: Ledger, id: JobId, e: Entry, game: GameRow)
    requires Sane(t) && id in db && Known(t, id) && game.game == t.gameOf[id]
    ensures var t' := t.(games := t.games[t.gameOf[id] := game]);
            var r := Records(t, db)[id];
            Sane(t') && Records(t', db[id := e]) == Records(t, db)[id := r.(entry := e, game := game)]
  {
    RecordsSetEntry(t, db, id, e);
    RecordsSetGame(t, db[id := e], id, game);
    SaneWithGame(t, id, game);
  }

  lemma SaneWithJob(t: Tables, id: JobId, game: GameId)
    requires Sane(t) && id !in t.gameOf && RunRows(t, id) == map[] && game in t.games
    requires forall j :: j in t.gameOf ==> t.gameOf[j] != game
    ensures Sane(t.(gameOf := t.gameOf[id := game]))
  {
    var t' := t.(gameOf := t.gameOf[id := game]);
    forall j, h | Known(t', j) && h in RunRows(t', j)
      ensures RunRows(t', j)[h].id == RunId(j, h) && RunRows(t', j)[h].game == t'.gameOf[j]
    {
      assert j != id && Known(t, j) && RunRows(t', j) == RunRows(t, j);
    }
    assert forall j :: RunRows(t', j) == RunRows(t, j);
  }

  lemma RecordsAddJob(t: Tables, db: Ledger, id: JobId, game: GameId, e: Entry)
    requires id !in db && id !in t.gameOf && RunRows(t, id) == map[] && game in t.games
    ensures Records(t.(gameOf := t.gameOf[id := game]), db[id := e])
            == Records(t, db)[id := Record(id, e, t.games[game], map[])]
  {
    var t' := t.(gameOf := t.gameOf[id := game]);
    forall j | j in db && Known(t, j)
      ensures RunsOf(t', j) == RunsOf(t, j)
    {
      RunsFrame(t, t', j);
    }
    assert RunsOf(t', id) == map[];
  }

  /** The end of a finalization by its two checks, on the record the staged tables hold. */
  lemma ReleaseCases(t: Tables, db: Ledger, id: JobId, w: Write)
    requires id in db && Known(t, id)
    ensures var e := After(db[id], Event.Complete(w.worker, w.generation, w.finished));
            Release.CompleteAndRelease(Records(t, db)[id], w).Some?
            <==> Accepts(db, id, Event.Complete(w.worker, w.generation, w.finished))
                 && MayRelease(RecordOf(t, e, id), w.generation)
  {
    var e := After(db[id], Event.Complete(w.worker, w.generation, w.finished));
    CompleteVerdict(db[id], w.worker, w.generation, w.finished);
    assert RecordOf(t, e, id) == Records(t, db)[id].(entry := e);
  }

  /** The foreign keys that join the job table: the game of every job, and the job of every run. */
  ghost predicate Joined(t: Tables, db: Ledger) {
    && (forall id :: id in db <==> id in t.gameOf)
    && (forall id :: id in db ==> Known(t, id))
    && (forall id :: id in t.runs ==> id in db)
  }

  lemma JoinedStays(t: Tables, db: Ledger, id: JobId, e: Entry, game: GameRow)
    requires Joined(t, db) && id in db
    ensures Joined(t.(games := t.games[t.gameOf[id] := game]), db[id := e])
  {
  }

  lemma JoinedWithJob(t: Tables, db: Ledger, id: JobId, game: GameId, e: Entry)
    requires Joined(t, db) && game in t.games
    ensures Joined(t.(gameOf := t.gameOf[id := game]), db[id := e])
  {
  }

  /** What the end of a finalization writes when its checks pass. */
  lemma ReleaseWrites(t: Tables, db: Ledger, id: JobId, w: Write)
    requires Sane(t) && Joined(t, db) && id in db
    requires Release.CompleteAndRelease(Records(t, db)[id], w).Some?
    ensures var e := After(db[id], Event.Complete(w.worker, w.generation, w.finished));
            var t' := t.(games := t.games[t.gameOf[id] := PublishedGame(t.games[t.gameOf[id]], w.finished)]);
            && Sane(t') && Joined(t', db[id := e])
            && Records(t', db[id := e])
               == Records(t, db)[id := Release.CompleteAndRelease(Records(t, db)[id], w).value]
  {
    var e := After(db[id], Event.Complete(w.worker, w.generation, w.finished));
    var game := PublishedGame(t.games[t.gameOf[id]], w.finished);
    ReleasedSteps(Records(t, db)[id], w);
    RecordsSetBoth(t, db, id, e, game);
    JoinedStays(t, db, id, e, game);
  }

  // ---------------------------------------------------------------- transactions

  class Results {
    var tables: Tables

    ghost predicate Valid(table: Table)
      reads this, table
    {
      table.Valid() && Sane(tables) && Joined(tables, table.View())
    }

    ghost function View(table: Table): map<JobId, Record>
      reads this, table
    {
      Records(tables, table.View())
    }

    constructor (games: map<GameId, GameRow>)
      requires GamesKeyed(games)
      ensures Sane(tables) && tables == Tables(games, map[], map[], map[], map[])
    {
      tables := Tables(games, map[], map[], map[], map[]);
    }

    /** The job the unique index on the game finds. */
    method JobFor(game: GameId) returns (job: Option<JobId>)
      ensures job.Some? ==> job.value in tables.gameOf && tables.gameOf[job.value] == game
      ensures job.None? ==> forall id :: id in tables.gameOf ==> tables.gameOf[id] != game
    {
      var rest := tables.gameOf.Keys;
      while rest != {}
        invariant rest <= tables.gameOf.Keys
        invariant forall id :: id in tables.gameOf && tables.gameOf[id] == game ==> id in rest
        decreases |rest|
      {
        var id :| id in rest;
        if tables.gameOf[id] == game {
          return Some(id);
        }
        rest := rest - {id};
      }
      return None;
    }

    /**
     `create_for_completed_game` without enqueueing: an ineligible game is refused, a game
     keeps the job it has, and only a game without one gets the proposed row.
     */
    method CreateForCompletedGame(table: Table, game: GameId, proposed: JobId) returns (job: Option<JobId>)
      requires Valid(table) && proposed !in table.jobs
      modifies this, table
      ensures Valid(table) && tables.games == old(tables.games)
      ensures job.None? <==> game !in tables.games || !Eligible(tables.games[game])
      ensures job.Some? ==>
                var row := tables.games[game];
                && row.status == FINISHED && row.verified && row.availableAt.None?
                && row.moves.Some? && |row.moves.value| > 0 && row.payloadHash.Some?
      ensures job.Some? ==> job.value in tables.gameOf && tables.gameOf[job.value] == game
      ensures job == Some(proposed) ==>
                View(table) == old(View(table))[proposed := Created(proposed, tables.games[game], 1).record]
      ensures job == Some(proposed) ==>
                && proposed in table.jobs && table.jobs[proposed].status == PENDING
                && table.jobs[proposed].maxAttempts == 1 && table.jobs[proposed].attempts == 0
      ensures job != Some(proposed) ==> View(table) == old(View(table))
    {
      if game !in tables.games || !Eligible(tables.games[game]) {
        return None;
      }
      var existing := JobFor(game);
      if existing.Some? {
        return existing;
      }
      ghost var db, t := table.View(), tables;
      table.Create(proposed, proposed.owner, 1);
      tables := tables.(gameOf := tables.gameOf[proposed := game]);
      RecordsAddJob(t, db, proposed, game, Fresh(proposed.owner, 1));
      SaneWithJob(t, proposed, game);
      JoinedWithJob(t, db, proposed, game, Fresh(proposed.owner, 1));
      return Some(proposed);
    }

    /** `replace_owned_generation`: stages the new rows; its caller commits them. */
    method ReplaceOwnedGeneration(table: Table, id: JobId, w: Write) returns (staged: Result<Tables, PersistError>)
      requires Valid(table)
      ensures id in View(table) ==>
                var replaced := Replace(View(table)[id], w);
                staged == if replaced.Err? then Err(replaced.error) else Ok(Staged(tables, id, w))
      ensures id !in View(table) ==>
                staged == Err(if OnlyComplete(w.result) then NoAuthority else NotComplete)
    {
      if !OnlyComplete(w.result) {
        return Err(NotComplete);
      }
      if id !in table.jobs || id !in tables.gameOf || tables.gameOf[id] !in tables.games {
        return Err(NoAuthority);
      }
      var job, game := table.jobs[id], tables.games[tables.gameOf[id]];
      if job.status != RUNNING || job.worker != Some(w.worker) || job.generation != w.generation
         || job.leaseExpires.None? || job.leaseExpires.value <= w.finished
         || tables.gameOf[id] != w.result.game
         || game.status !in {FINISHED, DEEP_ANALYSIS_RUNNING} || !game.verified {
        return Err(NoAuthority);
      }
      if !Consistent(w.result) {
        return Err(Contract);
      }
      var rows := StageRows(tables, id, w);
      if rows.None? {
        return Err(MissingPosition);
      }
      return Ok(rows.value);
    }

    /** `get_idempotent_available_generation` */
    method AvailableGeneration(table: Table, id: JobId, g: nat) returns (found: bool)
      requires Valid(table)
      ensures found <==> id in View(table) && AlreadyPublished(View(table)[id], g)
    {
      if id !in table.jobs || id !in tables.gameOf || tables.gameOf[id] !in tables.games {
        return false;
      }
      var job, game := table.jobs[id], tables.games[tables.gameOf[id]];
      return g in RunRows(tables, id) && RunRows(tables, id)[g].complete
        && job.status == SUCCEEDED && job.generation == g
        && game.status == ANALYSIS_AVAILABLE && game.availableAt.Some?;
    }

    /** The checks of `make_owned_generation_available`, on the staged rows and the completed job. */
    method MayMakeAvailable(t: Tables, job: Job, id: JobId, g: nat, ghost e: Entry) returns (may: bool)
      requires Known(t, id) && e.job == job
      ensures may <==> MayRelease(RecordOf(t, e, id), g)
    {
      if g !in RunRows(t, id) {
        return false;
      }
      var game, run := t.games[t.gameOf[id]], RunRows(t, id)[g];
      var positionCount, moveCount := |PositionsOf(t, RunId(id, g))|, |MovesOf(t, RunId(id, g))|;
      return job.status == SUCCEEDED && job.generation == g
        && run.id == RunId(id, g) && run.game == game.game
        && run.complete && run.failure.None?
        && positionCount == run.evaluatedPositions && moveCount == run.completedMoves
        && run.totalPositions == run.evaluatedPositions && run.totalMoves == run.completedMoves
        && game.status in {FINISHED, DEEP_ANALYSIS_RUNNING} && game.verified
        && game.moves.Some? && game.payloadHash.Some?
        && |game.moves.value| == run.completedMoves;
    }

    /** The end of the finalizing transaction, once the replacement is staged. */
    method CompleteAndRelease(table: Table, id: JobId, w: Write, staged: Tables) returns (released: bool)
      requires Valid(table) && Sane(staged) && Joined(staged, table.View()) && id in table.jobs
      modifies this, table
      ensures Valid(table)
      ensures id in Records(staged, old(table.View()))
      ensures released <==> Release.CompleteAndRelease(Records(staged, old(table.View()))[id], w).Some?
      ensures !released ==> View(table) == old(View(table))
      ensures released ==>
                View(table) == Records(staged, old(table.View()))[id :=
                  Release.CompleteAndRelease(Records(staged, old(table.View()))[id], w).value]
    {
      ghost var db := table.View();
      ghost var e := After(db[id], Event.Complete(w.worker, w.generation, w.finished));
      UpdateSame(db, id);
      ReleaseCases(staged, db, id, w);
      if Release.CompleteAndRelease(Records(staged, db)[id], w).Some? {
        ReleaseWrites(staged, db, id, w);
      }
      var before := table.jobs;
      var completed := table.CompleteJob(id, w.worker, w.generation, w.finished);
      if !completed {
        return false;
      }
      assert table.View() == db[id := e] && id in table.View();
      var may := MayMakeAvailable(staged, table.jobs[id], id, w.generation, e);
      if !may {
        table.jobs := before;
        assert table.View() == db;
        return false;
      }
      var game := staged.games[staged.gameOf[id]].(status := ANALYSIS_AVAILABLE);
      game := game.(availableAt := Some(w.finished));
      tables := staged.(games := staged.games[staged.gameOf[id] := Clean(game)]);
      return true;
    }

    /** The body of the finalizing transaction when nothing is published yet. */
    method ReplaceAndRelease(table: Table, id: JobId, w: Write) returns (error: Option<PersistError>)
      requires Valid(table)
      modifies this, table
      ensures Valid(table)
      ensures id !in old(View(table)) ==> error.Some? && View(table) == old(View(table))
      ensures id in old(View(table)) ==>
              var all := old(View(table));
              var replaced := Replace(all[id], w);
              if replaced.Err? then error == Some(replaced.error) && View(table) == all
              else var released := Release.CompleteAndRelease(replaced.value, w);
                   && error == (if released.None? then Some(NoAuthority) else None)
                   && View(table) == if released.None? then all else all[id := released.value]
    {
      var staged := ReplaceOwnedGeneration(table, id, w);
      if staged.Err? {
        return Some(staged.error);
      }
      ghost var all, replaced := View(table), Replace(View(table)[id], w).value;
      StagedRefines(tables, table.View(), id, w);
      assert Records(staged.value, table.View()) == all[id := replaced];
      var released := CompleteAndRelease(table, id, w, staged.value);
      ghost var done := Release.CompleteAndRelease(replaced, w);
      if released {
        UpdateTwice(all, id, replaced, done.value);
      }
      return if released then None else Some(NoAuthority);
    }

    /** `persist_and_complete_owned_generation`: one transaction over results, job and game. */
    method PersistAndComplete(table: Table, id: JobId, w: Write) returns (reply: FinalizeReply)
      requires Valid(table)
      modifies this, table
      ensures Valid(table)
      ensures var all := old(View(table));
              if id in all
              then var (r, answer) := FinalizeRecord(all[id], w);
                   reply == answer && View(table) == all[id := r]
              else reply.RolledBack? && View(table) == all
      ensures reply.Published? ==>
                id in View(table) && Publication(old(View(table))[id], View(table)[id], w)
      ensures !reply.Published? ==> View(table) == old(View(table))
    {
      if id in table.jobs {
        UpdateSame(View(table), id);
        if FinalizeRecord(View(table)[id], w).1.Published? {
          PublicationExactly(View(table)[id], w);
        }
      }
      if !OnlyComplete(w.result) {
        return RolledBack(NotComplete);
      }
      if w.generation < 1 || w.finished < w.started {
        return RolledBack(BadCall);
      }
      var published := AvailableGeneration(table, id, w.generation);
      if published {
        return Existing;
      }
      var error := ReplaceAndRelease(table, id, w);
      return if error.Some? then RolledBack(error.value) else Published;
    }

    /** The body of the persisting transaction. */
    method CommitReplacement(table: Table, id: JobId, w: Write) returns (error: Option<PersistError>)
      requires Valid(table)
      modifies this
      ensures Valid(table)
      ensures error.None? <==> id in old(View(table)) && Replace(old(View(table))[id], w).Ok?
      ensures error.None? ==> View(table) == old(View(table))[id := Replace(old(View(table))[id], w).value]
      ensures error.Some? ==> View(table) == old(View(table))
      ensures error.Some? && id in old(View(table)) ==> error.value == Replace(old(View(table))[id], w).error
    {
      var staged := ReplaceOwnedGeneration(table, id, w);
      if staged.Err? {
        return Some(staged.error);
      }
      ghost var all, replaced := View(table), Replace(View(table)[id], w).value;
      StagedRefines(tables, table.View(), id, w);
      assert Records(staged.value, table.View()) == all[id := replaced];
      tables := staged.value;
      return None;
    }

    /** `persist_owned_generation`: the replacement alone. */
    method PersistOwned(table: Table, id: JobId, w: Write) returns (error: Option<PersistError>)
      requires Valid(table)
      modifies this
      ensures Valid(table)
      ensures id !in old(View(table)) ==> error.Some? && View(table) == old(View(table))
      ensures id in old(View(table)) ==>
                var persisted := PersistRecord(old(View(table))[id], w);
                && error == (if persisted.Err? then Some(persisted.error) else None)
                && View(table) == if persisted.Err? then old(View(table)) else old(View(table))[id := persisted.value]
      ensures error.None? ==> RunWritten(old(View(table))[id], View(table)[id], w)
    {
      if id in View(table) {
        PersistsExactly(View(table)[id], w);
      }
      if !OnlyComplete(w.result) {
        return Some(NotComplete);
      }
      if w.generation < 1 || w.finished < w.started {
        return Some(BadCall);
      }
      error := CommitReplacement(table, id, w);
    }

    /** `delete_for_job` */
    method DeleteForJob(table: Table, id: JobId) returns (cleaned: bool)
      requires Valid(table)
      modifies this
      ensures Valid(table)
      ensures cleaned <==> id in old(View(table))
      ensures !cleaned ==> View(table) == old(View(table))
      ensures cleaned ==>
                var r := old(View(table))[id];
                View(table) == old(View(table))[id := r.(game := Clean(r.game))]
      ensures cleaned ==>
                var row, row' := old(View(table))[id].game, View(table)[id].game;
                && row'.moves.None? && row'.initialFen.None? && row'.payloadHash.None?
                && SameGame(row, row') && SameRelease(row, row')
    {
      if id !in tables.gameOf || tables.gameOf[id] !in tables.games {
        return false;
      }
      var game := tables.games[tables.gameOf[id]].(initialFen := None);
      game := game.(moves := None);
      game := game.(payloadHash := None);
      assert game == Clean(tables.games[tables.gameOf[id]]);
      RecordsSetGame(tables, table.View(), id, game);
      SaneWithGame(tables, id, game);
      tables := tables.(games := tables.games[tables.gameOf[id] := game]);
      return true;
    }

    /** `AnalysisJobTerminalFailureService.fail_job`: the failure commits with its cleanup. */
    method FailAndClean(table: Table, id: JobId, w: WorkerId, g: nat, now: int) returns (accepted: bool)
      requires Valid(table)
      modifies this, table
      ensures Valid(table)
      ensures var all := old(View(table));
              if id !in all then !accepted && View(table) == all
              else && (accepted <==> Decide(all[id].entry, Fail(w, g, now)).Applied?)
                   && View(table) == all[id := WithCleanup(all[id], Fail(w, g, now))]
    {
      ghost var db, all := table.View(), View(table);
      if id in table.jobs {
        UpdateSame(db, id);
        UpdateSame(all, id);
      }
      accepted := table.FailJob(id, w, g, now);
      if accepted {
        RecordsSetEntry(tables, db, id, table.View()[id]);
        var _ := DeleteForJob(table, id);
        UpdateTwice(all, id, all[id].(entry := table.View()[id]), View(table)[id]);
      }
    }

    /** `AnalysisJobTerminalService.terminalize`; an exception leaves everything as it was. */
    method TerminalizeAndClean(table: Table, id: JobId, target: Status, now: int) returns (answer: Answer)
      requires Valid(table)
      modifies this, table
      ensures Valid(table)
      ensures target !in {FAILED, CANCELLED} ==> answer == Thrown && View(table) == old(View(table))
      ensures target in {FAILED, CANCELLED} ==>
              var all := old(View(table));
              if id !in all then answer == Done(false) && View(table) == all
              else && (answer == Done(true) <==> Decide(all[id].entry, Terminalize(target, now)).Applied?)
                   && (answer.Thrown? <==> Decide(all[id].entry, Terminalize(target, now)).Raised?)
                   && View(table) == all[id := WithCleanup(all[id], Terminalize(target, now))]
    {
      ghost var db, all := table.View(), View(table);
      if id in table.jobs {
        UpdateSame(db, id);
        UpdateSame(all, id);
      }
      if target !in {FAILED, CANCELLED} {
        TerminalizeNeedsTarget(db, id, target, now);
      }
      answer := table.TerminalizeJob(id, target, now);
      if answer == Done(true) {
        RecordsSetEntry(tables, db, id, table.View()[id]);
        var _ := DeleteForJob(table, id);
        UpdateTwice(all, id, all[id].(entry := table.View()[id]), View(table)[id]);
      }
    }

    /** `consume_public_generation`: the run's rows go with it; a run of another game, or none, is left alone. */
    method ConsumePublicGeneration(table: Table, run: RunId, game: GameId) returns (consumed: bool)
      requires Valid(table)
      modifies this
      ensures Valid(table)
      ensures var all := old(View(table));
              if run.job !in all || all[run.job].game.game != game then !consumed && View(table) == all
              else var (r, deleted) := ConsumeRun(all[run.job], run.generation);
                   consumed == deleted && View(table) == all[run.job := r]
      ensures consumed ==>
                && run.generation !in RunRows(tables, run.job) && run !in tables.positions && run !in tables.moves
                && game in tables.games
                && tables.games[game].status == FINISHED && tables.games[game].availableAt.None?
      ensures !consumed ==> tables == old(tables)
    {
      ghost var db, all := table.View(), View(table);
      if run.job in table.jobs {
        UpdateSame(all, run.job);
      }
      if run.generation !in RunRows(tables, run.job) || RunRows(tables, run.job)[run.generation].game != game {
        return false;
      }
      RecordsDropRun(tables, db, run.job, run.generation);
      SaneWithoutRun(tables, run.job, run.generation);
      var t := tables.(runs := tables.runs[run.job := tables.runs[run.job] - {run.generation}]);
      t := t.(positions := t.positions - {run});
      t := t.(moves := t.moves - {run});
      if game !in t.games {
        return false;
      }
      var row := t.games[game].(status := FINISHED);
      row := row.(availableAt := None);
      RecordsSetGame(t, db, run.job, row);
      SaneWithGame(t, run.job, row);
      tables := t.(games := t.games[game := row]);
      UpdateTwice(all, run.job, Records(t, db)[run.job], View(table)[run.job]);
      return true;
    }
  }
}
