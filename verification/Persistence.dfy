/**
 Storing a complete analysis as rows and rebuilding it from them, as
 `repositories/analysis_results.py` and `services/analysis_results.py` do. Deterministic
 uuid5 keys are taken to be injective, so an id is the data it is computed from.
 */
module Persistence {
  import opened Common
  import opened Chess
  import opened FullGame
  import opened EngineConfig

  datatype RunId = RunId(job: JobId, generation: nat)

  /** `position_evaluation_id` and `move_evaluation_id`. */
  datatype RecordId = RecordId(run: RunId, ply: nat)

  datatype RunRow = RunRow(
    id: RunId, game: GameId, complete: bool, engineName: Option<string>, engineVersion: Option<string>,
    configuration: map<Key, Json>, totalPositions: nat, evaluatedPositions: nat, totalMoves: nat, completedMoves: nat,
    failure: Option<Failure>, started: int, finished: int)

  datatype PositionRow = PositionRow(
    id: RecordId, source: PositionId, ply: nat, side: char, score: Score, best: Uci, variation: seq<Uci>,
    depth: Option<nat>, nodes: Option<nat>, time: Option<nat>)

  datatype MoveRow = MoveRow(id: RecordId, ply: nat, uci: Uci, san: nat, before: RecordId, after: RecordId)

  /** A run with the rows that reference it. */
  datatype StoredRun = StoredRun(run: RunRow, positions: seq<PositionRow>, moves: seq<MoveRow>)

  datatype PersistedPosition = PersistedPosition(
    position: PositionId, ply: nat, side: Color, score: Score, best: Uci, variation: seq<Uci>,
    depth: Option<nat>, nodes: Option<nat>, time: Option<nat>)

  datatype PersistedMove = PersistedMove(
    ply: nat, uci: Uci, san: nat, before: PersistedPosition, after: PersistedPosition)

  datatype PersistedResult = PersistedResult(
    game: GameId, positions: seq<PersistedPosition>, moves: seq<PersistedMove>, checkpoint: Checkpoint,
    engineName: Option<string>, engineVersion: Option<string>)

  datatype PersistedAnalysis = PersistedAnalysis(
    run: RunId, result: PersistedResult, configuration: Configuration, started: int, finished: int)

  datatype PersistError = NotComplete | BadCall | NoAuthority | Contract | MissingPosition
  datatype ReadError = IncompleteRun | BadSide | DanglingMove | CountMismatch | BadConfiguration

  // ---------------------------------------------------------------- sorting by ply

  /** Put the item before the first one whose ply is not smaller: sorting this way is stable. */
  function InsertByPly<T>(item: T, items: seq<T>, ply: T -> nat): seq<T> {
    if items == [] || ply(item) <= ply(items[0]) then [item] + items
    else [items[0]] + InsertByPly(item, items[1..], ply)
  }

  function SortByPly<T>(items: seq<T>, ply: T -> nat): seq<T> {
    if items == [] then [] else InsertByPly(items[0], SortByPly(items[1..], ply), ply)
  }

  predicate Ascending<T>(items: seq<T>, ply: T -> nat) {
    forall i, j :: 0 <= i < j < |items| ==> ply(items[i]) <= ply(items[j])
  }

  lemma {:induction false} SortingSorted<T>(items: seq<T>, ply: T -> nat)
    requires Ascending(items, ply)
    ensures SortByPly(items, ply) == items
  {
    if items != [] {
      SortingSorted(items[1..], ply);
      assert [items[0]] + items[1..] == items;
    }
  }

  lemma Prepended<T>(item: T, items: seq<T>, ply: T -> nat)
    requires Ascending(items, ply) && (items != [] ==> ply(item) <= ply(items[0]))
    ensures Ascending([item] + items, ply)
    ensures multiset([item] + items) == multiset(items) + multiset{item}
  {
  }

  lemma {:induction false} InsertSorts<T>(item: T, items: seq<T>, ply: T -> nat)
    requires Ascending(items, ply)
    ensures Ascending(InsertByPly(item, items, ply), ply)
    ensures multiset(InsertByPly(item, items, ply)) == multiset(items) + multiset{item}
  {
    if items == [] || ply(item) <= ply(items[0]) {
      Prepended(item, items, ply);
    } else {
      var rest := InsertByPly(item, items[1..], ply);
      InsertSorts(item, items[1..], ply);
      assert rest[0] == item || rest[0] == items[1];
      Prepended(items[0], rest, ply);
      assert items == [items[0]] + items[1..];
      assert multiset(items) == multiset(items[1..]) + multiset{items[0]};
    }
  }

  /** Sorting gives the same items, in order of ply. */
  lemma {:induction false} SortSorts<T>(items: seq<T>, ply: T -> nat)
    ensures Ascending(SortByPly(items, ply), ply) && multiset(SortByPly(items, ply)) == multiset(items)
  {
    if items != [] {
      SortSorts(items[1..], ply);
      InsertSorts(items[0], SortByPly(items[1..], ply), ply);
      assert items == [items[0]] + items[1..];
    }
  }

  function EvaluationPly(): Evaluation -> nat {
    (e: Evaluation) => e.ply
  }

  function MovePly(): MoveEvaluation -> nat {
    (m: MoveEvaluation) => m.ply
  }

  function PositionRowPly(): PositionRow -> nat {
    (row: PositionRow) => row.ply
  }

  function MoveRowPly(): MoveRow -> nat {
    (row: MoveRow) => row.ply
  }

  function SortedPositions(result: AnalysisResult): seq<Evaluation> {
    SortByPly(result.positions, EvaluationPly())
  }

  function SortedMoves(result: AnalysisResult): seq<MoveEvaluation> {
    SortByPly(result.moves, MovePly())
  }

  // ---------------------------------------------------------------- what may be stored

  /** `_require_complete_result` */
  predicate OnlyComplete(result: AnalysisResult) {
    result.complete && result.failure.None?
  }

  /** `_validate_result` */
  predicate Consistent(result: AnalysisResult) {
    var positions, moves := SortedPositions(result), SortedMoves(result);
    && OnlyComplete(result)
    && (forall k :: 0 <= k < |positions| ==> positions[k].ply == k)
    && (forall k :: 0 <= k < |moves| ==> moves[k].ply == k + 1)
    && result.checkpoint.evaluatedPositions == |positions|
    && result.checkpoint.completedMoves == |moves|
    && (forall k :: 0 <= k < |moves| ==> moves[k].before.ply == k && moves[k].after.ply == k + 1)
  }

  // ---------------------------------------------------------------- writing

  function SideChar(color: Color): char {
    if color == White then 'w' else 'b'
  }

  function PositionRowOf(run: RunId, e: Evaluation): PositionRow {
    PositionRow(RecordId(run, e.ply), e.position, e.ply, SideChar(e.side), e.score, e.best, e.variation,
                e.depth, e.nodes, e.time)
  }

  function MoveRowOf(run: RunId, m: MoveEvaluation): MoveRow {
    MoveRow(RecordId(run, m.ply), m.ply, m.uci, m.san, RecordId(run, m.before.ply), RecordId(run, m.after.ply))
  }

  function PositionRows(run: RunId, evaluations: seq<Evaluation>): seq<PositionRow> {
    if evaluations == [] then [] else
    PositionRows(run, evaluations[..|evaluations| - 1]) + [PositionRowOf(run, evaluations[|evaluations| - 1])]
  }

  function MoveRows(run: RunId, moves: seq<MoveEvaluation>): seq<MoveRow> {
    if moves == [] then [] else
    MoveRows(run, moves[..|moves| - 1]) + [MoveRowOf(run, moves[|moves| - 1])]
  }

  /** `_bounded` */
  function Bounded(name: Option<string>): Option<string> {
    if name.Some? && |name.value| > 100 then Some(name.value[..100]) else name
  }

  function RunRowOf(run: RunId, result: AnalysisResult, configuration: Configuration, started: int, finished: int):
    RunRow
  {
    RunRow(run, result.game, result.complete, Bounded(result.engineName), Bounded(result.engineVersion),
           AsJson(configuration), result.checkpoint.totalPositions, result.checkpoint.evaluatedPositions,
           result.checkpoint.totalMoves, result.checkpoint.completedMoves, result.failure, started, finished)
  }

  function Stored(run: RunId, result: AnalysisResult, configuration: Configuration, started: int, finished: int):
    StoredRun
  {
    StoredRun(RunRowOf(run, result, configuration, started, finished),
              PositionRows(run, SortedPositions(result)), MoveRows(run, SortedMoves(result)))
  }

  /** The keys of `position_ids`. */
  function Plies(evaluations: seq<Evaluation>): set<nat> {
    set e | e in evaluations :: e.ply
  }

  /** Every move finds both its positions in `position_ids`; otherwise the lookup raises KeyError. */
  predicate Resolvable(result: AnalysisResult) {
    forall m :: m in SortedMoves(result) ==>
      m.before.ply in Plies(SortedPositions(result)) && m.after.ply in Plies(SortedPositions(result))
  }

  /**
   `_validate_result` accepts a result that then fails in the insert loop: exactly those
   whose moves are not outnumbered by their positions.
   */
  lemma ResolvableExactly(result: AnalysisResult)
    requires Consistent(result)
    ensures Resolvable(result) <==> result.moves == [] || |result.moves| < |result.positions|
  {
    var positions, moves := SortedPositions(result), SortedMoves(result);
    SortLength(result.positions, EvaluationPly());
    SortLength(result.moves, MovePly());
    forall k | 0 <= k < |positions|
      ensures k in Plies(positions)
    {
      assert positions[k] in positions;
    }
    if |moves| > 0 && |moves| >= |positions| {
      assert moves[|moves| - 1] in moves;
    }
  }

  lemma {:induction false} InsertLength<T>(item: T, items: seq<T>, ply: T -> nat)
    ensures |InsertByPly(item, items, ply)| == |items| + 1
  {
    if items != [] && ply(item) > ply(items[0]) {
      InsertLength(item, items[1..], ply);
    }
  }

  lemma {:induction false} SortLength<T>(items: seq<T>, ply: T -> nat)
    ensures |SortByPly(items, ply)| == |items|
  {
    if items != [] {
      SortLength(items[1..], ply);
      InsertLength(items[0], SortByPly(items[1..], ply), ply);
    }
  }

  // ---------------------------------------------------------------- reading

  function Restore(row: PositionRow): PersistedPosition {
    PersistedPosition(row.source, row.ply, if row.side == 'w' then White else Black, row.score, row.best,
                      row.variation, row.depth, row.nodes, row.time)
  }

  function RestoreAll(rows: seq<PositionRow>): seq<PersistedPosition> {
    if rows == [] then [] else RestoreAll(rows[..|rows| - 1]) + [Restore(rows[|rows| - 1])]
  }

  /** `positions_by_record_id` */
  function IndexById(rows: seq<PositionRow>): map<RecordId, PersistedPosition> {
    if rows == [] then map[] else
    IndexById(rows[..|rows| - 1])[rows[|rows| - 1].id := Restore(rows[|rows| - 1])]
  }

  function RestoreMoves(index: map<RecordId, PersistedPosition>, rows: seq<MoveRow>):
    Result<seq<PersistedMove>, ReadError>
  {
    if rows == [] then Ok([]) else
    var row := rows[|rows| - 1];
    var earlier := RestoreMoves(index, rows[..|rows| - 1]);
    if earlier.Err? then earlier
    else if row.before !in index || row.after !in index then Err(DanglingMove)
    else Ok(earlier.value + [PersistedMove(row.ply, row.uci, row.san, index[row.before], index[row.after])])
  }

  /** `read_generation` on the records of one run. */
  function Rebuild(stored: StoredRun): Result<PersistedAnalysis, ReadError> {
    var run := stored.run;
    var rows := SortByPly(stored.positions, PositionRowPly());
    var moveRows := SortByPly(stored.moves, MoveRowPly());
    if !run.complete || run.failure.Some? then Err(IncompleteRun)
    else if exists row :: row in rows && row.side != 'w' && row.side != 'b' then Err(BadSide)
    else
      var moves := RestoreMoves(IndexById(rows), moveRows);
      if moves.Err? then Err(moves.error)
      else if |rows| != run.evaluatedPositions || |moveRows| != run.completedMoves then Err(CountMismatch)
      else if FromJson(run.configuration).None? then Err(BadConfiguration)
      else Ok(PersistedAnalysis(
        run.id,
        PersistedResult(run.game, RestoreAll(rows), moves.value,
                        Checkpoint(run.totalMoves, run.totalPositions, run.completedMoves, run.evaluatedPositions,
                                   if rows == [] then None else Some(rows[|rows| - 1].ply)),
                        run.engineName, run.engineVersion),
        FromJson(run.configuration).value, run.started, run.finished))
  }

  /** The first loop of `read_generation`, over the ordered position rows. */
  method RestorePositions(rows: seq<PositionRow>)
    returns (r: Result<(map<RecordId, PersistedPosition>, seq<PersistedPosition>), ReadError>)
    ensures r == if exists row :: row in rows && row.side != 'w' && row.side != 'b' then Err(BadSide)
                 else Ok((IndexById(rows), RestoreAll(rows)))
  {
    var byId: map<RecordId, PersistedPosition>, positions: seq<PersistedPosition> := map[], [];
    for i := 0 to |rows|
      invariant byId == IndexById(rows[..i]) && positions == RestoreAll(rows[..i])
      invariant forall row :: row in rows[..i] ==> row.side == 'w' || row.side == 'b'
    {
      assert rows[..i + 1][..i] == rows[..i];
      if rows[i].side != 'w' && rows[i].side != 'b' {
        return Err(BadSide);
      }
      byId := byId[rows[i].id := Restore(rows[i])];
      positions := positions + [Restore(rows[i])];
    }
    assert rows[..|rows|] == rows;
    return Ok((byId, positions));
  }

  /** The second loop, over the ordered move rows. */
  method RestoreMoveRows(byId: map<RecordId, PersistedPosition>, rows: seq<MoveRow>)
    returns (r: Result<seq<PersistedMove>, ReadError>)
    ensures r == RestoreMoves(byId, rows)
  {
    var moves: seq<PersistedMove> := [];
    for i := 0 to |rows|
      invariant RestoreMoves(byId, rows[..i]) == Ok(moves)
    {
      assert rows[..i + 1][..i] == rows[..i];
      var row := rows[i];
      if row.before !in byId || row.after !in byId {
        DanglingStays(byId, rows, i + 1);
        return Err(DanglingMove);
      }
      moves := moves + [PersistedMove(row.ply, row.uci, row.san, byId[row.before], byId[row.after])];
    }
    assert rows[..|rows|] == rows;
    return Ok(moves);
  }

  /** `read_generation` */
  method ReadGeneration(stored: StoredRun) returns (r: Result<PersistedAnalysis, ReadError>)
    ensures r == Rebuild(stored)
  {
    var run := stored.run;
    var rows := SortByPly(stored.positions, PositionRowPly());
    var moveRows := SortByPly(stored.moves, MoveRowPly());
    if !run.complete || run.failure.Some? {
      return Err(IncompleteRun);
    }
    var restored := RestorePositions(rows);
    if restored.Err? {
      return Err(restored.error);
    }
    var (byId, positions) := restored.value;
    var moves := RestoreMoveRows(byId, moveRows);
    if moves.Err? {
      return Err(moves.error);
    }
    RestoredCount(byId, moveRows, rows);
    if |positions| != run.evaluatedPositions || |moves.value| != run.completedMoves {
      return Err(CountMismatch);
    }
    var configuration := FromJson(run.configuration);
    if configuration.None? {
      return Err(BadConfiguration);
    }
    RestoredAt(rows);
    var checkpoint := Checkpoint(run.totalMoves, run.totalPositions, run.completedMoves, run.evaluatedPositions,
                                 if positions == [] then None else Some(positions[|positions| - 1].ply));
    return Ok(PersistedAnalysis(
      run.id, PersistedResult(run.game, positions, moves.value, checkpoint, run.engineName, run.engineVersion),
      configuration.value, run.started, run.finished));
  }

  lemma {:induction false} DanglingStays(index: map<RecordId, PersistedPosition>, rows: seq<MoveRow>, k: nat)
    requires k <= |rows| && RestoreMoves(index, rows[..k]) == Err(DanglingMove)
    ensures RestoreMoves(index, rows) == Err(DanglingMove)
    decreases |rows| - k
  {
    if k == |rows| {
      assert rows[..k] == rows;
    } else {
      assert rows[..k + 1][..k] == rows[..k];
      DanglingStays(index, rows, k + 1);
    }
  }

  lemma {:induction false} RestoredCount(index: map<RecordId, PersistedPosition>, moves: seq<MoveRow>,
                                         rows: seq<PositionRow>)
    ensures |RestoreAll(rows)| == |rows|
    ensures RestoreMoves(index, moves).Ok? ==> |RestoreMoves(index, moves).value| == |moves|
    decreases |rows| + |moves|
  {
    if rows != [] {
      RestoredCount(index, moves, rows[..|rows| - 1]);
    } else if moves != [] {
      RestoredCount(index, moves[..|moves| - 1], rows);
    }
  }

  lemma {:induction false} RestoredAt(rows: seq<PositionRow>)
    ensures |RestoreAll(rows)| == |rows|
    ensures forall k :: 0 <= k < |rows| ==> RestoreAll(rows)[k] == Restore(rows[k])
    decreases |rows|
  {
    if rows != [] {
      RestoredAt(rows[..|rows| - 1]);
    }
  }

  function Ids(rows: seq<PositionRow>): set<RecordId> {
    set row | row in rows :: row.id
  }

  lemma {:induction false} IndexKeys(rows: seq<PositionRow>)
    ensures IndexById(rows).Keys == Ids(rows)
    decreases |rows|
  {
    if rows != [] {
      var last := |rows| - 1;
      IndexKeys(rows[..last]);
      assert rows == rows[..last] + [rows[last]];
      assert Ids(rows) == Ids(rows[..last]) + {rows[last].id};
    }
  }

  lemma {:induction false} ResolvesMoves(index: map<RecordId, PersistedPosition>, rows: seq<MoveRow>)
    ensures RestoreMoves(index, rows).Ok? <==> forall row :: row in rows ==> row.before in index && row.after in index
    ensures RestoreMoves(index, rows).Err? ==> RestoreMoves(index, rows).error == DanglingMove
    decreases |rows|
  {
    if rows != [] {
      var last := |rows| - 1;
      ResolvesMoves(index, rows[..last]);
      assert rows == rows[..last] + [rows[last]];
    }
  }

  lemma SortedMembers<T>(items: seq<T>, ply: T -> nat, item: T)
    ensures item in SortByPly(items, ply) <==> item in items
  {
    SortSorts(items, ply);
    assert item in multiset(SortByPly(items, ply)) <==> item in multiset(items);
  }

  /** What keeps the rows of a run from being read, in whatever order they are listed; the checks in order. */
  ghost function Flaw(stored: StoredRun): Option<ReadError> {
    if !stored.run.complete || stored.run.failure.Some? then Some(IncompleteRun)
    else if exists row :: row in stored.positions && row.side != 'w' && row.side != 'b' then Some(BadSide)
    else if !Resolves(stored.positions, stored.moves) then Some(DanglingMove)
    else if |stored.positions| != stored.run.evaluatedPositions || |stored.moves| != stored.run.completedMoves
    then Some(CountMismatch)
    else if FromJson(stored.run.configuration).None? then Some(BadConfiguration)
    else None
  }

  /** Both positions of every move are there. */
  ghost predicate Resolves(positions: seq<PositionRow>, moves: seq<MoveRow>) {
    forall row :: row in moves ==> row.before in Ids(positions) && row.after in Ids(positions)
  }

  lemma SameFlaw(stored: StoredRun, other: StoredRun)
    requires stored.run == other.run
    requires |stored.positions| == |other.positions| && |stored.moves| == |other.moves|
    requires forall row :: row in stored.positions <==> row in other.positions
    requires forall row :: row in stored.moves <==> row in other.moves
    ensures Flaw(stored) == Flaw(other)
  {
    assert Ids(stored.positions) == Ids(other.positions);
    assert Resolves(stored.positions, stored.moves) <==> Resolves(other.positions, other.moves);
  }

  lemma SortedFlaw(stored: StoredRun)
    ensures var sorted := stored.(positions := SortByPly(stored.positions, PositionRowPly()),
                                  moves := SortByPly(stored.moves, MoveRowPly()));
            Flaw(sorted) == Flaw(stored)
  {
    var rows, moveRows := SortByPly(stored.positions, PositionRowPly()), SortByPly(stored.moves, MoveRowPly());
    SortLength(stored.positions, PositionRowPly());
    SortLength(stored.moves, MoveRowPly());
    forall row ensures row in rows <==> row in stored.positions {
      SortedMembers(stored.positions, PositionRowPly(), row);
    }
    forall row ensures row in moveRows <==> row in stored.moves {
      SortedMembers(stored.moves, MoveRowPly(), row);
    }
    SameFlaw(stored.(positions := rows, moves := moveRows), stored);
  }

  /** A run can be read exactly if its rows are complete, sound and resolvable; otherwise the first flaw is named. */
  lemma RebuildsExactly(stored: StoredRun)
    ensures Rebuild(stored).Ok? <==> Flaw(stored).None?
    ensures Rebuild(stored).Err? ==> Rebuild(stored).error == Flaw(stored).value
  {
    var rows, moveRows := SortByPly(stored.positions, PositionRowPly()), SortByPly(stored.moves, MoveRowPly());
    SortedFlaw(stored);
    IndexKeys(rows);
    ResolvesMoves(IndexById(rows), moveRows);
    assert RestoreMoves(IndexById(rows), moveRows).Ok? <==> Resolves(rows, moveRows);
  }

  // ---------------------------------------------------------------- round trip

  /** The evaluation as it is read back: without its FEN. */
  function WithoutFen(e: Evaluation): PersistedPosition {
    PersistedPosition(e.position, e.ply, e.side, e.score, e.best, e.variation, e.depth, e.nodes, e.time)
  }

  predicate SamePosition(e: Evaluation, p: PersistedPosition) {
    && p.position == e.position && p.ply == e.ply && p.side == e.side && p.score == e.score && p.best == e.best
    && p.variation == e.variation && p.depth == e.depth && p.nodes == e.nodes && p.time == e.time
  }

  predicate SameMove(m: MoveEvaluation, read: PersistedMove) {
    && read.ply == m.ply && read.uci == m.uci && read.san == m.san
    && SamePosition(m.before, read.before) && SamePosition(m.after, read.after)
  }

  /** The stored result reads back as this, field by field. */
  ghost predicate SameButFens(result: AnalysisResult, read: PersistedResult) {
    && read.game == result.game
    && |read.positions| == |result.positions|
    && (forall k :: 0 <= k < |read.positions| ==> SamePosition(result.positions[k], read.positions[k]))
    && |read.moves| == |result.moves|
    && (forall k :: 0 <= k < |read.moves| ==> SameMove(result.moves[k], read.moves[k]))
    && read.checkpoint == result.checkpoint
    && read.engineName == result.engineName && read.engineVersion == result.engineVersion
  }

  lemma {:induction false} PositionRowsAt(run: RunId, evaluations: seq<Evaluation>)
    ensures |PositionRows(run, evaluations)| == |evaluations|
    ensures forall k :: 0 <= k < |evaluations| ==>
              PositionRows(run, evaluations)[k] == PositionRowOf(run, evaluations[k])
    decreases |evaluations|
  {
    if evaluations != [] {
      PositionRowsAt(run, evaluations[..|evaluations| - 1]);
    }
  }

  /** A position row spells out its evaluation: the side as 'w' or 'b', the id from run and ply. */
  predicate SpellsPosition(run: RunId, e: Evaluation, row: PositionRow) {
    && row.id == RecordId(run, e.ply) && row.ply == e.ply && row.source == e.position
    && row.side == (match e.side case White => 'w' case Black => 'b')
    && row.score == e.score && row.best == e.best && row.variation == e.variation
    && row.depth == e.depth && row.nodes == e.nodes && row.time == e.time
  }

  /** A move row refers to the rows of the positions around it. */
  predicate SpellsMove(run: RunId, m: MoveEvaluation, row: MoveRow) {
    && m.ply > 0 && row.id == RecordId(run, m.ply) && row.ply == m.ply && row.uci == m.uci && row.san == m.san
    && row.before == RecordId(run, m.ply - 1) && row.after == RecordId(run, m.ply)
  }

  ghost predicate SpellsPositions(run: RunId, positions: seq<Evaluation>, rows: seq<PositionRow>) {
    |rows| == |positions| && forall k :: 0 <= k < |rows| ==> SpellsPosition(run, positions[k], rows[k])
  }

  ghost predicate SpellsMoves(run: RunId, moves: seq<MoveEvaluation>, rows: seq<MoveRow>) {
    |rows| == |moves| && forall k :: 0 <= k < |rows| ==> SpellsMove(run, moves[k], rows[k])
  }

  /** A name is written as far as its column goes. */
  predicate CutAtHundred(name: Option<string>, written: Option<string>) {
    match name
    case None => written.None?
    case Some(full) => written.Some? && written.value <= full && |written.value| == Min(100, |full|)
  }

  /** The run row itself. */
  predicate SpellsRun(run: RunId, result: AnalysisResult, configuration: Configuration, started: int, finished: int,
                      row: RunRow)
  {
    && row.id == run && row.game == result.game && row.complete && row.failure.None?
    && row.started == started && row.finished == finished && Writes(configuration, row.configuration)
    && row.totalPositions == result.checkpoint.totalPositions && row.totalMoves == result.checkpoint.totalMoves
    && row.evaluatedPositions == result.checkpoint.evaluatedPositions
    && row.completedMoves == result.checkpoint.completedMoves
    && CutAtHundred(result.engineName, row.engineName) && CutAtHundred(result.engineVersion, row.engineVersion)
  }

  lemma {:induction false} MoveRowsAt(run: RunId, moves: seq<MoveEvaluation>)
    ensures |MoveRows(run, moves)| == |moves|
    ensures forall k :: 0 <= k < |moves| ==> MoveRows(run, moves)[k] == MoveRowOf(run, moves[k])
    decreases |moves|
  {
    if moves != [] {
      MoveRowsAt(run, moves[..|moves| - 1]);
    }
  }

  /** Storing a result writes every row it should, in order of ply, and no other. */
  lemma StoredRows(run: RunId, result: AnalysisResult, configuration: Configuration, started: int, finished: int)
    requires Consistent(result)
    ensures var stored := Stored(run, result, configuration, started, finished);
            && SpellsRun(run, result, configuration, started, finished, stored.run)
            && SpellsPositions(run, SortedPositions(result), stored.positions)
            && SpellsMoves(run, SortedMoves(result), stored.moves)
    ensures |SortedPositions(result)| == |result.positions| && |SortedMoves(result)| == |result.moves|
  {
    ConfigurationRoundTrip(configuration);
    SortLength(result.positions, EvaluationPly());
    SortLength(result.moves, MovePly());
    PositionRowsAt(run, SortedPositions(result));
    MovesSpelled(run, SortedMoves(result));
  }

  lemma MovesSpelled(run: RunId, moves: seq<MoveEvaluation>)
    requires forall k :: 0 <= k < |moves| ==>
               moves[k].ply == k + 1 && moves[k].before.ply == k && moves[k].after.ply == k + 1
    ensures SpellsMoves(run, moves, MoveRows(run, moves))
  {
    MoveRowsAt(run, moves);
  }

  /** Contiguous from ply zero. */
  predicate Contiguous(evaluations: seq<Evaluation>) {
    forall k :: 0 <= k < |evaluations| ==> evaluations[k].ply == k
  }

  lemma {:induction false} IndexHolds(run: RunId, evaluations: seq<Evaluation>)
    requires Contiguous(evaluations)
    ensures forall k: nat :: k < |evaluations| ==>
              RecordId(run, k) in IndexById(PositionRows(run, evaluations))
              && IndexById(PositionRows(run, evaluations))[RecordId(run, k)] == WithoutFen(evaluations[k])
    decreases |evaluations|
  {
    if evaluations != [] {
      var last := |evaluations| - 1;
      var rows := PositionRows(run, evaluations);
      IndexHolds(run, evaluations[..last]);
      assert rows[..|rows| - 1] == PositionRows(run, evaluations[..last]);
    }
  }

  /** A move read back: its positions are the stored ones it points at. */
  function ReadMove(evaluations: seq<Evaluation>, m: MoveEvaluation): PersistedMove
    requires PointsInto(m, |evaluations|)
  {
    PersistedMove(m.ply, m.uci, m.san, WithoutFen(evaluations[m.before.ply]), WithoutFen(evaluations[m.after.ply]))
  }

  predicate PointsInto(m: MoveEvaluation, n: nat) {
    m.before.ply < n && m.after.ply < n
  }

  /** These moves over these positions read back as those. */
  ghost predicate MovesRead(evaluations: seq<Evaluation>, moves: seq<MoveEvaluation>, read: seq<PersistedMove>) {
    && |read| == |moves|
    && forall k :: 0 <= k < |moves| ==>
         PointsInto(moves[k], |evaluations|) && read[k] == ReadMove(evaluations, moves[k])
  }

  ghost predicate PositionsRead(evaluations: seq<Evaluation>, read: seq<PersistedPosition>) {
    && |read| == |evaluations|
    && forall k :: 0 <= k < |evaluations| ==> read[k] == WithoutFen(evaluations[k])
  }

  lemma {:induction false} MovesReadBack(run: RunId, evaluations: seq<Evaluation>, moves: seq<MoveEvaluation>,
                                         index: map<RecordId, PersistedPosition>)
    requires forall k: nat :: k < |evaluations| ==>
               RecordId(run, k) in index && index[RecordId(run, k)] == WithoutFen(evaluations[k])
    requires forall k :: 0 <= k < |moves| ==> PointsInto(moves[k], |evaluations|)
    ensures var read := RestoreMoves(index, MoveRows(run, moves));
            read.Ok? && MovesRead(evaluations, moves, read.value)
    decreases |moves|
  {
    if moves != [] {
      var last := |moves| - 1;
      var rows := MoveRows(run, moves);
      MovesReadBack(run, evaluations, moves[..last], index);
      assert rows[..|rows| - 1] == MoveRows(run, moves[..last]);
      assert PointsInto(moves[last], |evaluations|);
    }
  }

  lemma OrderedAlready(run: RunId, evaluations: seq<Evaluation>, moves: seq<MoveEvaluation>)
    requires Contiguous(evaluations) && forall k :: 0 <= k < |moves| ==> moves[k].ply == k + 1
    ensures SortByPly(PositionRows(run, evaluations), PositionRowPly()) == PositionRows(run, evaluations)
    ensures SortByPly(MoveRows(run, moves), MoveRowPly()) == MoveRows(run, moves)
  {
    PositionRowsAt(run, evaluations);
    MoveRowsAt(run, moves);
    SortingSorted(PositionRows(run, evaluations), PositionRowPly());
    SortingSorted(MoveRows(run, moves), MoveRowPly());
  }

  lemma RowReadsBack(run: RunId, e: Evaluation)
    ensures var row := PositionRowOf(run, e);
            Restore(row) == WithoutFen(e) && row.ply == e.ply && (row.side == 'w' || row.side == 'b')
  {
  }

  lemma RowsReadBack(run: RunId, evaluations: seq<Evaluation>)
    requires Contiguous(evaluations)
    ensures var rows := PositionRows(run, evaluations);
            && |rows| == |evaluations| && PositionsRead(evaluations, RestoreAll(rows))
            && (forall row :: row in rows ==> row.side == 'w' || row.side == 'b')
            && (rows != [] ==> rows[|rows| - 1].ply == |rows| - 1)
  {
    var rows := PositionRows(run, evaluations);
    PositionRowsAt(run, evaluations);
    RestoredAt(rows);
    forall k | 0 <= k < |rows|
      ensures RestoreAll(rows)[k] == WithoutFen(evaluations[k]) && rows[k].ply == k
      ensures rows[k].side == 'w' || rows[k].side == 'b'
    {
      RowReadsBack(run, evaluations[k]);
      assert rows[k] == PositionRowOf(run, evaluations[k]);
    }
  }

  /** Rows written in order rebuild what was written. */
  lemma Rebuilt(run: RunRow, evaluations: seq<Evaluation>, moves: seq<MoveEvaluation>)
    requires run.complete && run.failure.None? && FromJson(run.configuration).Some?
    requires run.evaluatedPositions == |evaluations| && run.completedMoves == |moves|
    requires Contiguous(evaluations)
    requires forall k :: 0 <= k < |moves| ==> moves[k].ply == k + 1 && PointsInto(moves[k], |evaluations|)
    ensures var read := Rebuild(StoredRun(run, PositionRows(run.id, evaluations), MoveRows(run.id, moves)));
            && read.Ok? && read.value.run == run.id && Some(read.value.configuration) == FromJson(run.configuration)
            && read.value.started == run.started && read.value.finished == run.finished
            && PositionsRead(evaluations, read.value.result.positions)
            && MovesRead(evaluations, moves, read.value.result.moves)
            && read.value.result.game == run.game
            && read.value.result.checkpoint
               == Checkpoint(run.totalMoves, run.totalPositions, run.completedMoves, run.evaluatedPositions,
                             if evaluations == [] then None else Some(|evaluations| - 1))
            && read.value.result.engineName == run.engineName && read.value.result.engineVersion == run.engineVersion
  {
    OrderedAlready(run.id, evaluations, moves);
    RowsReadBack(run.id, evaluations);
    MoveRowsAt(run.id, moves);
    IndexHolds(run.id, evaluations);
    MovesReadBack(run.id, evaluations, moves, IndexById(PositionRows(run.id, evaluations)));
  }

  /** What reading back gives for any result that could be stored. */
  ghost predicate ReadsAs(result: AnalysisResult, read: PersistedResult) {
    var positions, moves := SortedPositions(result), SortedMoves(result);
    && read.game == result.game
    && PositionsRead(positions, read.positions)
    && MovesRead(positions, moves, read.moves)
    && read.checkpoint == result.checkpoint.(lastPly := if positions == [] then None else Some(|positions| - 1))
    && read.engineName == Bounded(result.engineName) && read.engineVersion == Bounded(result.engineVersion)
  }

  lemma StorableShape(result: AnalysisResult)
    requires Consistent(result) && Resolvable(result)
    ensures var positions, moves := SortedPositions(result), SortedMoves(result);
            && Contiguous(positions)
            && (forall k :: 0 <= k < |moves| ==> moves[k].ply == k + 1 && PointsInto(moves[k], |positions|))
            && result.checkpoint.evaluatedPositions == |positions| && result.checkpoint.completedMoves == |moves|
  {
    ResolvableExactly(result);
    SortLength(result.positions, EvaluationPly());
    SortLength(result.moves, MovePly());
  }

  /** The run row holds what the result says of itself, with its names cut. */
  lemma RunRowReads(run: RunId, result: AnalysisResult, configuration: Configuration, started: int, finished: int)
    requires Consistent(result)
    ensures var row := RunRowOf(run, result, configuration, started, finished);
            && row.id == run && row.complete && row.failure.None? && row.game == result.game
            && FromJson(row.configuration) == Some(configuration)
            && row.started == started && row.finished == finished
            && row.engineName == Bounded(result.engineName) && row.engineVersion == Bounded(result.engineVersion)
            && result.checkpoint == Checkpoint(row.totalMoves, row.totalPositions, row.completedMoves,
                                               row.evaluatedPositions, result.checkpoint.lastPly)
  {
    ConfigurationRoundTrip(configuration);
  }

  /** What `Rebuilt` says of the rows of a result is what reading it back should give. */
  lemma RowsReadAs(result: AnalysisResult, row: RunRow, read: PersistedResult)
    requires row.game == result.game
    requires row.engineName == Bounded(result.engineName) && row.engineVersion == Bounded(result.engineVersion)
    requires result.checkpoint == Checkpoint(row.totalMoves, row.totalPositions, row.completedMoves,
                                             row.evaluatedPositions, result.checkpoint.lastPly)
    requires var positions, moves := SortedPositions(result), SortedMoves(result);
             && PositionsRead(positions, read.positions) && MovesRead(positions, moves, read.moves)
             && read.game == row.game && read.engineName == row.engineName && read.engineVersion == row.engineVersion
             && read.checkpoint
                == Checkpoint(row.totalMoves, row.totalPositions, row.completedMoves, row.evaluatedPositions,
                              if positions == [] then None else Some(|positions| - 1))
    ensures ReadsAs(result, read)
  {
  }

  /** Everything that can be stored can be read back, in order of ply, whatever order it was given in. */
  lemma ReadBack(run: RunId, result: AnalysisResult, configuration: Configuration, started: int, finished: int)
    requires Consistent(result) && Resolvable(result)
    ensures var read := Rebuild(Stored(run, result, configuration, started, finished));
            && read.Ok? && ReadsAs(result, read.value.result)
            && read.value.run == run && read.value.configuration == configuration
            && read.value.started == started && read.value.finished == finished
  {
    var row := RunRowOf(run, result, configuration, started, finished);
    var stored := Stored(run, result, configuration, started, finished);
    StorableShape(result);
    RunRowReads(run, result, configuration, started, finished);
    assert stored
           == StoredRun(row, PositionRows(row.id, SortedPositions(result)), MoveRows(row.id, SortedMoves(result)));
    Rebuilt(row, SortedPositions(result), SortedMoves(result));
    RowsReadAs(result, row, Rebuild(stored).value.result);
  }

  /**
   What must hold for storing to lose nothing but FENs: engine names of at most 100
   characters, positions and moves given in order, embedded positions that are the
   listed ones, and a checkpoint that names the last ply.
   */
  ghost predicate LosesNothing(result: AnalysisResult) {
    && Bounded(result.engineName) == result.engineName && Bounded(result.engineVersion) == result.engineVersion
    && Contiguous(result.positions)
    && (forall k :: 0 <= k < |result.moves| ==>
          var m := result.moves[k];
          && m.ply == k + 1 && PointsInto(m, |result.positions|)
          && WithoutFen(m.before) == WithoutFen(result.positions[m.before.ply])
          && WithoutFen(m.after) == WithoutFen(result.positions[m.after.ply]))
    && result.checkpoint.lastPly == if result.positions == [] then None else Some(|result.positions| - 1)
  }

  lemma InOrderIsSorted(result: AnalysisResult)
    requires Contiguous(result.positions)
    requires forall k :: 0 <= k < |result.moves| ==> result.moves[k].ply == k + 1
    ensures SortedPositions(result) == result.positions && SortedMoves(result) == result.moves
  {
    SortingSorted(result.positions, EvaluationPly());
    SortingSorted(result.moves, MovePly());
  }

  lemma ReadsSameIfLossless(result: AnalysisResult, read: PersistedResult)
    requires Consistent(result) && ReadsAs(result, read) && LosesNothing(result)
    ensures SameButFens(result, read)
  {
    InOrderIsSorted(result);
    forall k | 0 <= k < |read.moves|
      ensures SameMove(result.moves[k], read.moves[k])
    {
      assert read.moves[k] == ReadMove(result.positions, result.moves[k]);
    }
  }

  /** What reads back as given was given in order. */
  lemma SameIsOrdered(result: AnalysisResult, read: PersistedResult)
    requires Consistent(result) && ReadsAs(result, read) && SameButFens(result, read)
    ensures SortedPositions(result) == result.positions && SortedMoves(result) == result.moves
    ensures Contiguous(result.positions) && forall k :: 0 <= k < |result.moves| ==> result.moves[k].ply == k + 1
  {
    var positions, moves := SortedPositions(result), SortedMoves(result);
    forall k | 0 <= k < |result.positions|
      ensures result.positions[k].ply == k
    {
      assert read.positions[k] == WithoutFen(positions[k]) && SamePosition(result.positions[k], read.positions[k]);
    }
    forall k | 0 <= k < |result.moves|
      ensures result.moves[k].ply == k + 1
    {
      assert read.moves[k] == ReadMove(positions, moves[k]) && SameMove(result.moves[k], read.moves[k]);
    }
    InOrderIsSorted(result);
  }

  lemma LosslessIfReadsSame(result: AnalysisResult, read: PersistedResult)
    requires Consistent(result) && ReadsAs(result, read) && SameButFens(result, read)
    ensures LosesNothing(result)
  {
    SameIsOrdered(result, read);
    forall k | 0 <= k < |result.moves|
      ensures var m := result.moves[k];
              && PointsInto(m, |result.positions|)
              && WithoutFen(m.before) == WithoutFen(result.positions[m.before.ply])
              && WithoutFen(m.after) == WithoutFen(result.positions[m.after.ply])
    {
      assert read.moves[k] == ReadMove(result.positions, result.moves[k]) && SameMove(result.moves[k], read.moves[k]);
    }
  }

  /** The round trip is exact precisely for lossless results. */
  lemma RoundTrip(run: RunId, result: AnalysisResult, configuration: Configuration, started: int, finished: int)
    requires Consistent(result) && Resolvable(result)
    ensures var read := Rebuild(Stored(run, result, configuration, started, finished));
            read.Ok? && (SameButFens(result, read.value.result) <==> LosesNothing(result))
  {
    ReadBack(run, result, configuration, started, finished);
    var read := Rebuild(Stored(run, result, configuration, started, finished)).value.result;
    if LosesNothing(result) {
      ReadsSameIfLossless(result, read);
    }
    if SameButFens(result, read) {
      LosslessIfReadsSame(result, read);
    }
  }

  /** The moves run from ply one and embed the listed positions. */
  predicate Chained(result: AnalysisResult) {
    && |result.moves| == Max(0, |result.positions| - 1)
    && forall k :: 0 <= k < |result.moves| ==>
         && result.moves[k].ply == k + 1
         && result.moves[k].before == result.positions[k] && result.moves[k].after == result.positions[k + 1]
  }

  lemma LinkedIsChained(replay: seq<ReplayPosition>, result: AnalysisResult)
    requires |result.positions| <= |replay| && LinkedMoves(replay, result.positions, result.moves)
    ensures Chained(result)
  {
    forall k | 0 <= k < |result.moves|
      ensures result.moves[k].ply == k + 1
      ensures result.moves[k].before == result.positions[k] && result.moves[k].after == result.positions[k + 1]
    {
      var next := k + 1;
      assert replay[next].moveUci.Some? && result.moves[next - 1].ply == next;
    }
  }

  lemma ChainedIsStorable(result: AnalysisResult)
    requires OnlyComplete(result) && Contiguous(result.positions) && Chained(result)
    requires result.checkpoint.evaluatedPositions == |result.positions|
    requires result.checkpoint.completedMoves == |result.moves|
    ensures Consistent(result) && Resolvable(result)
  {
    InOrderIsSorted(result);
    forall k | 0 <= k < |result.moves|
      ensures result.moves[k].before.ply == k && result.moves[k].after.ply == k + 1
    {
      assert result.positions[k + 1].ply == k + 1;
    }
    ResolvableExactly(result);
  }

  lemma ChainedLosesNothing(result: AnalysisResult)
    requires Contiguous(result.positions) && Chained(result)
    requires Bounded(result.engineName) == result.engineName && Bounded(result.engineVersion) == result.engineVersion
    requires result.checkpoint.lastPly == if result.positions == [] then None else Some(|result.positions| - 1)
    ensures LosesNothing(result)
  {
    forall k | 0 <= k < |result.moves|
      ensures var m := result.moves[k];
              && PointsInto(m, |result.positions|)
              && m.before == result.positions[m.before.ply] && m.after == result.positions[m.after.ply]
    {
      assert result.positions[k + 1].ply == k + 1;
    }
  }

  /** A COMPLETE result of the analyzer passes every check that storing it makes, and loses only long engine names. */
  lemma AnalyzerResultStorable(game: GameInput, budget: Budget, started: int, replay: seq<ReplayPosition>,
                               tape: seq<Turn>, result: AnalysisResult, requests: seq<Request>)
    requires 0 < |replay| <= |tape| && Analyses(game, budget, started, replay, tape, result, requests)
    requires result.complete && forall k :: 0 <= k < |replay| ==> replay[k].ply == k
    ensures Consistent(result) && Resolvable(result)
    ensures |result.positions| == |replay| && |result.moves| == |replay| - 1
    ensures result.checkpoint.totalPositions == result.checkpoint.evaluatedPositions == |replay|
    ensures result.checkpoint.totalMoves == result.checkpoint.completedMoves == |replay| - 1
    ensures LosesNothing(result) <==>
            Bounded(result.engineName) == result.engineName && Bounded(result.engineVersion) == result.engineVersion
  {
    LinkedIsChained(replay, result);
    assert Contiguous(result.positions);
    ChainedIsStorable(result);
    if Bounded(result.engineName) == result.engineName && Bounded(result.engineVersion) == result.engineVersion {
      ChainedLosesNothing(result);
    }
  }

  // ---------------------------------------------------------------- the failing inputs

  /** An evaluation of the given ply, for the examples. */
  function Sample(ply: nat): Evaluation {
    Evaluation(PositionId(0, ply), ply, Board(White, 0), White, Centipawns(0), Move(1), [], None, None, None)
  }

  function SampleResult(positions: seq<Evaluation>, moves: seq<MoveEvaluation>, engineName: string): AnalysisResult {
    AnalysisResult(0, true, positions, moves,
                   Checkpoint(|moves|, |positions|, |moves|, |positions|, Some(0)), Some(engineName), None, None)
  }

  /** One position and one move pass `_validate_result`, and the insert loop then raises KeyError. */
  lemma KeyErrorExample()
    ensures var r := SampleResult([Sample(0)], [MoveEvaluation(1, Move(1), 0, Sample(0), Sample(1))], "Stockfish");
            Consistent(r) && !Resolvable(r)
  {
    var r := SampleResult([Sample(0)], [MoveEvaluation(1, Move(1), 0, Sample(0), Sample(1))], "Stockfish");
    SortingSorted(r.positions, EvaluationPly());
    SortingSorted(r.moves, MovePly());
    ResolvableExactly(r);
  }

  /** A result whose engine name has 101 characters is stored and read back with another name. */
  lemma LongNameExample(run: RunId, configuration: Configuration, name: string)
    requires |name| == 101
    ensures var r := SampleResult([Sample(0)], [], name);
            var read := Rebuild(Stored(run, r, configuration, 0, 0));
            && Consistent(r) && Resolvable(r) && read.Ok?
            && read.value.result.engineName == Some(name[..100]) && !SameButFens(r, read.value.result)
  {
    var r := SampleResult([Sample(0)], [], name);
    SortingSorted(r.positions, EvaluationPly());
    SortingSorted(r.moves, MovePly());
    ReadBack(run, r, configuration, 0, 0);
    RoundTrip(run, r, configuration, 0, 0);
  }
}
