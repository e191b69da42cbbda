/** The serial analyzer of `analysis/full_game.py`; engine answers and clock readings are inputs. */
module FullGame {
  import opened Common
  import opened Chess

  type GameId = nat

  /** `_position_id`: uuid5 is taken to be injective. */
  datatype PositionId = PositionId(game: GameId, ply: nat)

  datatype GameStatus =
    | CREATED | CAPTURING | FINISH_PENDING | FINISHED
    | DEEP_ANALYSIS_RUNNING | ANALYSIS_AVAILABLE | GAME_FAILED

  datatype GameInput = GameInput(
    game: GameId, status: GameStatus, verified: bool, initialFen: Option<nat>, moves: seq<Uci>)

  datatype Budget = Budget(
    depth: int, maxPositionTime: int, maxMoves: int, maxPositions: int, maxGameTime: int
  ) {
    /** What `__post_init__` accepts. */
    predicate Valid() {
      1 <= depth <= 99 && 1 <= maxPositionTime <= 300000 && 1 <= maxMoves && 2 <= maxPositions && 1 <= maxGameTime
    }
  }

  datatype Request = Request(game: GameId, position: PositionId, fen: Board, depth: int, limit: int) {
    /** The field bounds of `StockfishAnalysisRequest`. */
    predicate Valid() {
      1 <= depth <= 99 && 1 <= limit <= 300000
    }
  }

  datatype Reply = Reply(
    position: PositionId, score: Score, best: Uci, variation: seq<Uci>,
    depth: Option<nat>, nodes: Option<nat>, time: Option<nat>, engineName: string, engineVersion: Option<string>)

  /** One turn of the loop: what the clock reads, in milliseconds, and what the engine would do if asked. */
  datatype Turn = Turn(clock: int, reply: Result<Reply, nat>)

  datatype ReplayPosition = ReplayPosition(ply: nat, board: Board, moveUci: Option<Uci>, moveSan: Option<nat>)

  datatype Evaluation = Evaluation(
    position: PositionId, ply: nat, fen: Board, side: Color, score: Score, best: Uci, variation: seq<Uci>,
    depth: Option<nat>, nodes: Option<nat>, time: Option<nat>)

  datatype MoveEvaluation = MoveEvaluation(ply: nat, uci: Uci, san: nat, before: Evaluation, after: Evaluation)

  datatype Checkpoint = Checkpoint(
    totalMoves: nat, totalPositions: nat, completedMoves: nat, evaluatedPositions: nat, lastPly: Option<nat>)

  datatype FailureCode = ENGINE_EXECUTION_FAILED | GAME_BUDGET_EXHAUSTED

  datatype Failure = Failure(code: FailureCode, ply: nat)

  datatype AnalysisResult = AnalysisResult(
    game: GameId, complete: bool, positions: seq<Evaluation>, moves: seq<MoveEvaluation>, checkpoint: Checkpoint,
    engineName: Option<string>, engineVersion: Option<string>, failure: Option<Failure>)

  datatype InputError =
    | NotEligible | NoMoves | TooManyMoves | TooManyPositions | BadStart
    | InvalidMove(ply: nat) | IllegalMove(ply: nat)

  /**
   `Partial` is the FullGameAnalysisFailed exception with the result it carries, `NoSession`
   whatever entering the engine session raises.
   */
  datatype Outcome =
    | Complete(result: AnalysisResult)
    | Partial(result: AnalysisResult)
    | Rejected(error: InputError)
    | NoSession

  // ---------------------------------------------------------------- replay

  function StartOf(rules: Rules, game: GameInput): Option<Board> {
    if game.initialFen.Some? then rules.parse(game.initialFen.value) else Some(rules.start)
  }

  /** The k-th position of the replayed game. */
  function PositionAt(rules: Rules, start: Board, moves: seq<Uci>, k: nat): ReplayPosition
    requires k <= |moves|
  {
    var board := BoardAfter(rules, start, moves, k);
    if k == 0 then ReplayPosition(0, board, None, None) else
    var before := BoardAfter(rules, start, moves, k - 1);
    ReplayPosition(k, board, Some(moves[k - 1]), Some(rules.san(before, CodeOf(moves[k - 1]))))
  }

  ghost predicate PositionsUpTo(rules: Rules, start: Board, moves: seq<Uci>, positions: seq<ReplayPosition>) {
    && |positions| <= |moves| + 1
    && forall k :: 0 <= k < |positions| ==> positions[k] == PositionAt(rules, start, moves, k)
  }

  /** Position `next` is `last` with the move played, legally, and the turn passed. */
  predicate Follows(rules: Rules, last: ReplayPosition, move: Uci, next: ReplayPosition) {
    && PlayableOn(rules, last.board, move)
    && next.board.turn != last.board.turn && next.board.rest == rules.push(last.board, move.code)
    && next.moveUci == Some(move) && next.moveSan == Some(rules.san(last.board, move.code))
  }

  /** The replayed positions step by step. */
  ghost predicate Walks(rules: Rules, moves: seq<Uci>, replay: seq<ReplayPosition>) {
    && |replay| == |moves| + 1
    && (forall k :: 0 <= k < |replay| ==> replay[k].ply == k)
    && (forall k :: 0 <= k < |moves| ==> Follows(rules, replay[k], moves[k], replay[k + 1]))
  }

  /** The first position is the one the game records, or else the standard one. */
  predicate StartsFrom(rules: Rules, game: GameInput, first: ReplayPosition) {
    match game.initialFen
    case Some(fen) => rules.parse(fen) == Some(first.board)
    case None => first.board == rules.start
  }

  /** The positions of the whole game, every move of which can be played. */
  ghost predicate Replays(rules: Rules, game: GameInput, positions: seq<ReplayPosition>) {
    && StartOf(rules, game).Some?
    && |positions| == |game.moves| + 1
    && PositionsUpTo(rules, StartOf(rules, game).value, game.moves, positions)
    && Playable(rules, StartOf(rules, game).value, game.moves, |game.moves|)
  }

  /** So the positions are the game, move after move. */
  lemma ReplaysWalk(rules: Rules, game: GameInput, replay: seq<ReplayPosition>)
    requires Replays(rules, game, replay)
    ensures Walks(rules, game.moves, replay) && replay[0].board == StartOf(rules, game).value
    ensures StartsFrom(rules, game, replay[0])
  {
    var start := StartOf(rules, game).value;
    forall k | 0 <= k < |replay|
      ensures replay[k].ply == k && replay[k].board == BoardAfter(rules, start, game.moves, k)
    {
      assert replay[k] == PositionAt(rules, start, game.moves, k);
    }
    forall k | 0 <= k < |game.moves|
      ensures Follows(rules, replay[k], game.moves[k], replay[k + 1])
    {
      assert replay[k + 1] == PositionAt(rules, start, game.moves, k + 1);
      assert replay[k].board == BoardAfter(rules, start, game.moves, k);
    }
  }

  function MoveError(rules: Rules, board: Board, move: Uci, ply: nat): Option<InputError> {
    if move.Malformed? then Some(InvalidMove(ply))
    else if !rules.legal(board, move.code) then Some(IllegalMove(ply))
    else None
  }

  /** The error names the first move that cannot be played. */
  ghost predicate FirstBadMove(rules: Rules, start: Board, moves: seq<Uci>, error: InputError) {
    exists k :: 0 <= k < |moves| && Playable(rules, start, moves, k)
                && !PlayableOn(rules, BoardAfter(rules, start, moves, k), moves[k])
                && error == if moves[k].Malformed? then InvalidMove(k + 1) else IllegalMove(k + 1)
  }

  /** What keeps a game from being replayed, in the order of the checks. */
  ghost predicate RejectedWith(rules: Rules, game: GameInput, budget: Budget, error: InputError) {
    var start := StartOf(rules, game);
    if |game.moves| > budget.maxMoves then error == TooManyMoves
    else if |game.moves| + 1 > budget.maxPositions then error == TooManyPositions
    else if start.None? then error == BadStart
    else FirstBadMove(rules, start.value, game.moves, error)
  }

  /** Why `analyse` refuses a game before any engine call: eligibility, then an empty game, then the replay. */
  ghost predicate Refuses(rules: Rules, game: GameInput, budget: Budget, error: InputError) {
    if game.status !in {FINISHED, DEEP_ANALYSIS_RUNNING} || !game.verified then error == NotEligible
    else if game.moves == [] then error == NoMoves
    else RejectedWith(rules, game, budget, error)
  }

  /** A game that can be replayed within the budget has no reason to be refused. */
  lemma PlayableIsNotRefused(rules: Rules, game: GameInput, budget: Budget, error: InputError)
    requires game.status in {FINISHED, DEEP_ANALYSIS_RUNNING} && game.verified && game.moves != []
    requires |game.moves| <= budget.maxMoves && |game.moves| + 1 <= budget.maxPositions
    requires StartOf(rules, game).Some? && Playable(rules, StartOf(rules, game).value, game.moves, |game.moves|)
    ensures !Refuses(rules, game, budget, error)
  {
    var start, moves := StartOf(rules, game).value, game.moves;
    forall k | 0 <= k < |moves|
      ensures PlayableOn(rules, BoardAfter(rules, start, moves, k), moves[k])
    {
    }
  }

  lemma OneMorePosition(rules: Rules, start: Board, moves: seq<Uci>, positions: seq<ReplayPosition>,
                        next: ReplayPosition)
    requires PositionsUpTo(rules, start, moves, positions) && |positions| <= |moves|
    requires next == PositionAt(rules, start, moves, |positions|)
    ensures PositionsUpTo(rules, start, moves, positions + [next])
  {
    forall k | 0 <= k < |positions| + 1
      ensures (positions + [next])[k] == PositionAt(rules, start, moves, k)
    {
      if k < |positions| {
        assert positions[k] == PositionAt(rules, start, moves, k);
      }
    }
  }

  lemma OneMoreMove(rules: Rules, start: Board, moves: seq<Uci>, k: nat)
    requires k < |moves| && Playable(rules, start, moves, k)
    requires moves[k].Move? && rules.legal(BoardAfter(rules, start, moves, k), moves[k].code)
    ensures Playable(rules, start, moves, k + 1)
  {
  }

  /** `_replay` */
  method Replay(rules: Rules, game: GameInput, budget: Budget) returns (r: Result<seq<ReplayPosition>, InputError>)
    ensures r.Ok? ==> Replays(rules, game, r.value)
                      && |game.moves| <= budget.maxMoves && |game.moves| + 1 <= budget.maxPositions
    ensures r.Err? ==> RejectedWith(rules, game, budget, r.error)
  {
    if |game.moves| > budget.maxMoves {
      return Err(TooManyMoves);
    }
    if |game.moves| + 1 > budget.maxPositions {
      return Err(TooManyPositions);
    }
    var start := StartOf(rules, game);
    if start.None? {
      return Err(BadStart);
    }
    var board := start.value;
    var replay := [ReplayPosition(0, board, None, None)];
    var ply := 1;
    while ply <= |game.moves|
      invariant 1 <= ply <= |game.moves| + 1 && |replay| == ply
      invariant board == BoardAfter(rules, start.value, game.moves, ply - 1)
      invariant Playable(rules, start.value, game.moves, ply - 1)
      invariant PositionsUpTo(rules, start.value, game.moves, replay)
    {
      var move := game.moves[ply - 1];
      var error := MoveError(rules, board, move, ply);
      if error.Some? {
        return Err(error.value);
      }
      var san := rules.san(board, move.code);
      board := Play(rules, board, move.code);
      var next := ReplayPosition(ply, board, Some(move), Some(san));
      OneMoreMove(rules, start.value, game.moves, ply - 1);
      OneMorePosition(rules, start.value, game.moves, replay, next);
      replay := replay + [next];
      ply := ply + 1;
    }
    return Ok(replay);
  }

  // ---------------------------------------------------------------- the evaluation loop

  /** The clock still leaves some of the game's time. */
  predicate InTime(budget: Budget, started: int, turn: Turn) {
    turn.clock < started + budget.maxGameTime
  }

  /** The loop gets past this turn. */
  predicate Survives(budget: Budget, started: int, turn: Turn) {
    InTime(budget, started, turn) && turn.reply.Ok?
  }

  function Evaluate(position: ReplayPosition, reply: Reply): Evaluation {
    Evaluation(reply.position, position.ply, position.board, position.board.turn, reply.score, reply.best,
               reply.variation, reply.depth, reply.nodes, reply.time)
  }

  function CheckpointOf(replayed: nat, moves: nat, evaluations: seq<Evaluation>): Checkpoint
    requires replayed > 0
  {
    Checkpoint(replayed - 1, replayed, moves, |evaluations|,
               if evaluations == [] then None else Some(evaluations[|evaluations| - 1].ply))
  }

  /** The request is about this position, with what time is left `elapsed` ms after the start. */
  predicate Asks(request: Request, game: GameInput, budget: Budget, position: ReplayPosition, elapsed: int) {
    && request.game == game.game && request.position == PositionId(game.game, position.ply)
    && request.fen == position.board && request.depth == budget.depth
    && request.limit <= budget.maxPositionTime && request.limit <= budget.maxGameTime - elapsed
    && (request.limit == budget.maxPositionTime || request.limit == budget.maxGameTime - elapsed)
    && request.Valid()
  }

  /** The evaluation is of this position, with this answer of the engine. */
  predicate Answers(e: Evaluation, position: ReplayPosition, reply: Reply) {
    && e.ply == position.ply && e.fen == position.board && e.side == position.board.turn
    && e.position == reply.position && e.score == reply.score
    && e.best == reply.best && e.variation == reply.variation
    && e.depth == reply.depth && e.nodes == reply.nodes && e.time == reply.time
  }

  /** The evaluations are those of the first n positions, and nothing else. */
  ghost predicate EvaluatedPrefix(replay: seq<ReplayPosition>, tape: seq<Turn>, n: nat, evaluations: seq<Evaluation>)
    requires n <= |replay| <= |tape|
  {
    && |evaluations| == n
    && forall k :: 0 <= k < n ==> tape[k].reply.Ok? && Answers(evaluations[k], replay[k], tape[k].reply.value)
  }

  /** Move k leads from evaluation k - 1 to evaluation k. */
  ghost predicate LinkedMoves(replay: seq<ReplayPosition>, evaluations: seq<Evaluation>, moves: seq<MoveEvaluation>)
    requires |evaluations| <= |replay|
  {
    && |moves| == Max(0, |evaluations| - 1)
    && forall k :: 1 <= k < |evaluations| ==>
         && replay[k].moveUci.Some? && replay[k].moveSan.Some?
         && moves[k - 1] == MoveEvaluation(k, replay[k].moveUci.value, replay[k].moveSan.value,
                                           evaluations[k - 1], evaluations[k])
  }

  /**
   Request k asks about position k of this game, and grants the time of a position or what is
   left of the game's, whichever is less; that is at least 1 ms.
   */
  ghost predicate Granted(game: GameInput, budget: Budget, started: int, replay: seq<ReplayPosition>,
                          tape: seq<Turn>, requests: seq<Request>)
    requires |requests| <= |replay| <= |tape|
  {
    forall k :: 0 <= k < |requests| ==> Asks(requests[k], game, budget, replay[k], tape[k].clock - started)
  }

  /** The engine is named as in the last of the first n answers. */
  predicate Names(name: Option<string>, version: Option<string>, tape: seq<Turn>, n: nat)
    requires n <= |tape|
  {
    if n == 0 then name.None? && version.None?
    else tape[n - 1].reply.Ok?
         && name == Some(tape[n - 1].reply.value.engineName) && version == tape[n - 1].reply.value.engineVersion
  }

  predicate Counts(checkpoint: Checkpoint, replayed: nat, moves: nat, evaluations: seq<Evaluation>) {
    && checkpoint.totalPositions == replayed && checkpoint.totalMoves + 1 == replayed
    && checkpoint.evaluatedPositions == |evaluations| && checkpoint.completedMoves == moves
    && (|evaluations| == 0 ==> checkpoint.lastPly.None?)
    && (|evaluations| > 0 ==> checkpoint.lastPly == Some(evaluations[|evaluations| - 1].ply))
  }

  /**
   Everything the analyzer promises about its answer: the evaluations are the contiguous
   prefix before the first turn the loop does not survive, the moves link neighbours, the
   failed ply is that turn, and the requests are those of the turns before it, and its own
   unless the budget was gone.
   */
  ghost predicate Analyses(game: GameInput, budget: Budget, started: int, replay: seq<ReplayPosition>,
                           tape: seq<Turn>, result: AnalysisResult, requests: seq<Request>)
    requires 0 < |replay| <= |tape|
  {
    var n := |result.positions|;
    && n <= |replay|
    && (forall k :: 0 <= k < n ==> Survives(budget, started, tape[k]))
    && (n < |replay| ==> !Survives(budget, started, tape[n]))
    && EvaluatedPrefix(replay, tape, n, result.positions)
    && LinkedMoves(replay, result.positions, result.moves)
    && result.game == game.game
    && (result.complete <==> n == |replay|)
    && Counts(result.checkpoint, |replay|, |result.moves|, result.positions)
    && Names(result.engineName, result.engineVersion, tape, n)
    && result.failure == (if n == |replay| then None
                          else Some(Failure(if InTime(budget, started, tape[n]) then ENGINE_EXECUTION_FAILED
                                            else GAME_BUDGET_EXHAUSTED, n)))
    && |requests| == n + (if n < |replay| && InTime(budget, started, tape[n]) then 1 else 0)
    && Granted(game, budget, started, replay, tape, requests)
  }

  /** `analyse`; `opens` says whether the engine session can be entered, the request log is what it was sent. */
  method Analyse(rules: Rules, game: GameInput, budget: Budget, started: int, opens: bool, tape: seq<Turn>)
    returns (outcome: Outcome, ghost replay: seq<ReplayPosition>, requests: seq<Request>)
    requires budget.Valid() && |tape| > |game.moves|
    ensures outcome.Rejected? ==> requests == [] && Refuses(rules, game, budget, outcome.error)
    ensures outcome.Rejected? <==> exists e :: Refuses(rules, game, budget, e)
    ensures outcome.NoSession? ==> requests == []
    ensures !outcome.Rejected? ==> (outcome.NoSession? <==> !opens)
    ensures outcome.Complete? || outcome.Partial? ==>
              && Replays(rules, game, replay)
              && Walks(rules, game.moves, replay) && StartsFrom(rules, game, replay[0])
              && game.moves != [] && game.verified && game.status in {FINISHED, DEEP_ANALYSIS_RUNNING}
              && Analyses(game, budget, started, replay, tape, outcome.result, requests)
              && (outcome.Complete? <==> outcome.result.complete)
  {
    requests, replay := [], [];
    if game.status !in {FINISHED, DEEP_ANALYSIS_RUNNING} || !game.verified {
      assert Refuses(rules, game, budget, NotEligible);
      return Rejected(NotEligible), [], [];
    }
    if game.moves == [] {
      assert Refuses(rules, game, budget, NoMoves);
      return Rejected(NoMoves), [], [];
    }
    var replayed := Replay(rules, game, budget);
    if replayed.Err? {
      assert Refuses(rules, game, budget, replayed.error);
      return Rejected(replayed.error), [], [];
    }
    replay := replayed.value;
    ReplaysWalk(rules, game, replay);
    forall e ensures !Refuses(rules, game, budget, e) {
      PlayableIsNotRefused(rules, game, budget, e);
    }
    if !opens {
      return NoSession, replay, [];
    }
    assert forall k :: 0 <= k < |replay| ==> Steps(replay[k], k);
    outcome, requests := EvaluateAll(game, budget, started, replayed.value, tape);
  }

  /** What the loop needs of a replayed position. */
  predicate Steps(position: ReplayPosition, k: nat) {
    position.ply == k && (k > 0 ==> position.moveUci.Some? && position.moveSan.Some?)
  }

  lemma OneMoreTurn(positions: seq<ReplayPosition>, tape: seq<Turn>, evaluations: seq<Evaluation>,
                    moves: seq<MoveEvaluation>, evaluations': seq<Evaluation>, moves': seq<MoveEvaluation>)
    requires |evaluations| < |positions| <= |tape| && tape[|evaluations|].reply.Ok?
    requires EvaluatedPrefix(positions, tape, |evaluations|, evaluations) && LinkedMoves(positions, evaluations, moves)
    requires var k := |evaluations|;
             && evaluations' == evaluations + [Evaluate(positions[k], tape[k].reply.value)]
             && if k == 0 then moves' == moves
                else && positions[k].moveUci.Some? && positions[k].moveSan.Some?
                     && moves' == moves + [MoveEvaluation(k, positions[k].moveUci.value, positions[k].moveSan.value,
                                                          evaluations'[k - 1], evaluations'[k])]
    ensures EvaluatedPrefix(positions, tape, |evaluations| + 1, evaluations')
    ensures LinkedMoves(positions, evaluations', moves')
  {
  }

  /** The loop of `analyse` inside the engine session. */
  method EvaluateAll(game: GameInput, budget: Budget, started: int, positions: seq<ReplayPosition>, tape: seq<Turn>)
    returns (outcome: Outcome, requests: seq<Request>)
    requires budget.Valid() && 0 < |positions| <= |tape|
    requires forall k :: 0 <= k < |positions| ==> Steps(positions[k], k)
    ensures outcome.Complete? || outcome.Partial?
    ensures outcome.Complete? <==> outcome.result.complete
    ensures Analyses(game, budget, started, positions, tape, outcome.result, requests)
  {
    requests := [];
    var evaluations: seq<Evaluation>, moves: seq<MoveEvaluation> := [], [];
    var engineName: Option<string>, engineVersion: Option<string> := None, None;
    var k := 0;
    while k < |positions|
      invariant 0 <= k <= |positions|
      invariant forall i :: 0 <= i < k ==> Survives(budget, started, tape[i])
      invariant EvaluatedPrefix(positions, tape, k, evaluations)
      invariant LinkedMoves(positions, evaluations, moves)
      invariant Names(engineName, engineVersion, tape, k)
      invariant |requests| == k && Granted(game, budget, started, positions, tape, requests)
    {
      var position, turn := positions[k], tape[k];
      assert Steps(position, k);
      var remaining := budget.maxGameTime - (turn.clock - started);
      if remaining <= 0 {
        return Fail(game, positions, moves, evaluations, engineName, engineVersion, k, GAME_BUDGET_EXHAUSTED), requests;
      }
      var request := Request(game.game, PositionId(game.game, position.ply), position.board, budget.depth,
                             Min(budget.maxPositionTime, remaining));
      assert Asks(request, game, budget, position, turn.clock - started);
      requests := requests + [request];
      if turn.reply.Err? {
        return Fail(game, positions, moves, evaluations, engineName, engineVersion, k, ENGINE_EXECUTION_FAILED),
               requests;
      }
      var evaluation := Evaluate(position, turn.reply.value);
      ghost var evaluated, linked := evaluations, moves;
      evaluations := evaluations + [evaluation];
      engineName := Some(turn.reply.value.engineName);
      engineVersion := turn.reply.value.engineVersion;
      if position.ply > 0 {
        moves := moves + [MoveEvaluation(position.ply, position.moveUci.value, position.moveSan.value,
                                         evaluations[|evaluations| - 2], evaluation)];
      }
      OneMoreTurn(positions, tape, evaluated, linked, evaluations, moves);
      k := k + 1;
    }
    outcome := Complete(AnalysisResult(game.game, true, evaluations, moves,
                                       CheckpointOf(|positions|, |moves|, evaluations),
                                       engineName, engineVersion, None));
  }

  /** `_failure` */
  function Fail(game: GameInput, positions: seq<ReplayPosition>, moves: seq<MoveEvaluation>,
                evaluations: seq<Evaluation>, engineName: Option<string>, engineVersion: Option<string>,
                ply: nat, code: FailureCode): Outcome
    requires positions != []
  {
    Partial(AnalysisResult(game.game, false, evaluations, moves, CheckpointOf(|positions|, |moves|, evaluations),
                           engineName, engineVersion, Some(Failure(code, ply))))
  }

  // ---------------------------------------------------------------- time

  /** The engine works `spent[k]` ms on request k: no longer than granted, and the clock never runs backwards. */
  ghost predicate HonoursLimits(started: int, tape: seq<Turn>, requests: seq<Request>, spent: seq<int>) {
    && |spent| == |requests| <= |tape|
    && (|requests| > 0 ==> started <= tape[0].clock)
    && (forall k :: 0 <= k < |requests| ==> 0 <= spent[k] <= requests[k].limit)
    && (forall k :: 0 < k < |requests| ==> tape[k - 1].clock + spent[k - 1] <= tape[k].clock)
  }

  function Sum(xs: seq<int>): int {
    if xs == [] then 0 else Sum(xs[..|xs| - 1]) + xs[|xs| - 1]
  }

  lemma {:induction false} SpentSoFar(started: int, tape: seq<Turn>, requests: seq<Request>, spent: seq<int>, k: nat)
    requires HonoursLimits(started, tape, requests, spent) && k < |requests|
    ensures Sum(spent[..k]) <= tape[k].clock - started
    decreases k
  {
    if k > 0 {
      SpentSoFar(started, tape, requests, spent, k - 1);
      assert spent[..k][..k - 1] == spent[..k - 1];
    } else {
      assert spent[..0] == [];
    }
  }

  /** An engine that honours its limits finishes every request within the game budget, so its total time fits too. */
  lemma GameTimeKept(game: GameInput, budget: Budget, started: int, replay: seq<ReplayPosition>, tape: seq<Turn>,
                     result: AnalysisResult, requests: seq<Request>, spent: seq<int>)
    requires budget.Valid() && 0 < |replay| <= |tape|
    requires Analyses(game, budget, started, replay, tape, result, requests)
    requires HonoursLimits(started, tape, requests, spent)
    ensures forall k :: 0 <= k < |requests| ==> tape[k].clock + spent[k] <= started + budget.maxGameTime
    ensures Sum(spent) <= budget.maxGameTime
  {
    if |requests| > 0 {
      var last := |requests| - 1;
      SpentSoFar(started, tape, requests, spent, last);
      assert spent[..last] == spent[..|spent| - 1];
    }
  }
}
