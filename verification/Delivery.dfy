/**
 Public delivery of `services/analysis_delivery.py`: replay the analysed moves on a board,
 link every layer to it, and hand the result out once.
 */
module Delivery {
  import opened Common
  import opened Chess
  import opened FullGame
  import opened EngineConfig
  import opened JobLifecycle
  import opened JobTable
  import opened Persistence
  import opened MoveMetrics
  import opened MoveClassification
  import opened GameMetrics
  import opened Pipeline
  import opened Release
  import opened ReleaseEffects
  import R = ResultStore

  datatype PublicMove = PublicMove(
    ply: int, uci: Uci, san: nat, mover: Color, quality: Quality, loss: Option<int>,
    alternativeSan: Option<nat>, afterCentipawns: Option<int>)

  datatype Response = Response(game: GameId, moves: seq<PublicMove>, white: PlayerSummary, black: PlayerSummary)

  /** `Crashed` is an exception the endpoint does not expect; like the others it is rolled back. */
  datatype Answer = Delivered(response: Response) | NotFound | Unavailable | Crashed

  function MovesOf(u: Unified): seq<Uci> {
    seq(|u.classified.value|, k requires 0 <= k < |u.classified.value| => u.classified.value[k].metric.uci)
  }

  /** The board before move k, from the standard position. */
  function BoardBefore(rules: Rules, u: Unified, k: nat): Board
    requires k <= |u.classified.value|
  {
    BoardAfter(rules, rules.start, MovesOf(u), k)
  }

  predicate UniquePlies(moves: seq<PersistedMove>) {
    forall i, j :: 0 <= i < j < |moves| ==> moves[i].ply != moves[j].ply
  }

  /** `_linked_persisted_move` accepts this stored move for the metric. */
  predicate Links(move: PersistedMove, metric: Metric) {
    && move.ply == metric.ply && move.uci == metric.uci && move.san == metric.san
    && move.before.ply == metric.ply - 1 && move.after.ply == metric.ply
  }

  /** Move k passes every check of the mapping loop, with this stored move. */
  predicate Maps(rules: Rules, u: Unified, k: nat, stored: PersistedMove)
    requires k < |u.classified.value|
  {
    var metric, board := u.classified.value[k].metric, BoardBefore(rules, u, k);
    && Links(stored, metric) && board.turn == metric.mover
    && PlayableOn(rules, board, metric.uci) && rules.san(board, metric.uci.code) == metric.san
    && PlayableOn(rules, board, stored.before.best)
  }

  function PublicMoveOf(rules: Rules, u: Unified, k: nat, stored: PersistedMove): PublicMove
    requires k < |u.classified.value|
  {
    var c, board := u.classified.value[k], BoardBefore(rules, u, k);
    PublicMove(c.metric.ply, c.metric.uci, c.metric.san, c.metric.mover, c.quality, c.metric.loss,
               if stored.before.best == c.metric.uci then None
               else Some(rules.san(board, CodeOf(stored.before.best))),
               if stored.after.score.Centipawns? then Some(stored.after.score.centipawns) else None)
  }

  /** The stored move of a ply; with unique plies there is no other. */
  function StoredAt(moves: seq<PersistedMove>, ply: int): (r: Option<PersistedMove>)
    ensures r.Some? ==> r.value in moves && r.value.ply == ply
    ensures r.None? ==> forall m :: m in moves ==> m.ply != ply
  {
    if moves == [] then None
    else if moves[0].ply == ply then Some(moves[0])
    else StoredAt(moves[1..], ply)
  }

  lemma UniqueAt(moves: seq<PersistedMove>, m: PersistedMove)
    requires UniquePlies(moves) && m in moves
    ensures StoredAt(moves, m.ply) == Some(m)
  {
    var found := StoredAt(moves, m.ply).value;
    var i :| 0 <= i < |moves| && moves[i] == m;
    var j :| 0 <= j < |moves| && moves[j] == found;
    assert moves[i].ply == moves[j].ply;
  }

  /** Move k maps, with the stored move of its ply. */
  predicate MapsAt(rules: Rules, u: Unified, k: nat)
    requires k < |u.classified.value|
  {
    var stored := StoredAt(u.snapshot.analysis.result.moves, u.classified.value[k].metric.ply);
    stored.Some? && Maps(rules, u, k, stored.value)
  }

  /** The whole analysis maps: the stored plies are unique and every move maps. */
  predicate Mappable(rules: Rules, u: Unified) {
    && UniquePlies(u.snapshot.analysis.result.moves)
    && forall k :: 0 <= k < |u.classified.value| ==> MapsAt(rules, u, k)
  }

  function PublicMoveAt(rules: Rules, u: Unified, k: nat): PublicMove
    requires k < |u.classified.value| && MapsAt(rules, u, k)
  {
    PublicMoveOf(rules, u, k, StoredAt(u.snapshot.analysis.result.moves, u.classified.value[k].metric.ply).value)
  }

  function ResponseOf(rules: Rules, u: Unified): Response
    requires Mappable(rules, u)
  {
    Response(u.game,
             seq(|u.classified.value|, k requires 0 <= k < |u.classified.value| => PublicMoveAt(rules, u, k)),
             u.aggregate.value.white, u.aggregate.value.black)
  }

  /** What the public move says of a classified move, of the stored one, and of the board before it. */
  predicate MoveSays(rules: Rules, board: Board, c: Classified, stored: PersistedMove, m: PublicMove) {
    && m.ply == c.metric.ply && m.uci == c.metric.uci && m.san == c.metric.san && m.mover == c.metric.mover
    && m.quality == c.quality && m.loss == c.metric.loss
    && (stored.before.best == c.metric.uci ==> m.alternativeSan.None?)
    && (stored.before.best != c.metric.uci ==>
          stored.before.best.Move? && m.alternativeSan == Some(rules.san(board, stored.before.best.code)))
    && (stored.after.score.Centipawns? ==> m.afterCentipawns == Some(stored.after.score.centipawns))
    && (stored.after.score.MateIn? ==> m.afterCentipawns.None?)
  }

  /** The response speaks of the whole game, move by move, and of each player under their own colour. */
  ghost predicate ResponseSays(rules: Rules, u: Unified, response: Response) {
    && response.game == u.game && |response.moves| == |u.classified.value|
    && response.white == u.aggregate.value.white && response.black == u.aggregate.value.black
    && forall k :: 0 <= k < |response.moves| ==> MoveIsSaid(rules, u, k, response.moves[k])
  }

  /** Every stored move of that ply is the one spoken of. */
  ghost predicate MoveIsSaid(rules: Rules, u: Unified, k: nat, m: PublicMove)
    requires k < |u.classified.value|
  {
    forall stored :: stored in u.snapshot.analysis.result.moves && stored.ply == u.classified.value[k].metric.ply ==>
      MoveSays(rules, BoardBefore(rules, u, k), u.classified.value[k], stored, m)
  }

  lemma ResponseTells(rules: Rules, u: Unified)
    requires Mappable(rules, u)
    ensures ResponseSays(rules, u, ResponseOf(rules, u))
  {
    forall k | 0 <= k < |u.classified.value|
      ensures MoveIsSaid(rules, u, k, PublicMoveAt(rules, u, k))
    {
      assert MapsAt(rules, u, k);
      forall stored | stored in u.snapshot.analysis.result.moves && stored.ply == u.classified.value[k].metric.ply
        ensures MoveSays(rules, BoardBefore(rules, u, k), u.classified.value[k], stored, PublicMoveAt(rules, u, k))
      {
        UniqueAt(u.snapshot.analysis.result.moves, stored);
      }
    }
  }

  /** The dictionary maps the plies of the moves to moves with that ply. */
  ghost predicate Indexes(byPly: map<int, PersistedMove>, moves: seq<PersistedMove>) {
    && (forall m :: m in moves ==> m.ply in byPly)
    && (forall p :: p in byPly ==> byPly[p] in moves && byPly[p].ply == p)
  }

  lemma OneMoreUnique(moves: seq<PersistedMove>, m: PersistedMove)
    ensures UniquePlies(moves + [m]) <==> UniquePlies(moves) && forall n :: n in moves ==> n.ply != m.ply
  {
    if UniquePlies(moves + [m]) {
      forall n | n in moves
        ensures n.ply != m.ply
      {
        var i :| 0 <= i < |moves| && moves[i] == n;
        assert (moves + [m])[i] == n && (moves + [m])[|moves|] == m;
      }
      forall i, j | 0 <= i < j < |moves|
        ensures moves[i].ply != moves[j].ply
      {
        assert (moves + [m])[i] == moves[i] && (moves + [m])[j] == moves[j];
      }
    }
  }

  lemma IndexLooksUp(byPly: map<int, PersistedMove>, moves: seq<PersistedMove>, ply: int)
    requires Indexes(byPly, moves) && UniquePlies(moves)
    ensures StoredAt(moves, ply) == if ply in byPly then Some(byPly[ply]) else None
  {
    if ply in byPly {
      UniqueAt(moves, byPly[ply]);
    }
  }

  /** The dictionary has as many keys as the list has moves exactly if the plies are unique. */
  ghost predicate CountsPlies(byPly: map<int, PersistedMove>, moves: seq<PersistedMove>) {
    |byPly| <= |moves| && (|byPly| == |moves| <==> UniquePlies(moves))
  }

  lemma OneMoreKey(byPly: map<int, PersistedMove>, moves: seq<PersistedMove>, m: PersistedMove)
    requires Indexes(byPly, moves) && CountsPlies(byPly, moves)
    ensures CountsPlies(byPly[m.ply as int := m], moves + [m])
  {
    var ply: int := m.ply;
    OneMoreUnique(moves, m);
    assert byPly[ply := m].Keys == byPly.Keys + {ply};
    if ply in byPly {
      assert byPly[ply] in moves;
      assert byPly.Keys + {ply} == byPly.Keys;
    }
  }

  lemma StillIndexes(byPly: map<int, PersistedMove>, moves: seq<PersistedMove>, m: PersistedMove)
    requires Indexes(byPly, moves)
    ensures Indexes(byPly[m.ply as int := m], moves + [m])
  {
    var next, longer := byPly[m.ply as int := m], moves + [m];
    assert longer[|moves|] == m;
    forall p | p in next
      ensures next[p] in longer && next[p].ply == p
    {
      if p != m.ply as int {
        assert next[p] == byPly[p];
        assert byPly[p] in moves;
      }
    }
    forall n | n in longer
      ensures n.ply in next
    {
      if n != m {
        assert n in moves;
      }
    }
  }

  /** `_persisted_moves_by_ply`: the dictionary is as long as the list exactly when the plies are unique. */
  method IndexByPly(moves: seq<PersistedMove>) returns (byPly: map<int, PersistedMove>)
    ensures Indexes(byPly, moves)
    ensures |byPly| == |moves| <==> UniquePlies(moves)
  {
    byPly := map[];
    for i := 0 to |moves|
      invariant Indexes(byPly, moves[..i])
      invariant CountsPlies(byPly, moves[..i])
    {
      ghost var front := moves[..i];
      StillIndexes(byPly, front, moves[i]);
      OneMoreKey(byPly, front, moves[i]);
      assert moves[..i + 1] == front + [moves[i]];
      byPly := byPly[moves[i].ply as int := moves[i]];
    }
    assert moves[..|moves|] == moves;
  }

  /** `map_public_analysis`: it succeeds exactly for mappable analyses, and says of every move what was stored. */
  method MapPublicAnalysis(rules: Rules, u: Unified) returns (r: Option<Response>)
    ensures r.Some? <==> Mappable(rules, u)
    ensures r.Some? ==> r.value == ResponseOf(rules, u) && ResponseSays(rules, u, r.value)
  {
    var stored := u.snapshot.analysis.result.moves;
    var byPly := IndexByPly(stored);
    if |byPly| != |stored| {
      return None;
    }
    var board := rules.start;
    var moves: seq<PublicMove> := [];
    for k := 0 to |u.classified.value|
      invariant board == BoardBefore(rules, u, k) && |moves| == k
      invariant forall i :: 0 <= i < k ==> MapsAt(rules, u, i) && moves[i] == PublicMoveAt(rules, u, i)
    {
      var c := u.classified.value[k];
      IndexLooksUp(byPly, stored, c.metric.ply);
      if c.metric.ply !in byPly || !Links(byPly[c.metric.ply], c.metric)
         || board.turn != c.metric.mover || !PlayableOn(rules, board, c.metric.uci)
         || rules.san(board, c.metric.uci.code) != c.metric.san {
        assert !MapsAt(rules, u, k);
        return None;
      }
      var persisted := byPly[c.metric.ply];
      if !PlayableOn(rules, board, persisted.before.best) {
        assert !MapsAt(rules, u, k);
        return None;
      }
      assert MapsAt(rules, u, k);
      var alternative := if persisted.before.best == c.metric.uci then None
                         else Some(rules.san(board, persisted.before.best.code));
      var centipawns := if persisted.after.score.Centipawns? then Some(persisted.after.score.centipawns) else None;
      moves := moves + [PublicMove(c.metric.ply, c.metric.uci, c.metric.san, c.metric.mover, c.quality, c.metric.loss,
                                   alternative, centipawns)];
      board := Play(rules, board, c.metric.uci.code);
    }
    ResponseTells(rules, u);
    return Some(Response(u.game, moves, u.aggregate.value.white, u.aggregate.value.black));
  }

  // ---------------------------------------------------------------- what can be delivered

  /** The stored moves in order of ply, from ply one. */
  predicate InPlyOrder(u: Unified) {
    var stored := u.snapshot.analysis.result.moves;
    && |u.classified.value| == |stored|
    && (forall k :: 0 <= k < |stored| ==> stored[k].ply == k + 1)
    && (forall k :: 0 <= k < |stored| ==> u.classified.value[k].metric.ply == k + 1)
  }

  /** In that order the k-th metric is looked up with the k-th stored move. */
  lemma OrderedLookup(u: Unified)
    requires InPlyOrder(u)
    ensures var stored := u.snapshot.analysis.result.moves;
            && UniquePlies(stored)
            && forall k :: 0 <= k < |stored| ==> StoredAt(stored, u.classified.value[k].metric.ply) == Some(stored[k])
  {
    var stored := u.snapshot.analysis.result.moves;
    forall k | 0 <= k < |stored|
      ensures StoredAt(stored, u.classified.value[k].metric.ply) == Some(stored[k])
    {
      UniqueAt(stored, stored[k]);
    }
  }

  /** The layers describe the analysed game: move k was played on the k-th board, with the engine's answer beside it. */
  ghost predicate Describes(rules: Rules, moves: seq<Uci>, replay: seq<ReplayPosition>, u: Unified)
    requires |replay| == |moves| + 1
  {
    var stored := u.snapshot.analysis.result.moves;
    && InPlyOrder(u) && |stored| == |moves|
    && forall k :: 0 <= k < |moves| ==>
         var metric := u.classified.value[k].metric;
         && Links(stored[k], metric) && metric.uci == moves[k] && moves[k].Move?
         && metric.mover == replay[k].board.turn && metric.san == rules.san(replay[k].board, moves[k].code)
  }

  /**
   What the mapping needs of move k and of the engine's reference: on the board it has
   replayed from the standard position the same side moves, the move is legal with the same
   notation, and so is the reference.
   */
  predicate DeliverableAt(rules: Rules, moves: seq<Uci>, replay: seq<ReplayPosition>, k: nat, reference: Uci)
    requires k < |moves| && |replay| == |moves| + 1
  {
    var board := BoardAfter(rules, rules.start, moves, k);
    && board.turn == replay[k].board.turn && PlayableOn(rules, board, moves[k])
    && rules.san(board, moves[k].code) == rules.san(replay[k].board, moves[k].code)
    && PlayableOn(rules, board, reference)
  }

  /** The game can be delivered with these references of the engine, one for each move. */
  predicate Deliverable(rules: Rules, moves: seq<Uci>, replay: seq<ReplayPosition>, references: seq<Uci>)
    requires |replay| == |moves| + 1 == |references| + 1
  {
    forall k :: 0 <= k < |moves| ==> DeliverableAt(rules, moves, replay, k, references[k])
  }

  function References(stored: seq<PersistedMove>): seq<Uci> {
    seq(|stored|, k requires 0 <= k < |stored| => stored[k].before.best)
  }

  /** What the engine answered for the first n positions. */
  function BestMoves(positions: seq<Evaluation>, n: nat): seq<Uci>
    requires n <= |positions|
  {
    seq(n, k requires 0 <= k < n => positions[k].best)
  }

  /** From whatever position a game starts, it is deliverable exactly when its moves also fit the standard one. */
  lemma MappableExactly(rules: Rules, moves: seq<Uci>, replay: seq<ReplayPosition>, u: Unified)
    requires |replay| == |moves| + 1 && Describes(rules, moves, replay, u)
    ensures Mappable(rules, u) <==> Deliverable(rules, moves, replay, References(u.snapshot.analysis.result.moves))
  {
    var stored := u.snapshot.analysis.result.moves;
    OrderedLookup(u);
    assert MovesOf(u) == moves;
    forall k | 0 <= k < |moves|
      ensures MapsAt(rules, u, k) <==> DeliverableAt(rules, moves, replay, k, References(stored)[k])
    {
      assert Links(stored[k], u.classified.value[k].metric);
    }
  }

  lemma {:induction false} StandardBoards(rules: Rules, moves: seq<Uci>, replay: seq<ReplayPosition>, k: nat)
    requires Walks(rules, moves, replay) && replay[0].board == rules.start && k <= |moves|
    ensures BoardAfter(rules, rules.start, moves, k) == replay[k].board
  {
    if k > 0 {
      StandardBoards(rules, moves, replay, k - 1);
      assert Follows(rules, replay[k - 1], moves[k - 1], replay[k - 1 + 1]);
    }
  }

  /** A game from the standard position is deliverable exactly when the engine's reference moves are legal. */
  lemma StandardDeliverable(rules: Rules, moves: seq<Uci>, replay: seq<ReplayPosition>, u: Unified)
    requires Walks(rules, moves, replay) && Describes(rules, moves, replay, u) && replay[0].board == rules.start
    ensures Mappable(rules, u) <==>
            forall k :: 0 <= k < |moves| ==>
              PlayableOn(rules, replay[k].board, u.snapshot.analysis.result.moves[k].before.best)
  {
    var stored := u.snapshot.analysis.result.moves;
    MappableExactly(rules, moves, replay, u);
    forall k | 0 <= k < |moves|
      ensures DeliverableAt(rules, moves, replay, k, References(stored)[k])
              <==> PlayableOn(rules, replay[k].board, stored[k].before.best)
    {
      StandardBoards(rules, moves, replay, k);
      assert Follows(rules, replay[k], moves[k], replay[k + 1]);
    }
  }

  /** A game that starts with the other side to move is never deliverable: the first mover check fails. */
  lemma OtherSideUndeliverable(rules: Rules, moves: seq<Uci>, replay: seq<ReplayPosition>, u: Unified)
    requires |replay| == |moves| + 1 && Describes(rules, moves, replay, u)
    requires moves != [] && replay[0].board.turn != rules.start.turn
    ensures !Mappable(rules, u)
  {
    MappableExactly(rules, moves, replay, u);
    assert !DeliverableAt(rules, moves, replay, 0, References(u.snapshot.analysis.result.moves)[0]);
  }

  // ---------------------------------------------------------------- from the analyzer to the pipeline

  /** The engine answered in well-formed moves and sensible depths. */
  predicate CleanReplies(tape: seq<Turn>, n: nat)
    requires n <= |tape|
  {
    forall k :: 0 <= k < n && tape[k].reply.Ok? ==>
      var reply := tape[k].reply.value;
      && reply.best.Move? && (forall m :: m in reply.variation ==> m.Move?)
      && (reply.depth.Some? ==> reply.depth.value >= 1)
  }

  /** The k-th move leads from one stored position to the next. */
  predicate Joins(m: PersistedMove, k: nat, next: ReplayPosition, before: PersistedPosition, after: PersistedPosition) {
    && m.ply == k + 1 && next.moveUci == Some(m.uci) && next.moveSan == Some(m.san)
    && m.before == before && m.after == after
  }

  /** What is read back of an analysed game: its positions in order, and between them its moves. */
  ghost predicate TellsGame(moves: seq<Uci>, replay: seq<ReplayPosition>, read: PersistedResult)
    requires |replay| == |moves| + 1
  {
    && |read.positions| == |replay| && |read.moves| == |moves|
    && (forall k :: 0 <= k < |replay| ==>
          && read.positions[k].ply == k && read.positions[k].side == replay[k].board.turn
          && WellFormedPosition(read.positions[k]))
    && (forall k :: 0 <= k < |moves| ==>
          Joins(read.moves[k], k, replay[k + 1], read.positions[k], read.positions[k + 1]))
    && read.checkpoint.totalPositions == read.checkpoint.evaluatedPositions == |replay|
    && read.checkpoint.totalMoves == read.checkpoint.completedMoves == |moves|
  }

  lemma AnalysisReadsBack(rules: Rules, game: GameInput, budget: Budget, started: int, replay: seq<ReplayPosition>,
                          tape: seq<Turn>, result: AnalysisResult, requests: seq<Request>, read: PersistedResult)
    requires Walks(rules, game.moves, replay) && |replay| <= |tape|
    requires Analyses(game, budget, started, replay, tape, result, requests) && result.complete
    requires CleanReplies(tape, |replay|) && ReadsAs(result, read)
    ensures TellsGame(game.moves, replay, read)
  {
    LinkedIsChained(replay, result);
    InOrderIsSorted(result);
    forall k | 0 <= k < |replay|
      ensures read.positions[k].ply == k && read.positions[k].side == replay[k].board.turn
      ensures WellFormedPosition(read.positions[k])
    {
      assert read.positions[k] == WithoutFen(result.positions[k]);
      assert Answers(result.positions[k], replay[k], tape[k].reply.value);
    }
    forall k | 0 <= k < |game.moves|
      ensures Joins(read.moves[k], k, replay[k + 1], read.positions[k], read.positions[k + 1])
    {
      var m, next := result.moves[k], k + 1;
      assert result.moves[next - 1] == MoveEvaluation(next, replay[next].moveUci.value, replay[next].moveSan.value,
                                                      result.positions[next - 1], result.positions[next]);
      assert read.moves[k] == ReadMove(result.positions, m);
      assert read.positions[k] == WithoutFen(result.positions[k]);
      assert read.positions[next] == WithoutFen(result.positions[next]);
    }
  }

  lemma TalesAreValid(rules: Rules, moves: seq<Uci>, replay: seq<ReplayPosition>, snapshot: Snapshot)
    requires Walks(rules, moves, replay) && TellsGame(moves, replay, snapshot.analysis.result)
    ensures ValidSnapshot(snapshot.analysis)
    ensures forall k :: 0 <= k < |moves| ==>
              var m := snapshot.analysis.result.moves[k];
              && PassesTurn(m) && m.before.best.Move? && m.uci == moves[k] && m.before.side == replay[k].board.turn
              && m.san == rules.san(replay[k].board, CodeOf(moves[k]))
  {
    var read := snapshot.analysis.result;
    forall k | 0 <= k < |moves|
      ensures var m := read.moves[k];
              && m.ply == k + 1 && m.before.ply == k && m.after.ply == k + 1 && m.uci == moves[k] && m.uci.Move?
              && PassesTurn(m) && m.before.best.Move? && m.before.side == replay[k].board.turn
              && m.san == rules.san(replay[k].board, CodeOf(moves[k]))
    {
      assert Follows(rules, replay[k], moves[k], replay[k + 1]);
      assert Joins(read.moves[k], k, replay[k + 1], read.positions[k], read.positions[k + 1]);
    }
  }

  lemma MoversOf(snapshot: Snapshot)
    requires Derive(snapshot).Ok?
    ensures var stored := snapshot.analysis.result.moves;
            && |Derive(snapshot).value| == |stored|
            && forall k :: 0 <= k < |stored| ==> Derive(snapshot).value[k].mover == stored[k].before.side
  {
    DerivesExactly(snapshot.analysis.result.moves);
    forall k | 0 <= k < |snapshot.analysis.result.moves|
      ensures Derive(snapshot).value[k].mover == snapshot.analysis.result.moves[k].before.side
    {
      assert DeriveMetric(InputOf(snapshot.analysis.result.moves[k])) == Ok(Derive(snapshot).value[k]);
    }
  }

  /** The moves of the composed layers are the stored ones, each by the side it was read with. */
  lemma ComposedMoves(policy: Thresholds, scale: int, snapshot: Snapshot)
    requires scale >= 1 && ValidSnapshot(snapshot.analysis)
    ensures Compose(policy, scale, snapshot).Ok? ==>
            var u := Compose(policy, scale, snapshot).value;
            var stored := snapshot.analysis.result.moves;
            && u.snapshot == snapshot && |u.classified.value| == |stored|
            && forall k :: 0 <= k < |stored| ==>
                 Links(stored[k], u.classified.value[k].metric)
                 && u.classified.value[k].metric.mover == stored[k].before.side
  {
    if Derive(snapshot).Ok? {
      MoversOf(snapshot);
    }
  }

  lemma LinkedDescribes(rules: Rules, moves: seq<Uci>, replay: seq<ReplayPosition>, u: Unified)
    requires |replay| == |moves| + 1
    requires var stored := u.snapshot.analysis.result.moves;
             && |stored| == |moves| == |u.classified.value|
             && forall k :: 0 <= k < |moves| ==>
                  && Links(stored[k], u.classified.value[k].metric)
                  && u.classified.value[k].metric.mover == stored[k].before.side
                  && stored[k].ply == k + 1 && stored[k].uci == moves[k] && moves[k].Move?
                  && stored[k].before.side == replay[k].board.turn
                  && stored[k].san == rules.san(replay[k].board, CodeOf(moves[k]))
    ensures Describes(rules, moves, replay, u)
  {
  }

  /** On what is read back of an analysed game the pipeline always succeeds, and its layers describe the game. */
  lemma GameComposes(rules: Rules, moves: seq<Uci>, replay: seq<ReplayPosition>, snapshot: Snapshot,
                     policy: Thresholds, scale: int)
    requires Walks(rules, moves, replay) && TellsGame(moves, replay, snapshot.analysis.result)
    requires snapshot.game == snapshot.analysis.result.game && policy.Valid() && scale >= 1
    ensures ValidSnapshot(snapshot.analysis) && Compose(policy, scale, snapshot).Ok?
    ensures Compose(policy, scale, snapshot).value.snapshot == snapshot
    ensures Describes(rules, moves, replay, Compose(policy, scale, snapshot).value)
  {
    TalesAreValid(rules, moves, replay, snapshot);
    ComposesExactly(policy, scale, snapshot);
    ComposedMoves(policy, scale, snapshot);
    LinkedDescribes(rules, moves, replay, Compose(policy, scale, snapshot).value);
  }

  lemma ReferencesKept(result: AnalysisResult, read: PersistedResult, n: nat)
    requires Consistent(result) && Contiguous(result.positions) && ReadsAs(result, read)
    requires n == |read.moves| == |result.moves| && n < |result.positions|
    requires forall k :: 0 <= k < n ==> result.moves[k].ply == k + 1
    ensures References(read.moves) == BestMoves(result.positions, n)
  {
    InOrderIsSorted(result);
  }

  /** What storing and reading back a COMPLETE analysis gives. */
  lemma AnalysisTells(rules: Rules, game: GameInput, budget: Budget, started: int, replay: seq<ReplayPosition>,
                      tape: seq<Turn>, result: AnalysisResult, requests: seq<Request>,
                      run: RunId, configuration: Configuration, begun: int, finished: int)
    requires Walks(rules, game.moves, replay) && |replay| <= |tape| && CleanReplies(tape, |replay|)
    requires Analyses(game, budget, started, replay, tape, result, requests) && result.complete
    ensures var read := Rebuild(Stored(run, result, configuration, begun, finished));
            && read.Ok? && TellsGame(game.moves, replay, read.value.result) && read.value.result.game == game.game
            && |result.positions| == |replay|
            && References(read.value.result.moves) == BestMoves(result.positions, |game.moves|)
  {
    AnalyzerResultStorable(game, budget, started, replay, tape, result, requests);
    LinkedIsChained(replay, result);
    ReadBack(run, result, configuration, begun, finished);
    var read := Rebuild(Stored(run, result, configuration, begun, finished)).value.result;
    AnalysisReadsBack(rules, game, budget, started, replay, tape, result, requests, read);
    ReferencesKept(result, read, |game.moves|);
  }

  /** What of that can be delivered. */
  lemma TaleDelivers(rules: Rules, moves: seq<Uci>, replay: seq<ReplayPosition>, snapshot: Snapshot,
                     policy: Thresholds, scale: int)
    requires Walks(rules, moves, replay) && TellsGame(moves, replay, snapshot.analysis.result)
    requires snapshot.game == snapshot.analysis.result.game && policy.Valid() && scale >= 1
    ensures var unified := Compose(policy, scale, snapshot);
            && ValidSnapshot(snapshot.analysis) && unified.Ok?
            && (Mappable(rules, unified.value)
                <==> Deliverable(rules, moves, replay, References(snapshot.analysis.result.moves)))
  {
    GameComposes(rules, moves, replay, snapshot, policy, scale);
    var u := Compose(policy, scale, snapshot).value;
    MappableExactly(rules, moves, replay, u);
    assert Mappable(rules, u) <==> Deliverable(rules, moves, replay, References(snapshot.analysis.result.moves));
  }

  /**
   From engine to delivery: a COMPLETE analysis with well-formed engine output is stored,
   read back and composed without an exception. Whatever position the game started from, it
   is deliverable exactly when its moves, with their notation and their movers, and the
   engine's best moves are also those of a game from the standard position.
   */
  lemma AnalyzedGameDelivers(rules: Rules, game: GameInput, budget: Budget, started: int, replay: seq<ReplayPosition>,
                             tape: seq<Turn>, result: AnalysisResult, requests: seq<Request>,
                             run: RunId, configuration: Configuration, begun: int, finished: int, owner: UserId,
                             policy: Thresholds, scale: int)
    requires Replays(rules, game, replay) && |replay| <= |tape|
    requires Analyses(game, budget, started, replay, tape, result, requests) && result.complete
    requires CleanReplies(tape, |replay|) && policy.Valid() && scale >= 1
    ensures var read := Rebuild(Stored(run, result, configuration, begun, finished));
            && read.Ok? && ValidSnapshot(read.value)
            && var unified := Compose(policy, scale, Snapshot(game.game, owner, read.value));
            && unified.Ok?
            && |result.positions| == |replay|
            && (Mappable(rules, unified.value)
                <==> Deliverable(rules, game.moves, replay, BestMoves(result.positions, |game.moves|)))
  {
    ReplaysWalk(rules, game, replay);
    AnalysisTells(rules, game, budget, started, replay, tape, result, requests, run, configuration, begun, finished);
    var read := Rebuild(Stored(run, result, configuration, begun, finished)).value;
    TaleDelivers(rules, game.moves, replay, Snapshot(game.game, owner, read), policy, scale);
  }

  // ---------------------------------------------------------------- games that cannot be delivered

  /** On the standard board only move 1 is legal, on the other two, one for each side to move, only move 2. */
  const SMALL_RULES := Rules(
    Board(White, 0),
    (fen: nat) => Some(Board(if fen == 0 then White else Black, 1)),
    (board: Board, move: nat) => move == board.rest + 1,
    (board: Board, move: nat) => 1,
    (board: Board, move: nat) => 0)

  const SMALL_BUDGET := Budget(1, 1, 1, 2, 1)

  function CustomGame(side: Color): GameInput {
    GameInput(0, FINISHED, true, Some(if side == White then 0 else 1), [Move(2)])
  }

  function CustomReplay(side: Color): seq<ReplayPosition> {
    [ReplayPosition(0, Board(side, 1), None, None), ReplayPosition(1, Board(side.Other(), 1), Some(Move(2)), Some(0))]
  }

  function BestIsTwo(ply: nat): Turn {
    Turn(0, Ok(Reply(PositionId(0, ply), Centipawns(0), Move(2), [Move(2)], Some(1), None, None, "engine", None)))
  }

  function CustomTape(): (tape: seq<Turn>)
    ensures |tape| == 2 && tape[0].reply.Ok? && tape[1].reply.Ok?
  {
    [BestIsTwo(0), BestIsTwo(1)]
  }

  function CustomResult(side: Color): AnalysisResult {
    var before := Evaluate(CustomReplay(side)[0], BestIsTwo(0).reply.value);
    var after := Evaluate(CustomReplay(side)[1], BestIsTwo(1).reply.value);
    AnalysisResult(0, true, [before, after], [MoveEvaluation(1, Move(2), 0, before, after)],
                   Checkpoint(1, 2, 1, 2, Some(1)), Some("engine"), None, None)
  }

  function CustomRequests(side: Color): seq<Request> {
    [Request(0, PositionId(0, 0), CustomReplay(side)[0].board, 1, 1),
     Request(0, PositionId(0, 1), CustomReplay(side)[1].board, 1, 1)]
  }

  lemma CustomReplays(side: Color)
    ensures Replays(SMALL_RULES, CustomGame(side), CustomReplay(side))
  {
    var start, moves := Board(side, 1), CustomGame(side).moves;
    assert BoardAfter(SMALL_RULES, start, moves, 0) == start;
    assert PositionAt(SMALL_RULES, start, moves, 0) == CustomReplay(side)[0];
    assert PositionAt(SMALL_RULES, start, moves, 1) == CustomReplay(side)[1];
  }

  lemma CustomPrefix(side: Color)
    ensures EvaluatedPrefix(CustomReplay(side), CustomTape(), 2, CustomResult(side).positions)
    ensures LinkedMoves(CustomReplay(side), CustomResult(side).positions, CustomResult(side).moves)
  {
  }

  lemma CustomGrants(side: Color)
    ensures Granted(CustomGame(side), SMALL_BUDGET, 0, CustomReplay(side), CustomTape(),
                    CustomRequests(side))
  {
  }

  lemma CustomSummary(side: Color)
    ensures var replay, tape, result := CustomReplay(side), CustomTape(), CustomResult(side);
            && |result.positions| == 2 == |replay| && |CustomRequests(side)| == 2
            && Survives(SMALL_BUDGET, 0, tape[0]) && Survives(SMALL_BUDGET, 0, tape[1])
            && result.game == CustomGame(side).game && result.complete && result.failure == None
            && Counts(result.checkpoint, 2, |result.moves|, result.positions)
            && Names(result.engineName, result.engineVersion, tape, 2)
  {
  }

  lemma CustomAnalyses(side: Color)
    ensures Analyses(CustomGame(side), SMALL_BUDGET, 0, CustomReplay(side), CustomTape(),
                     CustomResult(side), CustomRequests(side))
  {
    CustomPrefix(side);
    CustomGrants(side);
    CustomSummary(side);
  }

  lemma CustomUndeliverable(side: Color)
    ensures !Deliverable(SMALL_RULES, CustomGame(side).moves, CustomReplay(side),
                         BestMoves(CustomResult(side).positions, 1))
  {
    var board := BoardAfter(SMALL_RULES, SMALL_RULES.start, CustomGame(side).moves, 0);
    assert board == Board(White, 0) && !PlayableOn(SMALL_RULES, board, Move(2));
    assert !DeliverableAt(SMALL_RULES, CustomGame(side).moves, CustomReplay(side), 0,
                          BestMoves(CustomResult(side).positions, 1)[0]);
  }

  /**
   The input that fails: a game of one legal move from another position than the standard
   one, analysed completely and with sensible engine output. Whichever side moves first, it
   is stored, read back and composed, and cannot be delivered: with Black the mover check
   fails, with White the legality of the move.
   */
  lemma CustomStartExample(side: Color, run: RunId, configuration: Configuration, begun: int, finished: int,
                           owner: UserId, policy: Thresholds, scale: int)
    requires policy.Valid() && scale >= 1
    ensures Replays(SMALL_RULES, CustomGame(side), CustomReplay(side)) && CustomReplay(side)[0].board.turn == side
    ensures Analyses(CustomGame(side), SMALL_BUDGET, 0, CustomReplay(side), CustomTape(),
                     CustomResult(side), CustomRequests(side))
    ensures CustomResult(side).complete && CleanReplies(CustomTape(), 2)
    ensures var read := Rebuild(Stored(run, CustomResult(side), configuration, begun, finished));
            && read.Ok?
            && var unified := Compose(policy, scale, Snapshot(CustomGame(side).game, owner, read.value));
            && unified.Ok? && !Mappable(SMALL_RULES, unified.value)
  {
    CustomReplays(side);
    CustomAnalyses(side);
    CustomUndeliverable(side);
    AnalyzedGameDelivers(SMALL_RULES, CustomGame(side), SMALL_BUDGET, 0, CustomReplay(side),
                         CustomTape(), CustomResult(side), CustomRequests(side),
                         run, configuration, begun, finished, owner, policy, scale);
  }

  // ---------------------------------------------------------------- reading once

  datatype Loaded = Loaded(run: RunId, response: Response)

  /** `read_for_owner` up to the mapping: what it would hand out, or why it does not. */
  function LoadRecord(rules: Rules, policy: Thresholds, scale: int, r: Record, user: UserId): Result<Loaded, Answer>
    requires scale >= 1
  {
    var job := r.entry.job;
    if r.game.owner != user || r.game.status != ANALYSIS_AVAILABLE || !r.game.verified then Err(NotFound)
    else if job.status != SUCCEEDED || job.generation !in r.runs || !r.runs[job.generation].run.complete
    then Err(Unavailable)
    else
      var read := Rebuild(r.runs[job.generation]);
      if read.Err? || read.value.run != RunId(r.id, job.generation) || read.value.result.game != r.game.game
         || !ValidSnapshot(read.value) then Err(Unavailable)
      else
        var u := Compose(policy, scale, Snapshot(r.game.game, user, read.value));
        if u.Err? then Err(Crashed)
        else if !Mappable(rules, u.value) then Err(Unavailable)
        else Ok(Loaded(RunId(r.id, job.generation), ResponseOf(rules, u.value)))
  }

  /** The row passes the query that opens the request: this user's game, available, its completion verified. */
  predicate IsOwners(game: GameRow, user: UserId) {
    game.owner == user && game.status == ANALYSIS_AVAILABLE && game.verified
  }

  predicate Released(games: map<GameId, GameRow>, game: GameId, user: UserId) {
    game in games && IsOwners(games[game], user)
  }

  /** The reading part of `read_for_owner`, and the job it found for the game; it writes nothing. */
  method LoadForOwner(results: R.Results, table: Table, rules: Rules, policy: Thresholds, scale: int,
                      game: GameId, user: UserId)
    returns (loaded: Result<Loaded, Answer>, job: Option<JobId>)
    requires results.Valid(table) && scale >= 1
    ensures job.Some? ==>
              && job.value in results.View(table) && results.View(table)[job.value].game.game == game
              && loaded == LoadRecord(rules, policy, scale, results.View(table)[job.value], user)
    ensures job.None? ==> loaded.Err? && !loaded.error.Delivered?
    ensures loaded.Ok? ==> Released(results.tables.games, game, user)
    ensures !Released(results.tables.games, game, user) ==> loaded == Err(NotFound)
    ensures (exists id :: id in results.View(table) && results.View(table)[id].game.game == game) ==> job.Some?
  {
    job := None;
    if game !in results.tables.games {
      return Err(NotFound), None;
    }
    var row := results.tables.games[game];
    var current := results.JobFor(game);
    if current.None? || current.value !in table.jobs {
      return Err(if row.owner != user || row.status != ANALYSIS_AVAILABLE || !row.verified then NotFound
                 else Unavailable), None;
    }
    var id := current.value;
    job := Some(id);
    if row.owner != user || row.status != ANALYSIS_AVAILABLE || !row.verified {
      return Err(NotFound), job;
    }
    var g := table.jobs[id].generation;
    var runs := R.RunsOf(results.tables, id);
    if table.jobs[id].status != SUCCEEDED || g !in runs || !runs[g].run.complete {
      return Err(Unavailable), job;
    }
    var read := ReadGeneration(runs[g]);
    if read.Err? || read.value.run != RunId(id, g) || read.value.result.game != game || !ValidSnapshot(read.value) {
      return Err(Unavailable), job;
    }
    var unified := Compose(policy, scale, Snapshot(game, user, read.value));
    if unified.Err? {
      return Err(Crashed), job;
    }
    var response := MapPublicAnalysis(rules, unified.value);
    if response.None? {
      return Err(Unavailable), job;
    }
    return Ok(Loaded(RunId(id, g), response.value)), job;
  }

  /** The run is gone, with its rows, and the game is locked again. */
  ghost predicate Consumed(t: R.Tables, run: RunId, game: GameId) {
    && run.generation !in R.RunRows(t, run.job) && run !in t.positions && run !in t.moves
    && game in t.games && t.games[game].status == FINISHED && t.games[game].availableAt.None?
  }

  /** The rest of it: another request may have consumed the run since it was read, and then nothing is handed out. */
  method HandOut(results: R.Results, table: Table, loaded: Loaded, game: GameId) returns (answer: Answer)
    requires results.Valid(table)
    modifies results
    ensures results.Valid(table)
    ensures var all := old(results.View(table));
            if loaded.run.job !in all || all[loaded.run.job].game.game != game
            then answer == NotFound && results.View(table) == all
            else var (r, deleted) := ConsumeRun(all[loaded.run.job], loaded.run.generation);
                 && answer == (if deleted then Delivered(loaded.response) else NotFound)
                 && results.View(table) == all[loaded.run.job := r]
    ensures !answer.Delivered? ==> answer == NotFound && results.tables == old(results.tables)
    ensures answer.Delivered? ==> Consumed(results.tables, loaded.run, game)
  {
    var consumed := results.ConsumePublicGeneration(table, loaded.run, game);
    return if consumed then Delivered(loaded.response) else NotFound;
  }

  /** What becomes of the record, and of the request, once it is known what it loaded. */
  function AfterLoading(r: Record, loaded: Result<Loaded, Answer>): (Record, Answer) {
    match loaded
    case Err(answer) => (r, answer)
    case Ok(content) => (ConsumeRun(r, content.run.generation).0, Delivered(content.response))
  }

  /** `read_for_owner` on the record of a game, with nothing in between. */
  function DeliverRecord(rules: Rules, policy: Thresholds, scale: int, r: Record, user: UserId): (Record, Answer)
    requires scale >= 1
  {
    AfterLoading(r, LoadRecord(rules, policy, scale, r, user))
  }

  /** The end of `read_for_owner` right after its reading part. */
  method FinishReading(results: R.Results, table: Table, loaded: Result<Loaded, Answer>, game: GameId,
                       ghost job: Option<JobId>)
    returns (answer: Answer)
    requires results.Valid(table)
    requires job.Some? ==> job.value in results.View(table) && results.View(table)[job.value].game.game == game
    requires job.Some? && loaded.Ok? ==>
               && loaded.value.run.job == job.value
               && loaded.value.run.generation in results.View(table)[job.value].runs
    requires job.None? ==> loaded.Err?
    modifies results
    ensures results.Valid(table)
    ensures job.Some? ==>
              var (r, expected) := AfterLoading(old(results.View(table))[job.value], loaded);
              answer == expected && results.View(table) == old(results.View(table))[job.value := r]
    ensures job.None? ==> answer == loaded.error && results.View(table) == old(results.View(table))
    ensures loaded.Err? ==> answer == loaded.error && results.tables == old(results.tables)
    ensures loaded.Ok? && answer.Delivered? ==> Consumed(results.tables, loaded.value.run, game)
  {
    if loaded.Err? {
      if job.Some? {
        UpdateSame(results.View(table), job.value);
      }
      return loaded.error;
    }
    answer := HandOut(results, table, loaded.value, game);
  }

  /** `read_for_owner`, uninterrupted. */
  method ReadForOwner(results: R.Results, table: Table, rules: Rules, policy: Thresholds, scale: int,
                      game: GameId, user: UserId)
    returns (answer: Answer, ghost job: Option<JobId>)
    requires results.Valid(table) && scale >= 1
    modifies results
    ensures results.Valid(table)
    ensures job.Some? ==> job.value in old(results.View(table)) && old(results.View(table))[job.value].game.game == game
    ensures job.Some? ==>
              var (r, expected) := DeliverRecord(rules, policy, scale, old(results.View(table))[job.value], user);
              answer == expected && results.View(table) == old(results.View(table))[job.value := r]
    ensures job.None? ==> !answer.Delivered? && results.View(table) == old(results.View(table))
    ensures answer.Delivered? ==>
              var games := old(results.tables.games);
              && game in games && games[game].owner == user
              && games[game].status == ANALYSIS_AVAILABLE && games[game].verified
    ensures !Released(old(results.tables.games), game, user) ==>
              answer == NotFound && results.View(table) == old(results.View(table))
    ensures !answer.Delivered? ==> results.tables == old(results.tables)
    ensures answer.Delivered? ==> job.Some? && exists g :: Consumed(results.tables, RunId(job.value, g), game)
    ensures (exists id :: id in old(results.View(table)) && old(results.View(table))[id].game.game == game) ==>
              job.Some?
  {
    var loaded, found := LoadForOwner(results, table, rules, policy, scale, game, user);
    job := found;
    if job.Some? {
      RecordsKeyed(results, table, job.value);
      LoadedShape(rules, policy, scale, results.View(table)[job.value], user);
    }
    answer := FinishReading(results, table, loaded, game, job);
  }

  lemma RecordsKeyed(results: R.Results, table: Table, id: JobId)
    requires id in results.View(table)
    ensures results.View(table)[id].id == id
  {
  }

  lemma LoadedShape(rules: Rules, policy: Thresholds, scale: int, r: Record, user: UserId)
    requires scale >= 1
    ensures var loaded := LoadRecord(rules, policy, scale, r, user);
            if loaded.Ok?
            then r.game.owner == user && r.game.status == ANALYSIS_AVAILABLE && r.game.verified
                 && r.entry.job.generation in r.runs
                 && loaded.value.run == RunId(r.id, r.entry.job.generation)
            else !loaded.error.Delivered?
  {
  }

  /** The run of the job's generation rebuilds as one of this game, is valid, composes and maps. */
  ghost predicate Presentable(rules: Rules, policy: Thresholds, scale: int, r: Record, user: UserId)
    requires scale >= 1 && r.entry.job.generation in r.runs
  {
    var read := Rebuild(r.runs[r.entry.job.generation]);
    && read.Ok? && read.value.result.game == r.game.game && ValidSnapshot(read.value)
    && Compose(policy, scale, Snapshot(r.game.game, user, read.value)).Ok?
    && Mappable(rules, Compose(policy, scale, Snapshot(r.game.game, user, read.value)).value)
  }

  lemma RebuildsItself(stored: StoredRun)
    requires Rebuild(stored).Ok?
    ensures Rebuild(stored).value.run == stored.run.id
  {
  }

  /** What is stored under its own id is loaded exactly if it is presentable. */
  lemma LoadsPresentable(rules: Rules, policy: Thresholds, scale: int, r: Record, user: UserId)
    requires scale >= 1 && IsOwners(r.game, user) && r.entry.job.status == SUCCEEDED
    requires r.entry.job.generation in r.runs && r.runs[r.entry.job.generation].run.complete
    requires r.runs[r.entry.job.generation].run.id == RunId(r.id, r.entry.job.generation)
    ensures var loaded := LoadRecord(rules, policy, scale, r, user);
            && (loaded.Ok? <==> Presentable(rules, policy, scale, r, user))
            && (loaded.Err? ==> loaded.error == Unavailable || loaded.error == Crashed)
  {
    if Rebuild(r.runs[r.entry.job.generation]).Ok? {
      RebuildsItself(r.runs[r.entry.job.generation]);
    }
  }

  lemma AvailableRun(s: State)
    requires Release.Inv(s) && s.record.game.status == ANALYSIS_AVAILABLE
    ensures var r := s.record;
            && r.entry.job.status == SUCCEEDED && r.entry.job.generation in r.runs
            && r.runs[r.entry.job.generation].run.complete
            && r.runs[r.entry.job.generation].run.id == RunId(r.id, r.entry.job.generation)
  {
  }

  /**
   In every reachable history the owner of an available verified game is served exactly if
   its run is presentable, and nobody else is ever told of the game.
   */
  lemma ServedExactly(s: State, rules: Rules, policy: Thresholds, scale: int, user: UserId)
    requires Release.Inv(s) && scale >= 1
    ensures IsOwners(s.record.game, user) ==> s.record.entry.job.generation in s.record.runs
    ensures var (r', answer) := DeliverRecord(rules, policy, scale, s.record, user);
            && (answer.Delivered? <==>
                  IsOwners(s.record.game, user) && Presentable(rules, policy, scale, s.record, user))
            && (answer.NotFound? <==> !IsOwners(s.record.game, user))
            && (!answer.Delivered? ==> r' == s.record)
  {
    if IsOwners(s.record.game, user) {
      AvailableRun(s);
      LoadsPresentable(rules, policy, scale, s.record, user);
    }
  }

  /** The run a finalization publishes is the stored result. */
  lemma PublishedRun(r: Record, w: Write)
    requires FinalizeRecord(r, w).1.Published?
    ensures var r' := FinalizeRecord(r, w).0;
            && w.generation in r'.runs
            && r'.runs[w.generation]
               == Stored(RunId(r.id, w.generation), w.result, w.configuration, w.started, w.finished)
  {
    PublishedSteps(r, w);
    ReleasedSteps(Replace(r, w).value, w);
  }

  lemma PublishedGameIs(r: Record, w: Write)
    requires FinalizeRecord(r, w).1.Published?
    ensures var game := FinalizeRecord(r, w).0.game;
            && game.game == r.game.game && game.owner == r.game.owner
            && game.status == ANALYSIS_AVAILABLE && game.verified
  {
    PublishedSteps(r, w);
    ReleasedSteps(Replace(r, w).value, w);
  }

  lemma PublishedTo(r: Record, w: Write)
    requires FinalizeRecord(r, w).1.Published?
    ensures var r' := FinalizeRecord(r, w).0;
            && r'.id == r.id && r'.entry.job.generation == w.generation && r'.game.game == r.game.game
            && (forall user :: IsOwners(r'.game, user) <==> user == r.game.owner)
  {
    PublishedRecord(r, w);
    PublishedGameIs(r, w);
  }

  /**
   From the engine to the owner: once the analysis of the stored game is published, its owner
   is served exactly if the game, move by move, and the engine's best moves are also those of
   a game from the standard position, and any other user is told there is no such analysis.
   */
  lemma OwnerIsServed(s: State, w: Write, rules: Rules, budget: Budget, started: int, replay: seq<ReplayPosition>,
                      tape: seq<Turn>, requests: seq<Request>, policy: Thresholds, scale: int, user: UserId)
    requires Release.Inv(s) && FinalizeRecord(s.record, w).1.Published?
    requires Replays(rules, StoredInput(s.record.game), replay) && |replay| <= |tape| && CleanReplies(tape, |replay|)
    requires Analyses(StoredInput(s.record.game), budget, started, replay, tape, w.result, requests)
    requires w.result.complete && policy.Valid() && scale >= 1
    ensures var moves := StoredInput(s.record.game).moves;
            var answer := DeliverRecord(rules, policy, scale, TakeAct(s, Finalize(w)).record, user).1;
            && |w.result.positions| == |moves| + 1
            && (user != s.record.game.owner ==> answer.NotFound?)
            && (user == s.record.game.owner ==>
                  (answer.Delivered? <==> Deliverable(rules, moves, replay, BestMoves(w.result.positions, |moves|))))
  {
    var t := TakeAct(s, Finalize(w));
    FinalizeInv(s, w);
    FinalizeIsAct(s, w);
    PublishedTo(s.record, w);
    PublishedRun(s.record, w);
    ServedExactly(t, rules, policy, scale, user);
    if user == s.record.game.owner {
      PresentableExactly(t.record, w, rules, StoredInput(s.record.game), budget, started, replay, tape, requests,
                         policy, scale, user);
    }
  }

  lemma PresentableExactly(r: Record, w: Write, rules: Rules, input: GameInput, budget: Budget, started: int,
                           replay: seq<ReplayPosition>, tape: seq<Turn>, requests: seq<Request>,
                           policy: Thresholds, scale: int, user: UserId)
    requires r.entry.job.generation == w.generation && w.generation in r.runs && r.game.game == input.game
    requires r.runs[w.generation]
             == Stored(RunId(r.id, w.generation), w.result, w.configuration, w.started, w.finished)
    requires Replays(rules, input, replay) && |replay| <= |tape| && CleanReplies(tape, |replay|)
    requires Analyses(input, budget, started, replay, tape, w.result, requests)
    requires w.result.complete && policy.Valid() && scale >= 1
    ensures |w.result.positions| == |replay| == |input.moves| + 1
    ensures Presentable(rules, policy, scale, r, user)
            <==> Deliverable(rules, input.moves, replay, BestMoves(w.result.positions, |input.moves|))
  {
    ReplaysWalk(rules, input, replay);
    AnalysisTells(rules, input, budget, started, replay, tape, w.result, requests,
                  RunId(r.id, w.generation), w.configuration, w.started, w.finished);
    AnalyzedGameDelivers(rules, input, budget, started, replay, tape, w.result, requests,
                         RunId(r.id, w.generation), w.configuration, w.started, w.finished, user, policy, scale);
  }

  /**
   A delivery is a load followed by the consumption of what was loaded, so the release law
   covers it: it can happen once, and what it hands out is what finalization published.
   */
  lemma DeliveryIsARun(s: State, rules: Rules, policy: Thresholds, scale: int, user: UserId)
    requires Release.Inv(s) && scale >= 1
    ensures DeliverRecord(rules, policy, scale, s.record, user).1.Delivered? ==>
            var g := s.record.entry.job.generation;
            && g in s.record.runs && s.released == Some(s.record.runs[g])
            && var s' := RunActs(s, [Load, Consume(g, s.record.runs[g])]);
            && s'.record == DeliverRecord(rules, policy, scale, s.record, user).0
            && s.delivered == [] && s'.delivered == [s.record.runs[g]]
            && !DeliverRecord(rules, policy, scale, s'.record, user).1.Delivered?
  {
    LoadedShape(rules, policy, scale, s.record, user);
    if LoadRecord(rules, policy, scale, s.record, user).Ok? {
      LoadThenConsume(s);
    }
  }

  /**
   Whatever transactions come between reading and consuming, other readers among them: the
   response is handed out exactly when nobody else was served, from rows that are still the
   ones it was made of.
   */
  lemma InterruptedDelivery(s: State, acts: seq<Act>, rules: Rules, policy: Thresholds, scale: int, user: UserId)
    requires Release.Inv(s) && scale >= 1 && LoadRecord(rules, policy, scale, s.record, user).Ok?
    ensures var g := LoadRecord(rules, policy, scale, s.record, user).value.run.generation;
            && g in s.record.runs
            && var t := RunActs(TakeAct(s, Load), acts);
            && (ConsumeRun(t.record, g).1 <==> t.delivered == [])
            && (ConsumeRun(t.record, g).1 ==>
                  && t.record.runs[g] == s.record.runs[g]
                  && TakeAct(t, Consume(g, s.record.runs[g])).record == ConsumeRun(t.record, g).0
                  && TakeAct(t, Consume(g, s.record.runs[g])).delivered == [s.record.runs[g]])
  {
    LoadedShape(rules, policy, scale, s.record, user);
    LoadedIsServedOnce(s, acts);
  }
}
