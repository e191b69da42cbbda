/** Centipawn loss of each move from the scores around it, as `analysis/move_metrics.py` derives it. */
module MoveMetrics {
  import opened Common
  import opened Chess
  import opened FullGame
  import opened Persistence

  datatype Snapshot = Snapshot(game: GameId, owner: UserId, analysis: PersistedAnalysis)

  /** A score from the mover's point of view. */
  datatype Normalized = CentipawnScore(centipawns: int) | MateScore(mateIn: int) | MissingScore {
    function Mate(): Option<int> {
      if MateScore? then Some(mateIn) else None
    }
  }

  datatype MetricOutcome = CENTIPAWN_LOSS | MATE_TO_MATE | CENTIPAWN_TO_MATE | MATE_TO_CENTIPAWN | MISSING_SCORE

  datatype MetricInput = MetricInput(
    ply: int, uci: Uci, san: nat, reference: Option<Uci>, mover: Color, beforeSide: Color, afterSide: Color,
    beforeScore: Option<Score>, afterScore: Option<Score>, afterTerminal: bool)

  datatype Metric = Metric(
    ply: int, uci: Uci, san: nat, reference: Option<Uci>, mover: Color, before: Normalized, after: Normalized,
    outcome: MetricOutcome, delta: Option<int>, rawLoss: Option<int>, loss: Option<int>, clamped: bool,
    afterTerminal: bool)

  datatype MetricError = GameMismatch | BadPly | NotMoversTurn | SideUnchanged

  /** `_normalize` */
  function Normalize(score: Option<Score>, side: Color, mover: Color): Normalized {
    var multiplier := if side == mover then 1 else -1;
    match score
    case None => MissingScore
    case Some(Centipawns(c)) => CentipawnScore(c * multiplier)
    case Some(MateIn(m)) => MateScore(m * multiplier)
  }

  /** `_outcome` */
  function OutcomeOf(before: Normalized, after: Normalized): MetricOutcome {
    if before.MissingScore? || after.MissingScore? then MISSING_SCORE
    else if before.CentipawnScore? && after.CentipawnScore? then CENTIPAWN_LOSS
    else if before.MateScore? && after.MateScore? then MATE_TO_MATE
    else if before.CentipawnScore? then CENTIPAWN_TO_MATE
    else MATE_TO_CENTIPAWN
  }

  /** `derive_move_metric` */
  function DeriveMetric(v: MetricInput): Result<Metric, MetricError> {
    if v.ply < 1 then Err(BadPly)
    else if v.beforeSide != v.mover then Err(NotMoversTurn)
    else if v.afterSide == v.mover then Err(SideUnchanged)
    else
      var before := Normalize(v.beforeScore, v.beforeSide, v.mover);
      var after := Normalize(v.afterScore, v.afterSide, v.mover);
      var plain := Metric(v.ply, v.uci, v.san, v.reference, v.mover, before, after, OutcomeOf(before, after),
                          None, None, None, false, v.afterTerminal);
      if plain.outcome != CENTIPAWN_LOSS then Ok(plain) else
      var delta := after.centipawns - before.centipawns;
      Ok(plain.(delta := Some(delta), rawLoss := Some(-delta), loss := Some(Max(0, -delta)), clamped := -delta < 0))
  }

  function InputOf(move: PersistedMove): MetricInput {
    MetricInput(move.ply, move.uci, move.san, Some(move.before.best), move.before.side, move.before.side,
                move.after.side, Some(move.before.score), Some(move.after.score), move.after.best == NULL_MOVE)
  }

  /** The comprehension of `derive`: the first move that fails decides. */
  function DeriveMoves(moves: seq<PersistedMove>): Result<seq<Metric>, MetricError> {
    if moves == [] then Ok([]) else
    var first := DeriveMetric(InputOf(moves[0]));
    if first.Err? then Err(first.error) else
    var rest := DeriveMoves(moves[1..]);
    if rest.Err? then rest else Ok([first.value] + rest.value)
  }

  /** `MoveMetricDerivationService.derive` */
  function Derive(snapshot: Snapshot): Result<seq<Metric>, MetricError> {
    if snapshot.game != snapshot.analysis.result.game then Err(GameMismatch)
    else DeriveMoves(snapshot.analysis.result.moves)
  }

  /** The move passes the turn. */
  predicate PassesTurn(move: PersistedMove) {
    move.after.side == move.before.side.Other()
  }

  /** Deriving succeeds exactly for positive plies whose moves pass the turn, one metric per move. */
  lemma {:induction false} DerivesExactly(moves: seq<PersistedMove>)
    ensures DeriveMoves(moves).Ok? <==> forall m :: m in moves ==> m.ply >= 1 && PassesTurn(m)
    ensures DeriveMoves(moves).Ok? ==>
              && |DeriveMoves(moves).value| == |moves|
              && forall k :: 0 <= k < |moves| ==> DeriveMetric(InputOf(moves[k])) == Ok(DeriveMoves(moves).value[k])
  {
    if moves != [] {
      DerivesExactly(moves[1..]);
      assert moves[0] in moves;
      assert forall m :: m in moves <==> m == moves[0] || m in moves[1..];
    }
  }

  /** What every derived metric satisfies: losses exist exactly between centipawn scores, and clamping is at zero. */
  predicate Coherent(metric: Metric) {
    && metric.outcome == OutcomeOf(metric.before, metric.after)
    && metric.reference.Some?
    && if metric.outcome == CENTIPAWN_LOSS
       then && metric.delta == Some(metric.after.centipawns - metric.before.centipawns)
            && metric.rawLoss == Some(metric.before.centipawns - metric.after.centipawns)
            && metric.loss == Some(Max(0, metric.rawLoss.value))
            && (metric.clamped <==> metric.loss.value > metric.rawLoss.value)
       else metric.delta == None && metric.rawLoss == None && metric.loss == None && !metric.clamped
  }

  /** The score as the side it was computed for sees it, or as the other side does. */
  function SeenBy(score: Score, own: bool): Normalized {
    match score
    case Centipawns(c) => CentipawnScore(if own then c else -c)
    case MateIn(m) => MateScore(if own then m else -m)
  }

  /** A derived metric is coherent and sees both positions as the mover does; a null move marks a terminal one. */
  lemma DerivedCoherent(move: PersistedMove)
    requires DeriveMetric(InputOf(move)).Ok?
    ensures var metric := DeriveMetric(InputOf(move)).value;
            && Coherent(metric)
            && metric.mover == move.before.side
            && metric.before == SeenBy(move.before.score, true) && metric.after == SeenBy(move.after.score, false)
            && metric.reference == Some(move.before.best)
            && (metric.afterTerminal <==> move.after.best == NULL_MOVE)
            && metric.ply == move.ply && metric.uci == move.uci && metric.san == move.san
    ensures var metric, before, after := DeriveMetric(InputOf(move)).value, move.before.score, move.after.score;
            && (metric.outcome == CENTIPAWN_LOSS <==> before.Centipawns? && after.Centipawns?)
            && (metric.outcome == CENTIPAWN_TO_MATE <==> before.Centipawns? && after.MateIn?)
            && (metric.outcome == MATE_TO_CENTIPAWN <==> before.MateIn? && after.Centipawns?)
            && (metric.outcome == MATE_TO_MATE <==> before.MateIn? && after.MateIn?)
            && (metric.loss.Some? <==> before.Centipawns? && after.Centipawns?)
            && (metric.loss.Some? ==>
                  metric.loss.value == if before.centipawns + after.centipawns > 0
                                       then before.centipawns + after.centipawns else 0)
  {
  }

  // ---------------------------------------------------------------- conservation

  /** The evaluation of a position from White's point of view. */
  function WhiteView(position: PersistedPosition): int
    requires position.score.Centipawns?
  {
    if position.side == White then position.score.centipawns else -position.score.centipawns
  }

  function RawLoss(metrics: seq<Metric>, color: Color): int {
    if metrics == [] then 0 else
    (if metrics[0].mover == color && metrics[0].rawLoss.Some? then metrics[0].rawLoss.value else 0)
    + RawLoss(metrics[1..], color)
  }

  /** Each move starts at the position the one before it reached. */
  predicate Continuous(moves: seq<PersistedMove>) {
    forall k :: 0 < k < |moves| ==> moves[k].before == moves[k - 1].after
  }

  predicate AllCentipawns(moves: seq<PersistedMove>) {
    forall k :: 0 <= k < |moves| ==> moves[k].before.score.Centipawns? && moves[k].after.score.Centipawns?
  }

  lemma OneMoveShifts(move: PersistedMove)
    requires DeriveMetric(InputOf(move)).Ok? && move.before.score.Centipawns? && move.after.score.Centipawns?
    ensures var metric := DeriveMetric(InputOf(move)).value;
            && metric.rawLoss.Some?
            && metric.rawLoss.value
               == (if metric.mover == White then 1 else -1) * (WhiteView(move.before) - WhiteView(move.after))
  {
  }

  /**
   Conservation: over a continuous game scored in centipawns throughout, White's raw losses
   minus Black's are exactly what the evaluation fell by in White's view.
   */
  lemma {:induction false} Telescopes(moves: seq<PersistedMove>)
    requires moves != [] && Continuous(moves) && AllCentipawns(moves) && DeriveMoves(moves).Ok?
    ensures var metrics := DeriveMoves(moves).value;
            RawLoss(metrics, White) - RawLoss(metrics, Black)
            == WhiteView(moves[0].before) - WhiteView(moves[|moves| - 1].after)
  {
    OneMoveShifts(moves[0]);
    assert DeriveMoves(moves).value[1..] == DeriveMoves(moves[1..]).value;
    if |moves| > 1 {
      assert moves[1].before == moves[0].after;
      assert forall k :: 0 < k < |moves[1..]| ==> moves[1..][k] == moves[k + 1];
      Telescopes(moves[1..]);
    } else {
      assert moves[1..] == [];
    }
  }
}
