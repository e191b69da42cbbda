/** Move qualities, as `analysis/move_classification.py` assigns them, against a policy stated by standings. */
module MoveClassification {
  import opened Common
  import opened Chess
  import opened MoveMetrics

  datatype Quality = BEST | EXCELLENT | GOOD | INACCURACY | MISTAKE | BLUNDER | UNCLASSIFIED

  datatype Reason =
    | FORCED_WIN_CREATED | FORCED_WIN_LOST | FORCED_LOSS_ENTERED | FORCED_LOSS_ESCAPED
    | MATE_POLARITY_FLIPPED_TO_WIN | MATE_POLARITY_FLIPPED_TO_LOSS
    | FORCED_WIN_PRESERVED | FORCED_LOSS_UNRESOLVED
    | BEST_MOVE_EQUALITY | CENTIPAWN_THRESHOLD | SCORE_UNCLASSIFIED | MATE_POLARITY_UNCLASSIFIED

  datatype ClassificationError = InvalidUci | InconsistentFields | MissingLoss | BypassedPrecedence | NegativeLoss

  datatype Classified = Classified(metric: Metric, quality: Quality, reason: Reason, bestMove: bool)

  datatype Thresholds = Thresholds(excellentMax: int, goodMax: int, inaccuracyMax: int, mistakeMax: int) {
    predicate Valid() {
      0 <= excellentMax < goodMax < inaccuracyMax < mistakeMax
    }

    /** `CentipawnLossThresholdPolicy.classify` */
    function Classify(loss: int): Result<Quality, ClassificationError> {
      if loss < 0 then Err(NegativeLoss)
      else if loss <= excellentMax then Ok(EXCELLENT)
      else if loss <= goodMax then Ok(GOOD)
      else if loss <= inaccuracyMax then Ok(INACCURACY)
      else if loss <= mistakeMax then Ok(MISTAKE)
      else Ok(BLUNDER)
    }
  }

  /** `_best_move_equal` */
  function BestMoveEqual(metric: Metric): Result<bool, ClassificationError> {
    if metric.reference.None? then Ok(false)
    else if metric.uci.Malformed? || metric.reference.value.Malformed? then Err(InvalidUci)
    else Ok(metric.uci == metric.reference.value)
  }

  function Rewarded(best: bool): Quality {
    if best then BEST else EXCELLENT
  }

  /** `_mate_precedence` */
  function MatePrecedence(metric: Metric, best: bool): Option<(Quality, Reason)> {
    var before, after := metric.before.Mate(), metric.after.Mate();
    match metric.outcome
    case CENTIPAWN_TO_MATE =>
      if after.None? || after.value == 0 then Some((UNCLASSIFIED, MATE_POLARITY_UNCLASSIFIED))
      else if after.value > 0 then Some((Rewarded(best), FORCED_WIN_CREATED))
      else Some((BLUNDER, FORCED_LOSS_ENTERED))
    case MATE_TO_CENTIPAWN =>
      if before.None? || before.value == 0 then Some((UNCLASSIFIED, MATE_POLARITY_UNCLASSIFIED))
      else if before.value > 0 then Some((BLUNDER, FORCED_WIN_LOST))
      else Some((Rewarded(best), FORCED_LOSS_ESCAPED))
    case MATE_TO_MATE =>
      if before.None? || after.None? || before.value == 0 || after.value == 0
      then Some((UNCLASSIFIED, MATE_POLARITY_UNCLASSIFIED))
      else if before.value > 0 && after.value < 0 then Some((BLUNDER, MATE_POLARITY_FLIPPED_TO_LOSS))
      else if before.value < 0 && after.value > 0 then Some((Rewarded(best), MATE_POLARITY_FLIPPED_TO_WIN))
      else None
    case _ => None
  }

  /** `_same_polarity_mate` */
  function SamePolarityMate(metric: Metric): Result<(Quality, Reason), ClassificationError> {
    var before, after := metric.before.Mate(), metric.after.Mate();
    if before.None? || after.None? || before.value == 0 || after.value == 0
    then Ok((UNCLASSIFIED, MATE_POLARITY_UNCLASSIFIED))
    else if before.value > 0 && after.value > 0 then Ok((GOOD, FORCED_WIN_PRESERVED))
    else if before.value < 0 && after.value < 0 then Ok((GOOD, FORCED_LOSS_UNRESOLVED))
    else Err(BypassedPrecedence)
  }

  /** What `_validate_centipawn_contract` demands. */
  predicate ConsistentFields(metric: Metric) {
    && metric.delta.Some? && metric.rawLoss.Some? && metric.loss.Some?
    && metric.rawLoss.value == -metric.delta.value
    && metric.loss.value == Max(0, metric.rawLoss.value)
    && (metric.clamped <==> metric.rawLoss.value < 0)
  }

  /** `classify_move` */
  function ClassifyMove(policy: Thresholds, metric: Metric): Result<Classified, ClassificationError> {
    var equal := BestMoveEqual(metric);
    if equal.Err? then Err(equal.error)
    else if metric.outcome == CENTIPAWN_LOSS && !ConsistentFields(metric) then Err(InconsistentFields)
    else
      var best := equal.value;
      var mate := MatePrecedence(metric, best);
      if mate.Some? then Ok(Classified(metric, mate.value.0, mate.value.1, best))
      else if metric.outcome == MISSING_SCORE then Ok(Classified(metric, UNCLASSIFIED, SCORE_UNCLASSIFIED, best))
      else if best then Ok(Classified(metric, BEST, BEST_MOVE_EQUALITY, best))
      else if metric.outcome == MATE_TO_MATE then
        var same := SamePolarityMate(metric);
        if same.Err? then Err(same.error) else Ok(Classified(metric, same.value.0, same.value.1, best))
      else if metric.outcome == CENTIPAWN_LOSS then
        if metric.loss.None? then Err(MissingLoss) else
        var quality := policy.Classify(metric.loss.value);
        if quality.Err? then Err(quality.error) else Ok(Classified(metric, quality.value, CENTIPAWN_THRESHOLD, best))
      else Ok(Classified(metric, UNCLASSIFIED, MATE_POLARITY_UNCLASSIFIED, best))
  }

  function ClassifyMoves(policy: Thresholds, metrics: seq<Metric>): Result<seq<Classified>, ClassificationError> {
    if metrics == [] then Ok([]) else
    var first := ClassifyMove(policy, metrics[0]);
    if first.Err? then Err(first.error) else
    var rest := ClassifyMoves(policy, metrics[1..]);
    if rest.Err? then rest else Ok([first.value] + rest.value)
  }

  /**
   Of any metric whatever, the classifier rejects exactly those with malformed moves or an
   inconsistent centipawn record; its other three errors cannot happen.
   */
  lemma RejectsExactly(policy: Thresholds, metric: Metric)
    ensures var r := ClassifyMove(policy, metric);
            r.Err? ==>
              r.error == (if metric.reference.Some? && (metric.uci.Malformed? || metric.reference.value.Malformed?)
                          then InvalidUci else InconsistentFields)
    ensures ClassifyMove(policy, metric).Err? <==>
            || (metric.reference.Some? && (metric.uci.Malformed? || metric.reference.value.Malformed?))
            || (metric.outcome == CENTIPAWN_LOSS && !ConsistentFields(metric))
  {
  }

  // ---------------------------------------------------------------- the policy, by standings

  /** Where a side stands: -1 when it is being mated, 1 when it mates, 0 otherwise. */
  function Standing(score: Normalized): Option<int> {
    match score
    case CentipawnScore(_) => Some(0)
    case MateScore(m) => if m > 0 then Some(1) else if m < 0 then Some(-1) else None
    case MissingScore => None
  }

  /**
   A move that worsens the mover's standing is a blunder and one that improves it is best or
   excellent; a move that keeps it is best if it is the engine's, good if a mate is on the
   board, and graded by its loss otherwise. Without both standings there is no quality.
   */
  function PolicyQuality(policy: Thresholds, metric: Metric, best: bool): Quality {
    var before, after := Standing(metric.before), Standing(metric.after);
    if before.None? || after.None? then UNCLASSIFIED
    else if after.value < before.value then BLUNDER
    else if after.value > before.value then (if best then BEST else EXCELLENT)
    else if best then BEST
    else if before.value != 0 then GOOD
    else Graded(policy, Max(0, metric.before.centipawns - metric.after.centipawns))
  }

  /** The grade is the first band the loss fits in. */
  function Graded(policy: Thresholds, loss: int): Quality {
    if loss > policy.mistakeMax then BLUNDER
    else if loss > policy.inaccuracyMax then MISTAKE
    else if loss > policy.goodMax then INACCURACY
    else if loss > policy.excellentMax then GOOD
    else EXCELLENT
  }

  /** The reason names the change of standing, or else what decided the quality. */
  function PolicyReason(metric: Metric, best: bool): Reason {
    var before, after := Standing(metric.before), Standing(metric.after);
    if metric.before.MissingScore? || metric.after.MissingScore? then SCORE_UNCLASSIFIED
    else if before.None? || after.None? then MATE_POLARITY_UNCLASSIFIED
    else match (before.value, after.value)
      case (0, 0) => if best then BEST_MOVE_EQUALITY else CENTIPAWN_THRESHOLD
      case (0, 1) => FORCED_WIN_CREATED
      case (0, _) => FORCED_LOSS_ENTERED
      case (1, 0) => FORCED_WIN_LOST
      case (1, 1) => if best then BEST_MOVE_EQUALITY else FORCED_WIN_PRESERVED
      case (1, _) => MATE_POLARITY_FLIPPED_TO_LOSS
      case (_, 0) => FORCED_LOSS_ESCAPED
      case (_, 1) => MATE_POLARITY_FLIPPED_TO_WIN
      case (_, _) => if best then BEST_MOVE_EQUALITY else FORCED_LOSS_UNRESOLVED
  }

  /** Every derived metric with well-formed moves gets the policy's quality and reason. */
  lemma FollowsPolicy(policy: Thresholds, metric: Metric)
    requires policy.Valid() && Coherent(metric) && metric.uci.Move? && metric.reference.value.Move?
    ensures var r := ClassifyMove(policy, metric);
            && r.Ok? && r.value.metric == metric
            && (r.value.bestMove <==> metric.uci == metric.reference.value)
            && r.value.quality == PolicyQuality(policy, metric, r.value.bestMove)
            && r.value.reason == PolicyReason(metric, r.value.bestMove)
            && (r.value.quality == UNCLASSIFIED <==> Standing(metric.before).None? || Standing(metric.after).None?)
  {
  }

  lemma {:induction false} ClassifiesAll(policy: Thresholds, metrics: seq<Metric>)
    ensures ClassifyMoves(policy, metrics).Ok? <==> forall m :: m in metrics ==> ClassifyMove(policy, m).Ok?
    ensures ClassifyMoves(policy, metrics).Ok? ==>
              && |ClassifyMoves(policy, metrics).value| == |metrics|
              && forall k :: 0 <= k < |metrics| ==>
                   ClassifyMove(policy, metrics[k]) == Ok(ClassifyMoves(policy, metrics).value[k])
                   && ClassifyMoves(policy, metrics).value[k].metric == metrics[k]
  {
    if metrics != [] {
      ClassifiesAll(policy, metrics[1..]);
      assert metrics[0] in metrics;
      assert forall m :: m in metrics <==> m == metrics[0] || m in metrics[1..];
    }
  }
}
