/**
 The read pipeline of `services/analysis_aggregates.py`: derive, classify, aggregate, and
 check that the layers agree. Its precondition is the snapshot check of `analysis_reads.py`.
 */
module Pipeline {
  import opened Common
  import opened Chess
  import opened FullGame
  import opened Persistence
  import opened MoveMetrics
  import opened MoveClassification
  import opened GameMetrics

  predicate WellFormedPosition(position: PersistedPosition) {
    && position.best.Move?
    && (forall m :: m in position.variation ==> m.Move?)
    && (position.depth.Some? ==> position.depth.value >= 1)
  }

  /** `_validate_complete_snapshot` */
  predicate ValidSnapshot(analysis: PersistedAnalysis) {
    var r := analysis.result;
    && (forall k :: 0 <= k < |r.positions| ==> r.positions[k].ply == k)
    && (forall k :: 0 <= k < |r.moves| ==> r.moves[k].ply == k + 1)
    && r.checkpoint.totalPositions == r.checkpoint.evaluatedPositions == |r.positions|
    && r.checkpoint.totalMoves == r.checkpoint.completedMoves == |r.moves|
    && (forall k :: 0 <= k < |r.moves| ==>
          r.moves[k].before.ply == k && r.moves[k].after.ply == k + 1 && r.moves[k].uci.Move?)
    && (forall k :: 0 <= k < |r.positions| ==> WellFormedPosition(r.positions[k]))
  }

  /** A layer of the pipeline with the identity it was derived under. */
  datatype Layer<T> = Layer(game: GameId, run: RunId, value: T)

  datatype Unified = Unified(
    game: GameId, owner: UserId, run: RunId, snapshot: Snapshot,
    metrics: Layer<seq<Metric>>, classified: Layer<seq<Classified>>, aggregate: Layer<GameAggregate>)

  datatype PipelineError =
    | Derivation(derivation: MetricError)
    | Classification(classification: ClassificationError)
    | Aggregation(aggregation: AggregationError)
    | Composition

  function Moving(color: Color): Metric -> bool {
    (m: Metric) => m.mover == color
  }

  function CountSum(counts: seq<(Quality, nat)>): nat {
    if counts == [] then 0 else counts[0].1 + CountSum(counts[1..])
  }

  predicate TotalsAgree(s: PlayerSummary) {
    && CountSum(s.qualityCounts) == s.total
    && s.classified + s.unclassified == s.total
    && s.eligible + s.excluded == s.total
  }

  /** `validate_internal_analysis_aggregate` */
  predicate LayersAgree(u: Unified) {
    var moves := u.snapshot.analysis.result.moves;
    var metrics, classified := u.metrics.value, u.classified.value;
    var white, black := u.aggregate.value.white, u.aggregate.value.black;
    && u.owner == u.snapshot.owner
    && u.game == u.snapshot.game == u.snapshot.analysis.result.game
    && u.game == u.metrics.game == u.classified.game == u.aggregate.game
    && u.run == u.snapshot.analysis.run == u.metrics.run == u.classified.run == u.aggregate.run
    && |moves| == |metrics| == |classified|
    && (forall k :: 0 <= k < |moves| ==>
          && metrics[k].ply == moves[k].ply && metrics[k].uci == moves[k].uci && metrics[k].san == moves[k].san
          && classified[k].metric == metrics[k])
    && white.color == White && black.color == Black
    && white.total == |Filter(metrics, Moving(White))| && black.total == |Filter(metrics, Moving(Black))|
    && white.total + black.total == |metrics|
    && TotalsAgree(white) && TotalsAgree(black)
  }

  /** `InternalAnalysisAggregateService.read_for_owner` on the snapshot it read. */
  function Compose(policy: Thresholds, scale: int, snapshot: Snapshot): Result<Unified, PipelineError>
    requires scale >= 1
  {
    var run := snapshot.analysis.run;
    var metrics := Derive(snapshot);
    if metrics.Err? then Err(Derivation(metrics.error)) else
    var classified := ClassifyMoves(policy, metrics.value);
    if classified.Err? then Err(Classification(classified.error)) else
    var aggregate := Aggregate(scale, classified.value);
    if aggregate.Err? then Err(Aggregation(aggregate.error)) else
    var unified := Unified(snapshot.game, snapshot.owner, run, snapshot,
                           Layer(snapshot.game, run, metrics.value), Layer(snapshot.game, run, classified.value),
                           Layer(snapshot.game, run, aggregate.value));
    if LayersAgree(unified) then Ok(unified) else Err(Composition)
  }

  // ---------------------------------------------------------------- the layers always agree

  lemma {:induction false} FilteredFrom<T>(items: seq<T>, keep: T -> bool)
    ensures forall x :: x in Filter(items, keep) <==> x in items && keep(x)
  {
    if items != [] {
      FilteredFrom(items[1..], keep);
      assert forall x :: x in items <==> x == items[0] || x in items[1..];
    }
  }

  lemma {:induction false} MoversCounted(classified: seq<Classified>, metrics: seq<Metric>, color: Color)
    requires |classified| == |metrics| && forall k :: 0 <= k < |metrics| ==> classified[k].metric == metrics[k]
    ensures |Filter(classified, MovedBy(color))| == |Filter(metrics, Moving(color))|
  {
    if metrics != [] {
      assert classified[0].metric == metrics[0];
      MoversCounted(classified[1..], metrics[1..], color);
    }
  }

  lemma {:induction false} MoversPartition(metrics: seq<Metric>)
    ensures |Filter(metrics, Moving(White))| + |Filter(metrics, Moving(Black))| == |metrics|
  {
    if metrics != [] {
      MoversPartition(metrics[1..]);
    }
  }

  lemma {:induction false} CountsAdd(moves: seq<Classified>, qualities: seq<Quality>)
    requires moves != []
    ensures CountSum(QualityCounts(moves, qualities))
            == CountSum(QualityCounts(moves[1..], qualities)) + multiset(qualities)[moves[0].quality]
  {
    if qualities != [] {
      CountsAdd(moves, qualities[1..]);
      assert qualities == [qualities[0]] + qualities[1..];
      assert QualityCounts(moves, qualities)[1..] == QualityCounts(moves, qualities[1..]);
      assert QualityCounts(moves[1..], qualities)[1..] == QualityCounts(moves[1..], qualities[1..]);
    }
  }

  lemma {:induction false} NoCounts(qualities: seq<Quality>)
    ensures CountSum(QualityCounts([], qualities)) == 0
  {
    if qualities != [] {
      NoCounts(qualities[1..]);
      assert QualityCounts([], qualities)[1..] == QualityCounts([], qualities[1..]);
    }
  }

  lemma ListedOnce(quality: Quality)
    ensures multiset(QUALITIES)[quality] == 1
  {
    assert multiset(QUALITIES) == multiset{BEST, EXCELLENT, GOOD, INACCURACY, MISTAKE, BLUNDER, UNCLASSIFIED};
  }

  /** Every move is counted under exactly one quality. */
  lemma {:induction false} CountsCover(moves: seq<Classified>)
    ensures CountSum(QualityCounts(moves, QUALITIES)) == |moves|
  {
    if moves == [] {
      NoCounts(QUALITIES);
    } else {
      CountsAdd(moves, QUALITIES);
      ListedOnce(moves[0].quality);
      CountsCover(moves[1..]);
    }
  }

  lemma {:induction false} LossesAddUp(moves: seq<Classified>)
    requires forall c :: c in moves ==> c.metric.loss.Some? && c.metric.loss.value >= 0
    ensures Total(moves, LossOf()) >= 0
  {
    if moves != [] {
      assert moves[0] in moves;
      LossesAddUp(moves[1..]);
    }
  }

  lemma SummaryWorks(scale: int, color: Color, moves: seq<Classified>)
    requires scale >= 1 && forall c :: c in moves ==> Coherent(c.metric)
    ensures var s := Summarize(scale, color, moves);
            && s.Ok? && s.value.color == color && s.value.total == |moves| && TotalsAgree(s.value)
  {
    var eligible := Filter(moves, IsEligible());
    FilteredFrom(moves, IsEligible());
    LossesAddUp(eligible);
    if eligible != [] {
      AcplWithinHalf(Total(eligible, LossOf()), |eligible|);
    }
    CountsCover(moves);
  }

  lemma {:induction false} FilterShrinks<T>(items: seq<T>, keep: T -> bool)
    ensures |Filter(items, keep)| <= |items|
  {
    if items != [] {
      FilterShrinks(items[1..], keep);
    }
  }

  lemma {:induction false} CountsInOrder(moves: seq<Classified>, qualities: seq<Quality>)
    ensures |QualityCounts(moves, qualities)| == |qualities|
    ensures forall i :: 0 <= i < |qualities| ==>
              QualityCounts(moves, qualities)[i] == (qualities[i], |Filter(moves, HasQuality(qualities[i]))|)
  {
    if qualities != [] {
      CountsInOrder(moves, qualities[1..]);
    }
  }

  /** 100 * scale / (scale + ACPL), to the nearest hundredth; the ACPL counts hundredths as well. */
  predicate NearestAccuracy(scale: int, acpl: int, accuracy: int) {
    (2 * accuracy - 1) * (100 * scale + acpl) <= 2000000 * scale < (2 * accuracy + 1) * (100 * scale + acpl)
  }

  /** 100 * part / whole, to the nearest hundredth. */
  predicate NearestShare(part: int, whole: int, percentage: int) {
    (2 * percentage - 1) * whole <= 20000 * part < (2 * percentage + 1) * whole
  }

  lemma IsNearestAccuracy(scale: int, acpl: nat)
    requires scale >= 1
    ensures Accuracy(scale, acpl).Ok? && NearestAccuracy(scale, acpl, Accuracy(scale, acpl).value)
  {
    AccuracyExactly(scale, acpl, Accuracy(scale, acpl).value);
  }

  lemma IsNearestShare(part: nat, whole: int)
    requires whole > 0
    ensures Percentage(part, whole).Some? && NearestShare(part, whole, Percentage(part, whole).value)
  {
    PercentageExactly(part, whole, Percentage(part, whole).value);
  }

  /** The moves with a loss, and those of a quality, by their place in the list. */
  ghost function WithLoss(moves: seq<Classified>): set<int> {
    set k | 0 <= k < |moves| && moves[k].metric.loss.Some?
  }

  ghost function WithQuality(moves: seq<Classified>, quality: Quality): set<int> {
    set k | 0 <= k < |moves| && moves[k].quality == quality
  }

  ghost function MadeBy(moves: seq<Classified>, color: Color): set<int> {
    set k | 0 <= k < |moves| && moves[k].metric.mover == color
  }

  lemma CountsByPlace(moves: seq<Classified>)
    requires forall c :: c in moves ==> Coherent(c.metric)
    ensures |Filter(moves, IsEligible())| == |WithLoss(moves)|
    ensures forall q :: |Filter(moves, HasQuality(q))| == |WithQuality(moves, q)|
    ensures forall color :: |Filter(moves, MovedBy(color))| == |MadeBy(moves, color)|
  {
    FilterCounts(moves, IsEligible());
    assert Kept(moves, IsEligible()) == WithLoss(moves);
    forall q ensures |Filter(moves, HasQuality(q))| == |WithQuality(moves, q)| {
      FilterCounts(moves, HasQuality(q));
      assert Kept(moves, HasQuality(q)) == WithQuality(moves, q);
    }
    forall color ensures |Filter(moves, MovedBy(color))| == |MadeBy(moves, color)| {
      FilterCounts(moves, MovedBy(color));
      assert Kept(moves, MovedBy(color)) == MadeBy(moves, color);
    }
  }

  /** What a summary counts: every move once, by whether it has a loss and by its quality. */
  lemma SummaryCounts(scale: int, color: Color, moves: seq<Classified>)
    requires scale >= 1 && forall c :: c in moves ==> Coherent(c.metric)
    ensures Summarize(scale, color, moves).Ok?
    ensures var s := Summarize(scale, color, moves).value;
            && s.color == color && s.total == |moves|
            && s.eligible == |WithLoss(moves)| && s.excluded == s.total - s.eligible
            && s.unclassified == |WithQuality(moves, UNCLASSIFIED)| && s.classified == s.total - s.unclassified
            && |s.qualityCounts| == |QUALITIES|
            && (forall i :: 0 <= i < |QUALITIES| ==>
                  s.qualityCounts[i] == (QUALITIES[i], |WithQuality(moves, QUALITIES[i])|))
  {
    SummaryWorks(scale, color, moves);
    CountsInOrder(moves, QUALITIES);
    CountsByPlace(moves);
  }

  /**
   What the numbers of a summary mean: the ACPL is the mean loss to within 0.005, the accuracy
   is what the scale makes of it and the coverages are shares of the moves, all to the nearest
   hundredth, and they exist when there is something to rate. A full coverage misses at most
   one move in 20000.
   */
  lemma SummaryMeans(scale: int, color: Color, moves: seq<Classified>)
    requires scale >= 1 && forall c :: c in moves ==> Coherent(c.metric)
    ensures Summarize(scale, color, moves).Ok?
    ensures var s := Summarize(scale, color, moves).value;
            && (s.acpl.Some? <==> s.eligible > 0) && (s.accuracy.Some? <==> s.eligible > 0)
            && (s.accuracyAvailable <==> s.accuracy.Some?)
            && (s.acpl.Some? ==> 0 - s.eligible < 2 * (s.acpl.value * s.eligible - 100 * s.summedLoss) <= s.eligible)
            && (s.accuracy.Some? ==> 0 <= s.accuracy.value <= 10000
                                     && (s.accuracy.value == 10000 <==> 19999 * s.acpl.value <= 100 * scale))
            && (s.cplCoverage.Some? <==> s.total > 0) && (s.classificationCoverage.Some? <==> s.total > 0)
            && (s.cplCoverage == Some(10000) <==> s.total > 0 && 20000 * s.excluded <= s.total)
            && (s.classificationCoverage == Some(10000) <==> s.total > 0 && 20000 * s.unclassified <= s.total)
    ensures var s := Summarize(scale, color, moves).value;
            && (s.accuracy.Some? ==> NearestAccuracy(scale, s.acpl.value, s.accuracy.value))
            && (s.total > 0 ==> NearestShare(s.eligible, s.total, s.cplCoverage.value)
                                && NearestShare(s.classified, s.total, s.classificationCoverage.value))
  {
    var eligible := Filter(moves, IsEligible());
    SummaryWorks(scale, color, moves);
    FilteredFrom(moves, IsEligible());
    LossesAddUp(eligible);
    if eligible != [] {
      AcplWithinHalf(Total(eligible, LossOf()), |eligible|);
      AccuracyBounds(scale, HalfUp(100 * Total(eligible, LossOf()), |eligible|));
      IsNearestAccuracy(scale, HalfUp(100 * Total(eligible, LossOf()), |eligible|));
    }
    FilterShrinks(moves, IsEligible());
    FilterShrinks(moves, HasQuality(UNCLASSIFIED));
    if moves != [] {
      IsNearestShare(|eligible|, |moves|);
      IsNearestShare(|moves| - |Filter(moves, HasQuality(UNCLASSIFIED))|, |moves|);
      FullCoverage(|eligible|, |moves|);
      FullCoverage(|moves| - |Filter(moves, HasQuality(UNCLASSIFIED))|, |moves|);
    }
  }

  /** The summary of each player is that of the moves of their own colour, all of them. */
  lemma AggregateSplits(scale: int, classified: seq<Classified>)
    requires scale >= 1 && Aggregate(scale, classified).Ok? && forall c :: c in classified ==> Coherent(c.metric)
    ensures var a, whites, blacks := Aggregate(scale, classified).value, Filter(classified, MovedBy(White)),
                                     Filter(classified, MovedBy(Black));
            && Summarize(scale, White, whites) == Ok(a.white) && Summarize(scale, Black, blacks) == Ok(a.black)
            && (forall c :: c in whites <==> c in classified && c.metric.mover == White)
            && (forall c :: c in blacks <==> c in classified && c.metric.mover == Black)
            && |whites| == |MadeBy(classified, White)| && |blacks| == |MadeBy(classified, Black)|
  {
    FilteredFrom(classified, MovedBy(White));
    FilteredFrom(classified, MovedBy(Black));
    CountsByPlace(classified);
  }

  /** Coherent metrics under unique positive plies always aggregate. */
  lemma AggregateWorks(scale: int, classified: seq<Classified>)
    requires scale >= 1 && GoodPlies(classified) && forall c :: c in classified ==> Coherent(c.metric)
    ensures var a := Aggregate(scale, classified);
            && a.Ok? && a.value.white.color == White && a.value.black.color == Black
            && a.value.white.total == |Filter(classified, MovedBy(White))|
            && a.value.black.total == |Filter(classified, MovedBy(Black))|
            && TotalsAgree(a.value.white) && TotalsAgree(a.value.black)
  {
    FilteredFrom(classified, MovedBy(White));
    FilteredFrom(classified, MovedBy(Black));
    SummaryWorks(scale, White, Filter(classified, MovedBy(White)));
    SummaryWorks(scale, Black, Filter(classified, MovedBy(Black)));
  }

  /** What the pipeline needs beyond a valid snapshot. */
  predicate Composable(snapshot: Snapshot) {
    && snapshot.game == snapshot.analysis.result.game
    && forall m :: m in snapshot.analysis.result.moves ==> PassesTurn(m) && m.before.best.Move?
  }

  lemma MetricsOf(snapshot: Snapshot)
    requires ValidSnapshot(snapshot.analysis)
    ensures Derive(snapshot).Ok? <==>
            snapshot.game == snapshot.analysis.result.game
            && forall m :: m in snapshot.analysis.result.moves ==> PassesTurn(m)
    ensures Derive(snapshot).Ok? ==>
              var moves, metrics := snapshot.analysis.result.moves, Derive(snapshot).value;
              && |metrics| == |moves|
              && forall k :: 0 <= k < |moves| ==>
                   && Coherent(metrics[k]) && metrics[k].ply == moves[k].ply == k + 1
                   && metrics[k].uci == moves[k].uci && metrics[k].uci.Move? && metrics[k].san == moves[k].san
                   && metrics[k].reference == Some(moves[k].before.best)
  {
    var moves := snapshot.analysis.result.moves;
    DerivesExactly(moves);
    if Derive(snapshot).Ok? {
      forall k | 0 <= k < |moves|
        ensures Coherent(Derive(snapshot).value[k])
      {
        DerivedCoherent(moves[k]);
      }
    }
  }

  lemma ClassesOf(policy: Thresholds, snapshot: Snapshot)
    requires policy.Valid() && ValidSnapshot(snapshot.analysis) && Derive(snapshot).Ok?
    ensures var metrics := Derive(snapshot).value;
            ClassifyMoves(policy, metrics).Ok? <==>
            forall m :: m in snapshot.analysis.result.moves ==> m.before.best.Move?
  {
    var moves, metrics := snapshot.analysis.result.moves, Derive(snapshot).value;
    MetricsOf(snapshot);
    ClassifiesAll(policy, metrics);
    forall k | 0 <= k < |moves|
      ensures ClassifyMove(policy, metrics[k]).Ok? <==> moves[k].before.best.Move?
    {
      RejectsExactly(policy, metrics[k]);
    }
    if ClassifyMoves(policy, metrics).Ok? {
      forall m | m in moves
        ensures m.before.best.Move?
      {
        var k :| 0 <= k < |moves| && moves[k] == m;
        assert metrics[k] in metrics;
      }
    }
  }

  /**
   Totality: over a valid snapshot the pipeline succeeds exactly when the game ids match,
   every move passes the turn and every reference move is well formed; then no layer can
   raise and the final check always passes.
   */
  lemma ComposesExactly(policy: Thresholds, scale: int, snapshot: Snapshot)
    requires policy.Valid() && scale >= 1 && ValidSnapshot(snapshot.analysis)
    ensures Compose(policy, scale, snapshot).Ok? <==> Composable(snapshot)
  {
    MetricsOf(snapshot);
    if Derive(snapshot).Ok? {
      var metrics := Derive(snapshot).value;
      ClassesOf(policy, snapshot);
      ClassifiesAll(policy, metrics);
      if ClassifyMoves(policy, metrics).Ok? {
        var classified := ClassifyMoves(policy, metrics).value;
        assert forall k :: 0 <= k < |metrics| ==> classified[k].metric == metrics[k] && metrics[k].ply == k + 1;
        assert GoodPlies(classified);
        AggregateWorks(scale, classified);
        MoversCounted(classified, metrics, White);
        MoversCounted(classified, metrics, Black);
        MoversPartition(metrics);
      }
    }
  }

  // ---------------------------------------------------------------- conservation in the summaries

  /** What clamping at zero adds to a player's losses. */
  function ClampedAmount(metrics: seq<Metric>, color: Color): int {
    if metrics == [] then 0 else
    (if metrics[0].mover == color && metrics[0].clamped && metrics[0].rawLoss.Some? then -metrics[0].rawLoss.value
     else 0)
    + ClampedAmount(metrics[1..], color)
  }

  lemma {:induction false} LossesSplit(classified: seq<Classified>, metrics: seq<Metric>, color: Color)
    requires |classified| == |metrics|
    requires forall k :: 0 <= k < |metrics| ==> classified[k].metric == metrics[k] && Coherent(metrics[k])
    ensures Total(Filter(Filter(classified, MovedBy(color)), IsEligible()), LossOf())
            == RawLoss(metrics, color) + ClampedAmount(metrics, color)
  {
    if metrics != [] {
      assert classified[0].metric == metrics[0] && Coherent(metrics[0]);
      LossesSplit(classified[1..], metrics[1..], color);
      var rest := Filter(classified[1..], MovedBy(color));
      if metrics[0].mover == color {
        assert ([classified[0]] + rest)[1..] == rest;
        assert ([classified[0]] + Filter(rest, IsEligible()))[1..] == Filter(rest, IsEligible());
      }
    }
  }

  /** A player's summed loss exceeds the raw losses by exactly the clamped amounts. */
  lemma SummedLossSplits(policy: Thresholds, scale: int, snapshot: Snapshot)
    requires policy.Valid() && scale >= 1 && ValidSnapshot(snapshot.analysis) && Composable(snapshot)
    ensures Compose(policy, scale, snapshot).Ok?
    ensures var u := Compose(policy, scale, snapshot).value;
            && u.aggregate.value.white.summedLoss
               == RawLoss(u.metrics.value, White) + ClampedAmount(u.metrics.value, White)
            && u.aggregate.value.black.summedLoss
               == RawLoss(u.metrics.value, Black) + ClampedAmount(u.metrics.value, Black)
  {
    ComposesExactly(policy, scale, snapshot);
    var u := Compose(policy, scale, snapshot).value;
    MetricsOf(snapshot);
    LossesSplit(u.classified.value, u.metrics.value, White);
    LossesSplit(u.classified.value, u.metrics.value, Black);
  }

  /**
   Conservation for the numbers a player sees: in a continuous game scored in centipawns,
   the difference of the summed losses is the evaluation White lost, plus the difference
   of the clamped amounts.
   */
  lemma SummariesConserve(policy: Thresholds, scale: int, snapshot: Snapshot)
    requires policy.Valid() && scale >= 1 && ValidSnapshot(snapshot.analysis) && Composable(snapshot)
    requires var moves := snapshot.analysis.result.moves;
             moves != [] && Continuous(moves) && AllCentipawns(moves)
    ensures Compose(policy, scale, snapshot).Ok?
    ensures var u, moves := Compose(policy, scale, snapshot).value, snapshot.analysis.result.moves;
            u.aggregate.value.white.summedLoss - u.aggregate.value.black.summedLoss
            == WhiteView(moves[0].before) - WhiteView(moves[|moves| - 1].after)
               + ClampedAmount(u.metrics.value, White) - ClampedAmount(u.metrics.value, Black)
  {
    SummedLossSplits(policy, scale, snapshot);
    Telescopes(snapshot.analysis.result.moves);
  }
}
