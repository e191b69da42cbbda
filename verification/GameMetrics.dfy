/**
 Per-player aggregates of `analysis/game_metrics.py`. Decimals with two places are counted
 in hundredths, so every quantized number is an integer and `HalfUp` is its rounding.
 */
module GameMetrics {
  import opened Common
  import opened Chess
  import opened MoveMetrics
  import opened MoveClassification

  datatype AggregationError = BadPlies | NoLoss | NegativeAcpl

  datatype PlayerSummary = PlayerSummary(
    color: Color, total: nat, eligible: nat, excluded: int, cplCoverage: Option<int>, summedLoss: int,
    acpl: Option<int>, accuracyAvailable: bool, accuracy: Option<int>,
    classified: int, unclassified: nat, classificationCoverage: Option<int>, qualityCounts: seq<(Quality, nat)>)

  datatype GameAggregate = GameAggregate(white: PlayerSummary, black: PlayerSummary)

  /** `for quality in MoveQuality`, in order of declaration. */
  const QUALITIES: seq<Quality> := [BEST, EXCELLENT, GOOD, INACCURACY, MISTAKE, BLUNDER, UNCLASSIFIED]

  /** ROUND_HALF_UP of numerator / denominator: ties go away from zero. */
  function HalfUp(numerator: int, denominator: int): int
    requires denominator > 0
  {
    if numerator >= 0 then (2 * numerator + denominator) / (2 * denominator)
    else -((-2 * numerator + denominator) / (2 * denominator))
  }

  function Total<T>(items: seq<T>, value: T -> int): int {
    if items == [] then 0 else value(items[0]) + Total(items[1..], value)
  }

  function Filter<T>(items: seq<T>, keep: T -> bool): seq<T> {
    if items == [] then []
    else if keep(items[0]) then [items[0]] + Filter(items[1..], keep)
    else Filter(items[1..], keep)
  }

  function LossOf(): Classified -> int {
    (c: Classified) => if c.metric.loss.Some? then c.metric.loss.value else 0
  }

  function MovedBy(color: Color): Classified -> bool {
    (c: Classified) => c.metric.mover == color
  }

  function IsEligible(): Classified -> bool {
    (c: Classified) => c.metric.outcome == CENTIPAWN_LOSS
  }

  function HasQuality(quality: Quality): Classified -> bool {
    (c: Classified) => c.quality == quality
  }

  /** `AccuracyPolicy.transform`, for an ACPL in hundredths. */
  function Accuracy(scale: int, acpl: int): Result<int, AggregationError>
    requires scale >= 1
  {
    if acpl < 0 then Err(NegativeAcpl) else Ok(HalfUp(1000000 * scale, 100 * scale + acpl))
  }

  /** `_percentage` */
  function Percentage(numerator: int, denominator: nat): Option<int> {
    if denominator == 0 then None else Some(HalfUp(10000 * numerator, denominator))
  }

  function QualityCounts(moves: seq<Classified>, qualities: seq<Quality>): seq<(Quality, nat)> {
    if qualities == [] then [] else
    [(qualities[0], |Filter(moves, HasQuality(qualities[0]))|)] + QualityCounts(moves, qualities[1..])
  }

  /** `_summarize` */
  function Summarize(scale: int, color: Color, moves: seq<Classified>): Result<PlayerSummary, AggregationError>
    requires scale >= 1
  {
    var eligible := Filter(moves, IsEligible());
    if exists c :: c in eligible && c.metric.loss.None? then Err(NoLoss) else
    var summed := Total(eligible, LossOf());
    var acpl := if eligible == [] then None else Some(HalfUp(100 * summed, |eligible|));
    var accuracy := if acpl.None? then Ok(None) else
                    var a := Accuracy(scale, acpl.value);
                    if a.Err? then Err(a.error) else Ok(Some(a.value));
    if accuracy.Err? then Err(accuracy.error) else
    var unclassified := |Filter(moves, HasQuality(UNCLASSIFIED))|;
    Ok(PlayerSummary(color, |moves|, |eligible|, |moves| - |eligible|, Percentage(|eligible|, |moves|), summed,
                     acpl, accuracy.value.Some?, accuracy.value,
                     |moves| - unclassified, unclassified, Percentage(|moves| - unclassified, |moves|),
                     QualityCounts(moves, QUALITIES)))
  }

  /** Unique and positive. */
  predicate GoodPlies(moves: seq<Classified>) {
    && (forall i :: 0 <= i < |moves| ==> moves[i].metric.ply >= 1)
    && (forall i, j :: 0 <= i < j < |moves| ==> moves[i].metric.ply != moves[j].metric.ply)
  }

  /** `aggregate` */
  function Aggregate(scale: int, moves: seq<Classified>): Result<GameAggregate, AggregationError>
    requires scale >= 1
  {
    if !GoodPlies(moves) then Err(BadPlies) else
    var white := Summarize(scale, White, Filter(moves, MovedBy(White)));
    if white.Err? then Err(white.error) else
    var black := Summarize(scale, Black, Filter(moves, MovedBy(Black)));
    if black.Err? then Err(black.error) else Ok(GameAggregate(white.value, black.value))
  }

  // ---------------------------------------------------------------- rounding

  /** The rounded quotient is the one integer within a half of the true one, ties upwards. */
  lemma HalfUpExactly(n: int, d: int, q: int)
    requires n >= 0 && d > 0
    ensures HalfUp(n, d) == q <==> (2 * q - 1) * d <= 2 * n < (2 * q + 1) * d
  {
    var r := HalfUp(n, d);
    var top := 2 * n + d;
    assert top == (2 * d) * r + top % (2 * d);
    assert (2 * d) * r <= top < (2 * d) * r + 2 * d;
    Nearest(d, r, top);
    if (2 * q - 1) * d <= 2 * n < (2 * q + 1) * d {
      assert (2 * d) * q <= top < (2 * d) * q + 2 * d;
      SameQuotient(2 * d, r, q, top);
    }
  }

  lemma Nearest(d: int, r: int, top: int)
    requires (2 * d) * r <= top < (2 * d) * r + 2 * d
    ensures (2 * r - 1) * d <= top - d < (2 * r + 1) * d
  {
  }

  lemma SameQuotient(d: int, r: int, q: int, top: int)
    requires d > 0 && d * r <= top < d * r + d && d * q <= top < d * q + d
    ensures r == q
  {
    if r < q {
      ProductsGrow(r + 1, q, d, d);
    } else if q < r {
      ProductsGrow(q + 1, r, d, d);
    }
  }

  lemma HalfUpMonotone(n: int, n': int, d: int)
    requires 0 <= n <= n' && d > 0
    ensures HalfUp(n, d) <= HalfUp(n', d)
  {
    var q, q' := HalfUp(n, d), HalfUp(n', d);
    HalfUpExactly(n, d, q);
    HalfUpExactly(n', d, q');
    if q > q' {
      ProductsGrow(2 * q' + 1, 2 * q - 1, d, d);
    }
  }

  lemma ProductsGrow(a: int, b: int, d: int, e: int)
    requires a <= b && 0 < d <= e && (d == e || 0 <= b)
    ensures a * d <= b * e
  {
    assert a * d <= b * d;
    assert b * d <= b * e;
  }

  lemma QuotientsArePositive(n: int, d: int, q: int)
    requires 0 <= n && 0 < d && 2 * n < (2 * q + 1) * d
    ensures q >= 0
  {
    if q < 0 {
      ProductsGrow(2 * q + 1, -1, d, d);
    }
  }

  lemma HalfUpAntitone(n: int, d: int, d': int)
    requires 0 <= n && 0 < d <= d'
    ensures HalfUp(n, d') <= HalfUp(n, d)
  {
    var q, q' := HalfUp(n, d), HalfUp(n, d');
    HalfUpExactly(n, d, q);
    HalfUpExactly(n, d', q');
    QuotientsArePositive(n, d, q);
    if q < q' {
      ProductsGrow(2 * q + 1, 2 * q' - 1, d, d');
    }
  }

  /** The rounded ACPL is within 0.005 of the true mean: within half a hundredth, times the count. */
  lemma AcplWithinHalf(summed: nat, count: int)
    requires count > 0
    ensures var acpl := HalfUp(100 * summed, count);
            acpl >= 0 && -count < 2 * (acpl * count - 100 * summed) <= count
  {
    var acpl := HalfUp(100 * summed, count);
    HalfUpExactly(100 * summed, count, acpl);
    QuotientsArePositive(100 * summed, count, acpl);
    assert (2 * acpl - 1) * count == 2 * (acpl * count) - count;
    assert (2 * acpl + 1) * count == 2 * (acpl * count) + count;
  }

  /** The accuracy is 100 * scale / (scale + ACPL) to the nearest hundredth, ties upwards, for every ACPL there is. */
  lemma AccuracyExactly(scale: int, acpl: int, q: int)
    requires scale >= 1
    ensures Accuracy(scale, acpl).Err? <==> acpl < 0
    ensures acpl >= 0 ==>
              (Accuracy(scale, acpl) == Ok(q)
               <==> (2 * q - 1) * (100 * scale + acpl) <= 2000000 * scale < (2 * q + 1) * (100 * scale + acpl))
  {
    if acpl >= 0 {
      HalfUpExactly(1000000 * scale, 100 * scale + acpl, q);
    }
  }

  /** And a percentage is 100 * part / whole to the nearest hundredth, ties upwards. */
  lemma PercentageExactly(part: nat, whole: nat, q: int)
    ensures Percentage(part, whole).None? <==> whole == 0
    ensures whole > 0 ==>
              (Percentage(part, whole) == Some(q) <==> (2 * q - 1) * whole <= 20000 * part < (2 * q + 1) * whole)
  {
    if whole > 0 {
      HalfUpExactly(10000 * part, whole, q);
    }
  }

  /** Accuracy lies in 0..100.00 and is 100.00 exactly up to an ACPL of scale / 199.99. */
  lemma AccuracyBounds(scale: int, acpl: nat)
    requires scale >= 1
    ensures Accuracy(scale, acpl).Ok? && 0 <= Accuracy(scale, acpl).value <= 10000
    ensures Accuracy(scale, acpl).value == 10000 <==> 19999 * acpl <= 100 * scale
  {
    var d := 100 * scale + acpl;
    HalfUpExactly(1000000 * scale, d, HalfUp(1000000 * scale, d));
    HalfUpExactly(1000000 * scale, d, 10000);
    HalfUpAntitone(1000000 * scale, 100 * scale, d);
    HalfUpExactly(1000000 * scale, 100 * scale, 10000);
    assert (2 * 10000 - 1) * d == 19999 * d;
    assert (2 * 10000 + 1) * d == 20001 * d;
  }

  /** With the default scale a full score needs an ACPL of 0.00; losses below half a hundredth a move round to it. */
  lemma FullAccuracy(summed: nat, count: nat)
    requires count > 0
    ensures var acpl := HalfUp(100 * summed, count);
            && (Accuracy(100, acpl) == Ok(10000) <==> acpl == 0)
            && (acpl == 0 <==> 200 * summed < count)
  {
    var acpl := HalfUp(100 * summed, count);
    AcplWithinHalf(summed, count);
    AccuracyBounds(100, acpl);
    HalfUpExactly(100 * summed, count, 0);
  }

  /** So one centipawn lost in 201 moves leaves a full score. */
  lemma LossRoundsAway()
    ensures HalfUp(100 * 1, 201) == 0 && Accuracy(100, HalfUp(100 * 1, 201)) == Ok(10000)
  {
    FullAccuracy(1, 201);
  }

  /** More loss over as many moves never raises the accuracy. */
  lemma AccuracyFalls(scale: int, summed: nat, more: nat, count: nat)
    requires scale >= 1 && count > 0 && summed <= more
    ensures var acpl, acpl' := HalfUp(100 * summed, count), HalfUp(100 * more, count);
            && 0 <= acpl <= acpl'
            && Accuracy(scale, acpl').value <= Accuracy(scale, acpl).value
  {
    AcplWithinHalf(summed, count);
    HalfUpMonotone(100 * summed, 100 * more, count);
    HalfUpAntitone(1000000 * scale, 100 * scale + HalfUp(100 * summed, count), 100 * scale + HalfUp(100 * more, count));
  }

  /** Coverage is 100.00 exactly when at most one in 20000 moves is missing, so for fewer moves exactly when none is. */
  lemma FullCoverage(counted: nat, all: nat)
    requires counted <= all && all > 0
    ensures Percentage(counted, all) == Some(10000) <==> 20000 * (all - counted) <= all
    ensures all < 20000 ==> (Percentage(counted, all) == Some(10000) <==> counted == all)
    ensures 0 <= Percentage(counted, all).value <= 10000
  {
    HalfUpExactly(10000 * counted, all, HalfUp(10000 * counted, all));
    HalfUpExactly(10000 * counted, all, 10000);
    HalfUpMonotone(10000 * counted, 10000 * all, all);
    HalfUpExactly(10000 * all, all, 10000);
    assert (2 * 10000 - 1) * all == 19999 * all;
    assert (2 * 10000 + 1) * all == 20001 * all;
  }

  /** From 20000 moves on the bound is needed: one uncounted move rounds away. */
  lemma CoverageRoundsUp()
    ensures Percentage(19999, 20000) == Some(10000)
  {
  }

  // ---------------------------------------------------------------- the decimal context

  function Ten(k: nat): (p: int)
    ensures p > 0
  {
    if k == 0 then 1 else 10 * Ten(k - 1)
  }

  /** What a context of 28 digits makes of x / c: a / 10^k, exact or off by at most half of its last digit. */
  predicate ContextQuotient(x: nat, c: int, a: nat, k: nat) {
    a * c == x * Ten(k) || (Ten(27) <= a && -c <= 2 * (a * c - x * Ten(k)) <= c)
  }

  lemma ExactQuotient(x: nat, c: int, a: nat, s: int)
    requires c > 0 && s > 0 && a * c == x * s
    ensures HalfUp(100 * a, s) == HalfUp(100 * x, c)
  {
    var q := HalfUp(100 * x, c);
    HalfUpExactly(100 * x, c, q);
    HalfUpExactly(100 * a, s, q);
    Scaled(2 * q - 1, c, 200 * x, s);
    Scaled(2 * q + 1, c, 200 * x, s);
    assert 200 * x * s == 200 * a * c;
    Scaled(2 * q - 1, s, 200 * a, c);
    Scaled(2 * q + 1, s, 200 * a, c);
  }

  lemma Scaled(m: int, d: int, n: int, s: int)
    requires s > 0
    ensures m * d <= n <==> m * d * s <= n * s
    ensures n < m * d <==> n * s < m * d * s
  {
  }

  lemma {:induction false} TenSplits(j: nat, k: nat)
    ensures Ten(j + k) == Ten(j) * Ten(k)
  {
    if j > 0 {
      TenSplits(j - 1, k);
      assert Ten(j + k) == 10 * (Ten(j - 1) * Ten(k));
    }
  }

  lemma SmallPowers()
    ensures Ten(0) == 1 && Ten(1) == 10 && Ten(2) == 100 && Ten(3) == 1000
    ensures Ten(17) == 1000 * Ten(14) && Ten(27) == Ten(10) * Ten(17)
  {
    TenSplits(3, 14);
    TenSplits(10, 17);
  }

  lemma ThousandDivides(k: nat)
    requires k >= 3
    ensures Ten(k) == 200 * (5 * Ten(k - 3))
  {
    assert Ten(k) == 10 * Ten(k - 1);
    assert Ten(k - 1) == 10 * Ten(k - 2);
  }

  lemma Times(m: int, n: int, d: int)
    requires m <= n && d >= 0
    ensures m * d <= n * d
  {
  }

  lemma Smaller(m: int, n: int, d: int)
    requires d > 0 && m * d < n * d
    ensures m < n
  {
    if n <= m {
      Times(n, m, d);
    }
  }

  lemma Swapped(x: int, y: int, z: int)
    ensures x * y * z == x * z * y
  {
  }

  lemma Grouped(m: int, t: int)
    ensures m * (200 * t) == 200 * (m * t)
  {
  }

  lemma OneMore(m: int, d: int)
    ensures (m + 1) * d == m * d + d
  {
  }

  /** With n = 10^27, p = 10^10 and s = 10^k: the quotient x / c is at most p, and its digits a are at least n. */
  lemma ManyPlaces(x: nat, c: int, a: nat, s: int, n: int, p: int)
    requires 0 < c && 0 < s && x <= p * c && n <= a && 2 * (a * c - x * s) <= c
    ensures n <= p * s
  {
    Times(n, a, c);
    Times(x, p * c, s);
    Swapped(p, c, s);
    OneMore(p * s, c);
    Smaller(n, p * s + 1, c);
  }

  /** A quotient of up to 10^10 keeps at least 17 places, more than a denominator of up to 10^14 can tell apart. */
  lemma PlacesKept(x: nat, c: int, a: nat, k: nat)
    requires 0 < c <= Ten(14) && x <= Ten(10) * c
    requires Ten(27) <= a && 2 * (a * c - x * Ten(k)) <= c
    ensures 100 * c < Ten(k) && k >= 3
  {
    SmallPowers();
    ManyPlaces(x, c, a, Ten(k), Ten(27), Ten(10));
    OneMore(Ten(k), Ten(10));
    Smaller(Ten(17), Ten(k) + 1, Ten(10));
  }

  /** Between two ties of the rounding there are whole digits of the quotient, so no tie is crossed. */
  lemma NoTieCrossed(x: nat, c: int, a: nat, t: int, low: int, high: int)
    requires 0 < c < 2 * t && -c <= 2 * (a * c) - 400 * (x * t) <= c
    requires low * c <= 200 * x < high * c
    ensures low * t <= a < high * t
  {
    Times(low * c, 200 * x, t);
    Times(200 * x + 1, high * c, t);
    Swapped(low, c, t);
    Swapped(high, c, t);
    OneMore(200 * x, t);
    OneMore(a, c);
    assert 200 * x * t == 200 * (x * t);
    Smaller(low * t, a + 1, c);
    Smaller(a, high * t, c);
  }

  lemma RoundedQuotient(x: nat, c: int, a: nat, s: int, t: int)
    requires s == 200 * t && 0 < c && 100 * c < s && -c <= 2 * (a * c - x * s) <= c
    ensures HalfUp(100 * a, s) == HalfUp(100 * x, c)
  {
    var q := HalfUp(100 * x, c);
    Grouped(x, t);
    HalfUpExactly(100 * x, c, q);
    NoTieCrossed(x, c, a, t, 2 * q - 1, 2 * q + 1);
    HalfUpExactly(100 * a, s, q);
    Grouped(2 * q - 1, t);
    Grouped(2 * q + 1, t);
  }

  /**
   Computing in a decimal context of 28 digits and rounding to two places afterwards gives
   what rounding the exact quotient gives, for every quotient of up to 10^10 of at most
   10^14 parts.
   */
  lemma DecimalContextHarmless(x: nat, c: int, a: nat, k: nat)
    requires 0 < c <= Ten(14) && x <= Ten(10) * c && ContextQuotient(x, c, a, k)
    ensures HalfUp(100 * a, Ten(k)) == HalfUp(100 * x, c)
  {
    if a * c == x * Ten(k) {
      ExactQuotient(x, c, a, Ten(k));
    } else {
      PlacesKept(x, c, a, k);
      ThousandDivides(k);
      RoundedQuotient(x, c, a, Ten(k), 5 * Ten(k - 3));
    }
  }

  // ---------------------------------------------------------------- sums and order

  function Itself(): nat -> int {
    (x: nat) => x
  }

  lemma {:induction false} TotalGrows(losses: seq<nat>, more: seq<nat>)
    requires |losses| == |more| && forall i :: 0 <= i < |losses| ==> losses[i] <= more[i]
    ensures 0 <= Total(losses, Itself()) <= Total(more, Itself())
  {
    if losses != [] {
      TotalGrows(losses[1..], more[1..]);
    }
  }

  /** The indices of the items to keep. */
  ghost function Kept<T>(items: seq<T>, keep: T -> bool): set<int> {
    set k | 0 <= k < |items| && keep(items[k])
  }

  /** Filtering keeps as many items as there are indices of such items. */
  lemma {:induction false} FilterCounts<T>(items: seq<T>, keep: T -> bool)
    ensures |Filter(items, keep)| == |Kept(items, keep)|
    decreases |items|
  {
    if items != [] {
      var last := |items| - 1;
      var front := items[..last];
      assert items == front + [items[last]];
      FilterSplit(front, [items[last]], keep);
      FilterCounts(front, keep);
      assert Filter([items[last]], keep) == if keep(items[last]) then [items[last]] else [];
      assert Kept(items, keep) == Kept(front, keep) + if keep(items[last]) then {last} else {};
    }
  }

  /** The accuracy for a list of losses. */
  function AccuracyOf(scale: int, losses: seq<nat>): Result<int, AggregationError>
    requires scale >= 1 && losses != []
  {
    Accuracy(scale, HalfUp(100 * Total(losses, Itself()), |losses|))
  }

  /** Raising any losses never raises the accuracy. */
  lemma RisingLosses(scale: int, losses: seq<nat>, more: seq<nat>)
    requires scale >= 1 && losses != []
    requires |losses| == |more| && forall i :: 0 <= i < |losses| ==> losses[i] <= more[i]
    ensures AccuracyOf(scale, losses).Ok? && AccuracyOf(scale, more).Ok?
    ensures 0 <= AccuracyOf(scale, more).value <= AccuracyOf(scale, losses).value <= 10000
  {
    TotalGrows(losses, more);
    AccuracyFalls(scale, Total(losses, Itself()), Total(more, Itself()), |losses|);
    AccuracyBounds(scale, HalfUp(100 * Total(losses, Itself()), |losses|));
    AccuracyBounds(scale, HalfUp(100 * Total(more, Itself()), |losses|));
  }

  lemma {:induction false} TotalSplit<T>(items: seq<T>, more: seq<T>, value: T -> int)
    ensures Total(items + more, value) == Total(items, value) + Total(more, value)
  {
    if items == [] {
      assert items + more == more;
    } else {
      assert (items + more)[1..] == items[1..] + more;
      TotalSplit(items[1..], more, value);
    }
  }

  lemma {:induction false} FilterSplit<T>(items: seq<T>, more: seq<T>, keep: T -> bool)
    ensures Filter(items + more, keep) == Filter(items, keep) + Filter(more, keep)
  {
    if items == [] {
      assert items + more == more;
    } else {
      assert (items + more)[1..] == items[1..] + more;
      FilterSplit(items[1..], more, keep);
    }
  }

  /** Totals do not depend on the order. */
  lemma {:induction false} TotalPermuted<T>(items: seq<T>, other: seq<T>, value: T -> int)
    requires multiset(items) == multiset(other)
    ensures Total(items, value) == Total(other, value)
    decreases |items|
  {
    if items == [] {
      assert |multiset(other)| == 0;
    } else {
      assert items[0] in multiset(other);
      var k :| 0 <= k < |other| && other[k] == items[0];
      assert other == other[..k] + ([other[k]] + other[k + 1..]);
      TotalSplit(other[..k], [other[k]] + other[k + 1..], value);
      TotalSplit([other[k]], other[k + 1..], value);
      TotalSplit(other[..k], other[k + 1..], value);
      Without(items, other, k);
      TotalPermuted(items[1..], other[..k] + other[k + 1..], value);
    }
  }

  lemma Without<T>(items: seq<T>, other: seq<T>, k: nat)
    requires multiset(items) == multiset(other) && items != [] && k < |other| && other[k] == items[0]
    ensures multiset(items[1..]) == multiset(other[..k] + other[k + 1..])
  {
    assert items == [items[0]] + items[1..];
    assert other == other[..k] + [other[k]] + other[k + 1..];
    assert multiset(items) == multiset{items[0]} + multiset(items[1..]);
    assert multiset(other) == multiset(other[..k]) + multiset{other[k]} + multiset(other[k + 1..]);
    assert multiset(items[1..]) == multiset(items) - multiset{items[0]};
    assert multiset(other[..k]) + multiset(other[k + 1..]) == multiset(other) - multiset{other[k]};
  }

  lemma {:induction false} FilterPermuted<T>(items: seq<T>, other: seq<T>, keep: T -> bool)
    requires multiset(items) == multiset(other)
    ensures multiset(Filter(items, keep)) == multiset(Filter(other, keep))
    decreases |items|
  {
    if items == [] {
      assert |multiset(other)| == 0;
    } else {
      assert items[0] in multiset(other);
      var k :| 0 <= k < |other| && other[k] == items[0];
      assert other == other[..k] + ([other[k]] + other[k + 1..]);
      FilterSplit(other[..k], [other[k]] + other[k + 1..], keep);
      FilterSplit([other[k]], other[k + 1..], keep);
      FilterSplit(other[..k], other[k + 1..], keep);
      Without(items, other, k);
      FilterPermuted(items[1..], other[..k] + other[k + 1..], keep);
    }
  }

  lemma SameSize<T>(items: seq<T>, other: seq<T>)
    requires multiset(items) == multiset(other)
    ensures |items| == |other|
    ensures forall x :: x in items <==> x in other
  {
    assert |multiset(items)| == |items| && |multiset(other)| == |other|;
    assert forall x :: x in items <==> x in multiset(items);
    assert forall x :: x in other <==> x in multiset(other);
  }

  lemma {:induction false} CountsPermuted(moves: seq<Classified>, other: seq<Classified>, qualities: seq<Quality>)
    requires multiset(moves) == multiset(other)
    ensures QualityCounts(moves, qualities) == QualityCounts(other, qualities)
  {
    if qualities != [] {
      FilterPermuted(moves, other, HasQuality(qualities[0]));
      SameSize(Filter(moves, HasQuality(qualities[0])), Filter(other, HasQuality(qualities[0])));
      CountsPermuted(moves, other, qualities[1..]);
    }
  }

  /** A player's summary does not depend on the order of the moves. */
  lemma OrderIsIrrelevant(scale: int, color: Color, moves: seq<Classified>, other: seq<Classified>)
    requires scale >= 1 && multiset(moves) == multiset(other)
    ensures Summarize(scale, color, moves) == Summarize(scale, color, other)
  {
    SameSize(moves, other);
    FilterPermuted(moves, other, IsEligible());
    SameSize(Filter(moves, IsEligible()), Filter(other, IsEligible()));
    TotalPermuted(Filter(moves, IsEligible()), Filter(other, IsEligible()), LossOf());
    FilterPermuted(moves, other, HasQuality(UNCLASSIFIED));
    SameSize(Filter(moves, HasQuality(UNCLASSIFIED)), Filter(other, HasQuality(UNCLASSIFIED)));
    CountsPermuted(moves, other, QUALITIES);
  }
}
