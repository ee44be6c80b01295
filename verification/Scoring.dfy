/** Confidence and urgency of a signal: two weighted averages, each rounded half up to three
    places, the first feeding the second. */
module Scoring {
  datatype Error = NoSource | NaiveTimestamp | ObservedInTheFuture | ComponentOutOfRange
  datatype Result<+T> = Ok(value: T) | Err(error: Error)

  /** Five components, or their five weights, in the order `confidence_score` and `urgency_score` list them. */
  datatype Weighted = Weighted(a: real, b: real, c: real, d: real, e: real)

  const CONFIDENCE := Weighted(0.35, 0.25, 0.15, 0.15, 0.10)
  const URGENCY := Weighted(0.50, 0.15, 0.10, 0.15, 0.10)

  datatype Score = Score(score: real, band: nat)

  /** Least scores of bands 1, 2 and 3: LOW_CONFIDENCE, MODERATE_CONFIDENCE, HIGH_CONFIDENCE above
      UNVERIFIED, and MODERATE, HIGH, CRITICAL above LOW. */
  datatype Cuts = Cuts(low: real, mid: real, top: real)
  const CONFIDENCE_CUTS := Cuts(0.400, 0.650, 0.850)
  const URGENCY_CUTS := Cuts(0.450, 0.700, 0.850)

  predicate InRange(x: real) {
    0.0 <= x <= 1.0
  }

  predicate Valid(v: Weighted) {
    InRange(v.a) && InRange(v.b) && InRange(v.c) && InRange(v.d) && InRange(v.e)
  }

  function Term(x: real, weight: real): real {
    x * weight
  }

  function Average(v: Weighted, w: Weighted): real {
    Term(v.a, w.a) + Term(v.b, w.b) + Term(v.c, w.c) + Term(v.d, w.d) + Term(v.e, w.e)
  }

  /** `quantize(Decimal("0.001"), ROUND_HALF_UP)` of a non-negative number. */
  function Quantize(x: real): real {
    (x * 1000.0 + 0.5).Floor as real / 1000.0
  }

  function Band(score: real, cuts: Cuts): (band: nat)
    ensures band <= 3
  {
    if score >= cuts.top then 3 else if score >= cuts.mid then 2 else if score >= cuts.low then 1 else 0
  }

  /** `confidence_score` and `urgency_score`. */
  function ScoreOf(v: Weighted, w: Weighted, cuts: Cuts): Result<Score> {
    if !Valid(v) then Err(ComponentOutOfRange)
    else Ok(Score(Quantize(Average(v, w)), Band(Quantize(Average(v, w)), cuts)))
  }

  function CorroborationScore(sources: int): Result<real> {
    if sources < 1 then Err(NoSource) else if sources == 1 then Ok(0.0) else if sources == 2 then Ok(0.5) else Ok(1.0)
  }

  datatype Timestamp = Timestamp(seconds: real, aware: bool)

  function RecencyScore(observed: Timestamp, evaluated: Timestamp): Result<real> {
    var hours := (evaluated.seconds - observed.seconds) / 3600.0;
    if !observed.aware || !evaluated.aware then Err(NaiveTimestamp)
    else if hours < 0.0 then Err(ObservedInTheFuture)
    else if hours <= 24.0 then Ok(1.0)
    else if hours <= 72.0 then Ok(0.75)
    else if hours <= 168.0 then Ok(0.5)
    else if hours <= 720.0 then Ok(0.25)
    else Ok(0.0)
  }

  const INCIDENT_EVENTS: set<string> := {
    "ACTIVE_OUTAGE", "PAYMENT_RAIL_OUTAGE", "SWITCH_OUTAGE", "CARD_NETWORK_INCIDENT", "CLOUD_INCIDENT",
    "IDENTITY_INFRA_INCIDENT", "FRAUD_SPIKE", "ACCOUNT_TAKEOVER_SPIKE", "CYBERSECURITY_INCIDENT", "DATA_BREACH"
  }
  const CONFIRMED_FLAGS: set<string> := {"ACTIVE_INCIDENT", "INCIDENT_CONFIRMED", "CRITICAL_RISK_VALIDATED"}

  function IncidentScore(eventType: string, flags: set<string>): (r: real)
    ensures InRange(r)
  {
    if eventType in INCIDENT_EVENTS || CONFIRMED_FLAGS * flags != {} then 1.0 else 0.0
  }

  /** The classified signal's row, as loaded for scoring. */
  datatype Row = Row(
    reliability: real, sources: int, observed: Timestamp, quality: real, classification: real,
    urgencyWeight: real, eventType: string, flags: set<string>)

  datatype Scores = Scores(confidence: Score, urgency: Score)

  function ConfidenceParts(row: Row, corroboration: real, recency: real): Weighted {
    Weighted(row.reliability, corroboration, recency, row.quality, row.classification)
  }

  function UrgencyParts(row: Row, confidence: real, corroboration: real): Weighted {
    Weighted(row.urgencyWeight, confidence, corroboration, 0.0, IncidentScore(row.eventType, row.flags))
  }

  /** `run_scoring`, between loading the row and storing the scores. */
  function RunScoring(row: Row, now: Timestamp): Result<Scores> {
    var corroboration := CorroborationScore(row.sources);
    if corroboration.Err? then Err(corroboration.error) else
    var recency := RecencyScore(row.observed, now);
    if recency.Err? then Err(recency.error) else
    var confidence := ScoreOf(ConfidenceParts(row, corroboration.value, recency.value), CONFIDENCE, CONFIDENCE_CUTS);
    if confidence.Err? then Err(confidence.error) else
    var urgency := ScoreOf(UrgencyParts(row, confidence.value.score, corroboration.value), URGENCY, URGENCY_CUTS);
    if urgency.Err? then Err(urgency.error) else
    Ok(Scores(confidence.value, urgency.value))
  }

  // ---------------------------------------------------------------- rounding

  ghost predicate OnGrid(x: real) {
    exists k: int :: IsThousandths(x, k)
  }

  ghost predicate IsThousandths(x: real, k: int) {
    x == k as real / 1000.0
  }

  lemma QuantizeMonotone(x: real, y: real)
    requires x <= y
    ensures Quantize(x) <= Quantize(y)
  {
    assert (x * 1000.0 + 0.5).Floor <= (y * 1000.0 + 0.5).Floor;
  }

  /** The rounded value is on the grid, nearest to the exact one, ties upward; grid points stay. */
  lemma QuantizeIsNearest(x: real)
    ensures OnGrid(Quantize(x)) && x - 0.0005 < Quantize(x) <= x + 0.0005
    ensures OnGrid(x) ==> Quantize(x) == x
  {
    assert IsThousandths(Quantize(x), (x * 1000.0 + 0.5).Floor);
    if OnGrid(x) {
      var k: int :| IsThousandths(x, k);
      assert x * 1000.0 == k as real;
      assert (k as real + 0.5).Floor == k;
    }
  }

  /** A score reaches a cut on the grid iff the exact average comes within half a thousandth of it. */
  lemma ReachesIff(x: real, cut: real)
    requires OnGrid(cut)
    ensures Quantize(x) >= cut <==> x >= cut - 0.0005
  {
    var k: int :| IsThousandths(cut, k);
    var f := (x * 1000.0 + 0.5).Floor;
    assert f >= k <==> x * 1000.0 + 0.5 >= k as real;
    GridOrder(f, k);
    GridPoint(k);
  }

  lemma GridOrder(f: int, k: int)
    ensures f as real / 1000.0 >= k as real / 1000.0 <==> f >= k
  {
  }

  lemma GridPoint(k: int)
    ensures k as real / 1000.0 * 1000.0 == k as real
  {
  }

  // ---------------------------------------------------------------- one score

  ghost predicate SumsToOne(w: Weighted) {
    w.a + w.b + w.c + w.d + w.e == 1.0 && w.a >= 0.0 && w.b >= 0.0 && w.c >= 0.0 && w.d >= 0.0 && w.e >= 0.0
  }

  predicate Below(v: Weighted, u: Weighted) {
    v.a <= u.a && v.b <= u.b && v.c <= u.c && v.d <= u.d && v.e <= u.e
  }

  lemma TermMonotone(x: real, y: real, w: real)
    requires x <= y && w >= 0.0
    ensures Term(x, w) <= Term(y, w)
  {
    assert (y - x) * w >= 0.0;
  }

  lemma AverageMonotone(v: Weighted, u: Weighted, w: Weighted)
    requires Below(v, u) && SumsToOne(w)
    ensures Average(v, w) <= Average(u, w)
  {
    hide Term;
    TermMonotone(v.a, u.a, w.a);
    TermMonotone(v.b, u.b, w.b);
    TermMonotone(v.c, u.c, w.c);
    TermMonotone(v.d, u.d, w.d);
    TermMonotone(v.e, u.e, w.e);
  }

  lemma AverageOfConstant(x: real, w: Weighted)
    requires SumsToOne(w)
    ensures Average(Weighted(x, x, x, x, x), w) == x
  {
    assert x * w.a + x * w.b + x * w.c + x * w.d + x * w.e == x * (w.a + w.b + w.c + w.d + w.e);
  }

  /** Whatever bounds the components bounds the score, after rounding the bound; on the 0.001 grid,
      the score lies between its least and greatest component. */
  lemma ScoreIsBetween(v: Weighted, w: Weighted, cuts: Cuts, lo: real, hi: real)
    requires Valid(v) && SumsToOne(w)
    requires Below(Weighted(lo, lo, lo, lo, lo), v) && Below(v, Weighted(hi, hi, hi, hi, hi))
    ensures var s := ScoreOf(v, w, cuts).value.score;
            && Quantize(lo) <= s <= Quantize(hi)
            && (OnGrid(lo) ==> lo <= s)
            && (OnGrid(hi) ==> s <= hi)
  {
    var l, h := Weighted(lo, lo, lo, lo, lo), Weighted(hi, hi, hi, hi, hi);
    AverageMonotone(l, v, w);
    AverageMonotone(v, h, w);
    AverageOfConstant(lo, w);
    AverageOfConstant(hi, w);
    QuantizeMonotone(lo, Average(v, w));
    QuantizeMonotone(Average(v, w), hi);
    QuantizeIsNearest(lo);
    QuantizeIsNearest(hi);
  }

  ghost predicate CutsOnGrid(cuts: Cuts) {
    OnGrid(cuts.low) && OnGrid(cuts.mid) && OnGrid(cuts.top) && cuts.low < cuts.mid < cuts.top
  }

  lemma ConstantsAreSound()
    ensures SumsToOne(CONFIDENCE) && SumsToOne(URGENCY)
    ensures CutsOnGrid(CONFIDENCE_CUTS) && CutsOnGrid(URGENCY_CUTS)
  {
    assert IsThousandths(0.4, 400) && IsThousandths(0.65, 650) && IsThousandths(0.85, 850);
    assert IsThousandths(0.45, 450) && IsThousandths(0.7, 700);
  }

  /** The score stays at or below a bound exactly when the average rounds to the grid point under it;
      for a bound on the grid that is no condition at all. */
  lemma AtMostIff(v: Weighted, w: Weighted, cuts: Cuts, hi: real, k: int)
    requires Valid(v) && k as real / 1000.0 <= hi < (k + 1) as real / 1000.0
    ensures ScoreOf(v, w, cuts).value.score <= hi <==> Average(v, w) < k as real / 1000.0 + 0.0005
  {
    var next := (k + 1) as real / 1000.0;
    assert IsThousandths(next, k + 1);
    ReachesIff(Average(v, w), next);
    BelowNext(Average(v, w), hi, k);
    assert next == k as real / 1000.0 + 0.001;
    hide Average, Quantize;
  }

  lemma BelowNext(x: real, hi: real, k: int)
    requires k as real / 1000.0 <= hi < (k + 1) as real / 1000.0
    ensures Quantize(x) <= hi <==> Quantize(x) < (k + 1) as real / 1000.0
  {
    var f := (x * 1000.0 + 0.5).Floor;
    GridOrder(k, f);
    GridOrder(f, k + 1);
  }

  /** The lower bound likewise: the average must round to the grid point above it. */
  lemma AtLeastIff(v: Weighted, w: Weighted, cuts: Cuts, lo: real, k: int)
    requires Valid(v) && (k - 1) as real / 1000.0 < lo <= k as real / 1000.0
    ensures ScoreOf(v, w, cuts).value.score >= lo <==> Average(v, w) >= k as real / 1000.0 - 0.0005
  {
    var point := k as real / 1000.0;
    assert IsThousandths(point, k);
    ReachesIff(Average(v, w), point);
    AbovePrevious(Average(v, w), lo, k);
    hide Average, Quantize;
  }

  lemma AbovePrevious(x: real, lo: real, k: int)
    requires (k - 1) as real / 1000.0 < lo <= k as real / 1000.0
    ensures Quantize(x) >= lo <==> Quantize(x) >= k as real / 1000.0
  {
    var f := (x * 1000.0 + 0.5).Floor;
    GridOrder(f, k);
    GridOrder(k - 1, f);
  }

  lemma ScoreOfConstant(x: real, w: Weighted, cuts: Cuts)
    requires InRange(x) && SumsToOne(w)
    ensures ScoreOf(Weighted(x, x, x, x, x), w, cuts) == Ok(Score(Quantize(x), Band(Quantize(x), cuts)))
  {
    AverageOfConstant(x, w);
  }

  /** Equal components can be left on either side: a common value is exceeded by its own score exactly
      from the middle between two grid points on, and undercut exactly before it. */
  lemma EqualComponentsAreMissedIff(x: real, w: Weighted, cuts: Cuts, k: int)
    requires InRange(x) && SumsToOne(w) && k as real / 1000.0 < x < (k + 1) as real / 1000.0
    ensures var s := ScoreOf(Weighted(x, x, x, x, x), w, cuts).value.score;
            (s > x <==> x >= k as real / 1000.0 + 0.0005) && (s < x <==> x < k as real / 1000.0 + 0.0005)
  {
    var v := Weighted(x, x, x, x, x);
    ScoreOfConstant(x, w, cuts);
    AverageOfConstant(x, w);
    AtMostIff(v, w, cuts, x, k);
    AtLeastIff(v, w, cuts, x, k + 1);
    hide Average, Quantize;
    assert (k + 1) as real / 1000.0 == k as real / 1000.0 + 0.001;
  }

  /** Bands agree with scores: a band starts exactly half a thousandth below its cut, on the exact
      average, and a lower average is never in a higher band. */
  lemma BandIff(v: Weighted, w: Weighted, cuts: Cuts)
    requires Valid(v) && CutsOnGrid(cuts)
    ensures var band := ScoreOf(v, w, cuts).value.band;
            && (band >= 1 <==> Average(v, w) >= cuts.low - 0.0005)
            && (band >= 2 <==> Average(v, w) >= cuts.mid - 0.0005)
            && (band >= 3 <==> Average(v, w) >= cuts.top - 0.0005)
  {
    ReachesIff(Average(v, w), cuts.low);
    ReachesIff(Average(v, w), cuts.mid);
    ReachesIff(Average(v, w), cuts.top);
  }

  lemma ScoreMonotone(v: Weighted, u: Weighted, w: Weighted, cuts: Cuts)
    requires Valid(v) && Valid(u) && Below(v, u) && SumsToOne(w)
    ensures ScoreOf(v, w, cuts).value.score <= ScoreOf(u, w, cuts).value.score
    ensures cuts.low < cuts.mid < cuts.top ==> ScoreOf(v, w, cuts).value.band <= ScoreOf(u, w, cuts).value.band
  {
    AverageMonotone(v, u, w);
    QuantizeMonotone(Average(v, w), Average(u, w));
  }

  // ---------------------------------------------------------------- both stages

  predicate Usable(row: Row, now: Timestamp) {
    && row.sources >= 1
    && row.observed.aware && now.aware && row.observed.seconds <= now.seconds
    && InRange(row.reliability) && InRange(row.quality) && InRange(row.classification) && InRange(row.urgencyWeight)
  }

  /** Scoring succeeds exactly on usable rows: the confidence computed by the first stage always
      passes the validation of the second. Both scores are on the grid in [0, 1]. */
  lemma ScoringSucceedsIff(row: Row, now: Timestamp)
    ensures RunScoring(row, now).Ok? <==> Usable(row, now)
    ensures var r := RunScoring(row, now);
            r.Ok? ==>
              && InRange(r.value.confidence.score) && OnGrid(r.value.confidence.score)
              && InRange(r.value.urgency.score) && OnGrid(r.value.urgency.score)
  {
    ConstantsAreSound();
    assert IsThousandths(0.0, 0) && IsThousandths(1.0, 1000);
    var c, t := CorroborationScore(row.sources), RecencyScore(row.observed, now);
    if c.Ok? && t.Ok? {
      var v := ConfidenceParts(row, c.value, t.value);
      if Valid(v) {
        ScoreIsBetween(v, CONFIDENCE, CONFIDENCE_CUTS, 0.0, 1.0);
        QuantizeIsNearest(Average(v, CONFIDENCE));
        var u := UrgencyParts(row, Quantize(Average(v, CONFIDENCE)), c.value);
        if Valid(u) {
          ScoreIsBetween(u, URGENCY, URGENCY_CUTS, 0.0, 1.0);
          QuantizeIsNearest(Average(u, URGENCY));
        }
      }
    }
  }

  /** `better` is at least as reliable, corroborated, recent, resolved and classified as `row`. */
  predicate NoWorse(row: Row, now: Timestamp, better: Row, later: Timestamp) {
    && row.reliability <= better.reliability && row.sources <= better.sources
    && later.seconds - better.observed.seconds <= now.seconds - row.observed.seconds
    && row.quality <= better.quality && row.classification <= better.classification
    && row.urgencyWeight == better.urgencyWeight && row.eventType == better.eventType && row.flags <= better.flags
  }

  /** Through both rounded stages, better evidence never lowers confidence, urgency or either band. */
  lemma BetterEvidenceNeverHurts(row: Row, now: Timestamp, better: Row, later: Timestamp)
    requires Usable(row, now) && Usable(better, later) && NoWorse(row, now, better, later)
    ensures RunScoring(row, now).Ok? && RunScoring(better, later).Ok?
    ensures var r, s := RunScoring(row, now).value, RunScoring(better, later).value;
            && r.confidence.score <= s.confidence.score && r.confidence.band <= s.confidence.band
            && r.urgency.score <= s.urgency.score && r.urgency.band <= s.urgency.band
  {
    ConstantsAreSound();
    ScoringSucceedsIff(row, now);
    ScoringSucceedsIff(better, later);
    var c, c' := CorroborationScore(row.sources).value, CorroborationScore(better.sources).value;
    var t, t' := RecencyScore(row.observed, now).value, RecencyScore(better.observed, later).value;
    var v, v' := ConfidenceParts(row, c, t), ConfidenceParts(better, c', t');
    RecencyMonotone(row.observed, now, better.observed, later);
    ScoreMonotone(v, v', CONFIDENCE, CONFIDENCE_CUTS);
    var u, u' := UrgencyParts(row, Quantize(Average(v, CONFIDENCE)), c),
        UrgencyParts(better, Quantize(Average(v', CONFIDENCE)), c');
    IncidentMonotone(row.eventType, row.flags, better.flags);
    ScoreMonotone(u, u', URGENCY, URGENCY_CUTS);
  }

  lemma RecencyMonotone(observed: Timestamp, now: Timestamp, observed': Timestamp, now': Timestamp)
    requires observed.aware && now.aware && observed'.aware && now'.aware
    requires 0.0 <= now'.seconds - observed'.seconds <= now.seconds - observed.seconds
    ensures RecencyScore(observed, now).Ok? && RecencyScore(observed', now').Ok?
    ensures RecencyScore(observed, now).value <= RecencyScore(observed', now').value
  {
  }

  lemma IncidentMonotone(eventType: string, flags: set<string>, more: set<string>)
    requires flags <= more
    ensures IncidentScore(eventType, flags) <= IncidentScore(eventType, more)
  {
    assert CONFIRMED_FLAGS * flags <= CONFIRMED_FLAGS * more;
  }

  // ---------------------------------------------------------------- betweenness in the pipeline

  function Lesser(x: real, y: real): real {
    if x <= y then x else y
  }

  function Greater(x: real, y: real): real {
    if x <= y then y else x
  }

  function Least(v: Weighted): real {
    Lesser(Lesser(Lesser(Lesser(v.a, v.b), v.c), v.d), v.e)
  }

  function Greatest(v: Weighted): real {
    Greater(Greater(Greater(Greater(v.a, v.b), v.c), v.d), v.e)
  }

  /** All components but the fourth, the entity quality, are on the grid. */
  ghost predicate GridButQuality(v: Weighted) {
    OnGrid(v.a) && OnGrid(v.b) && OnGrid(v.c) && OnGrid(v.e)
  }

  lemma AverageAround(x: real, y: real, w: Weighted)
    requires SumsToOne(w)
    ensures Average(Weighted(x, x, x, y, x), w) == x + Term(y - x, w.d)
  {
    assert x * w.a + x * w.b + x * w.c + x * w.d + x * w.e == x * (w.a + w.b + w.c + w.d + w.e);
    assert (y - x) * w.d == y * w.d - x * w.d;
  }

  lemma HalfOf(x: real, weight: real)
    requires 0.0 <= x < 0.001 && 0.0 <= weight <= 0.5
    ensures 0.0 <= Term(x, weight) < 0.0005 && Term(-x, weight) == -Term(x, weight)
  {
    assert x * weight <= x * 0.5;
    assert (-x) * weight == -(x * weight);
  }

  lemma GridBelow(x: real, y: real, k: int)
    requires OnGrid(x) && x <= y < (k + 1) as real / 1000.0
    ensures x <= k as real / 1000.0
  {
    var j: int :| IsThousandths(x, j);
    GridOrder(j, k + 1);
    GridOrder(k, j);
  }

  lemma GridAbove(x: real, y: real, k: int)
    requires OnGrid(x) && (k - 1) as real / 1000.0 < y <= x
    ensures x >= k as real / 1000.0
  {
    var j: int :| IsThousandths(x, j);
    GridOrder(k - 1, j);
    GridOrder(j, k);
  }

  lemma GridFloor(x: real) returns (k: int)
    ensures k as real / 1000.0 <= x < (k + 1) as real / 1000.0
  {
    k := (x * 1000.0).Floor;
  }

  lemma AtMostGreatest(v: Weighted, w: Weighted, cuts: Cuts)
    requires Valid(v) && SumsToOne(w) && GridButQuality(v) && w.d <= 0.5
    ensures ScoreOf(v, w, cuts).value.score <= Greatest(v)
  {
    var hi := Greatest(v);
    var k := GridFloor(hi);
    var point := k as real / 1000.0;
    if OnGrid(hi) {
      ScoreIsBetween(v, w, cuts, Least(v), hi);
    } else {
      assert hi == v.d;
      GridBelow(v.a, hi, k);
      GridBelow(v.b, hi, k);
      GridBelow(v.c, hi, k);
      GridBelow(v.e, hi, k);
      AverageMonotone(v, Weighted(point, point, point, hi, point), w);
      AverageAround(point, hi, w);
      assert hi - point < 0.001 by { assert (k + 1) as real / 1000.0 == point + 0.001; }
      HalfOf(hi - point, w.d);
      AtMostIff(v, w, cuts, hi, k);
    }
  }

  lemma AtLeastLeast(v: Weighted, w: Weighted, cuts: Cuts)
    requires Valid(v) && SumsToOne(w) && GridButQuality(v) && w.d <= 0.5
    ensures Least(v) <= ScoreOf(v, w, cuts).value.score
  {
    var lo := Least(v);
    var k := GridFloor(lo);
    k := k + 1;
    var point := k as real / 1000.0;
    if OnGrid(lo) {
      ScoreIsBetween(v, w, cuts, lo, Greatest(v));
    } else {
      assert lo == v.d && !IsThousandths(lo, k - 1);
      GridAbove(v.a, lo, k);
      GridAbove(v.b, lo, k);
      GridAbove(v.c, lo, k);
      GridAbove(v.e, lo, k);
      AverageMonotone(Weighted(point, point, point, lo, point), v, w);
      AverageAround(point, lo, w);
      assert point - lo < 0.001 by { assert (k - 1) as real / 1000.0 == point - 0.001; }
      HalfOf(point - lo, w.d);
      AtLeastIff(v, w, cuts, lo, k);
    }
  }

  lemma PipelineGrid(row: Row, now: Timestamp)
    requires Usable(row, now)
    ensures CorroborationScore(row.sources).Ok? && OnGrid(CorroborationScore(row.sources).value)
    ensures RecencyScore(row.observed, now).Ok? && OnGrid(RecencyScore(row.observed, now).value)
    ensures OnGrid(0.0) && OnGrid(IncidentScore(row.eventType, row.flags))
  {
    assert IsThousandths(0.0, 0) && IsThousandths(0.25, 250) && IsThousandths(0.5, 500);
    assert IsThousandths(0.75, 750) && IsThousandths(1.0, 1000);
  }

  /** What the pipeline stores always lies between its least and greatest component, although the
      entity quality is an average and need not be on the grid: its weight is less than one half. */
  lemma StoredScoresAreBetween(row: Row, now: Timestamp)
    requires Usable(row, now) && OnGrid(row.reliability) && OnGrid(row.classification) && OnGrid(row.urgencyWeight)
    ensures RunScoring(row, now).Ok?
    ensures var r := RunScoring(row, now).value;
            var corroboration, recency := CorroborationScore(row.sources).value, RecencyScore(row.observed, now).value;
            var v, u := ConfidenceParts(row, corroboration, recency),
                UrgencyParts(row, r.confidence.score, corroboration);
            && Least(v) <= r.confidence.score <= Greatest(v)
            && Least(u) <= r.urgency.score <= Greatest(u)
  {
    ConstantsAreSound();
    ScoringSucceedsIff(row, now);
    PipelineGrid(row, now);
    var r := RunScoring(row, now).value;
    var corroboration, recency := CorroborationScore(row.sources).value, RecencyScore(row.observed, now).value;
    var v, u := ConfidenceParts(row, corroboration, recency), UrgencyParts(row, r.confidence.score, corroboration);
    AtMostGreatest(v, CONFIDENCE, CONFIDENCE_CUTS);
    AtLeastLeast(v, CONFIDENCE, CONFIDENCE_CUTS);
    AtMostGreatest(u, URGENCY, URGENCY_CUTS);
    AtLeastLeast(u, URGENCY, URGENCY_CUTS);
  }

  // ---------------------------------------------------------------- from the row

  /** One source counts 0, two count 1/2, more count 1. */
  predicate IsCorroboration(sources: int, c: real) {
    (sources == 1 ==> c == 0.0) && (sources == 2 ==> c == 0.5) && (sources >= 3 ==> c == 1.0)
  }

  /** One day, three days, a week and thirty days, in seconds. */
  predicate IsRecency(age: real, r: real) {
    && (age <= 86_400.0 ==> r == 1.0)
    && (86_400.0 < age <= 259_200.0 ==> r == 0.75)
    && (259_200.0 < age <= 604_800.0 ==> r == 0.5)
    && (604_800.0 < age <= 2_592_000.0 ==> r == 0.25)
    && (age > 2_592_000.0 ==> r == 0.0)
  }

  predicate IsIncident(row: Row) {
    || row.eventType in {"ACTIVE_OUTAGE", "PAYMENT_RAIL_OUTAGE", "SWITCH_OUTAGE", "CARD_NETWORK_INCIDENT",
                         "CLOUD_INCIDENT", "IDENTITY_INFRA_INCIDENT", "FRAUD_SPIKE", "ACCOUNT_TAKEOVER_SPIKE",
                         "CYBERSECURITY_INCIDENT", "DATA_BREACH"}
    || "ACTIVE_INCIDENT" in row.flags || "INCIDENT_CONFIRMED" in row.flags || "CRITICAL_RISK_VALIDATED" in row.flags
  }

  /** The nearest thousandth, ties upward. */
  ghost predicate IsRounded(score: real, x: real) {
    OnGrid(score) && x - 0.0005 < score <= x + 0.0005
  }

  /** Bands 1, 2 and 3 start at these scores. */
  predicate IsBand(score: real, band: nat, low: real, mid: real, top: real) {
    (band >= 1 <==> score >= low) && (band >= 2 <==> score >= mid) && (band >= 3 <==> score >= top) && band <= 3
  }

  lemma IncidentIff(row: Row)
    ensures IncidentScore(row.eventType, row.flags) == if IsIncident(row) then 1.0 else 0.0
  {
    if f :| f in CONFIRMED_FLAGS * row.flags {
      assert f in CONFIRMED_FLAGS && f in row.flags;
    }
    assert "ACTIVE_INCIDENT" in CONFIRMED_FLAGS && "INCIDENT_CONFIRMED" in CONFIRMED_FLAGS &&
           "CRITICAL_RISK_VALIDATED" in CONFIRMED_FLAGS;
    if f :| f in {"ACTIVE_INCIDENT", "INCIDENT_CONFIRMED", "CRITICAL_RISK_VALIDATED"} && f in row.flags {
      assert f in CONFIRMED_FLAGS * row.flags;
    }
  }

  lemma ComponentsInPlainTerms(row: Row, now: Timestamp)
    requires Usable(row, now)
    ensures CorroborationScore(row.sources).Ok? && IsCorroboration(row.sources, CorroborationScore(row.sources).value)
    ensures RecencyScore(row.observed, now).Ok?
    ensures IsRecency(now.seconds - row.observed.seconds, RecencyScore(row.observed, now).value)
  {
  }

  /** .35, .25, .15, .15 and .10 make the confidence; .50, .15, .10, nothing for a deadline, and .10 make
      the urgency out of the rounded confidence. */
  ghost predicate AreScores(row: Row, now: Timestamp, c: real, t: real, r: Scores) {
    && IsCorroboration(row.sources, c) && IsRecency(now.seconds - row.observed.seconds, t)
    && IsRounded(r.confidence.score, row.reliability * 0.35 + c * 0.25 + t * 0.15 + row.quality * 0.15 +
                                     row.classification * 0.10)
    && IsRounded(r.urgency.score, row.urgencyWeight * 0.50 + r.confidence.score * 0.15 + c * 0.10 +
                                  (if IsIncident(row) then 0.10 else 0.0))
  }

  /** Both stored scores and bands, from the row. */
  lemma ScoresInPlainTerms(row: Row, now: Timestamp)
    requires Usable(row, now)
    ensures RunScoring(row, now).Ok?
    ensures exists c: real, t: real :: AreScores(row, now, c, t, RunScoring(row, now).value)
    ensures var r := RunScoring(row, now).value;
            && IsBand(r.confidence.score, r.confidence.band, 0.400, 0.650, 0.850)
            && IsBand(r.urgency.score, r.urgency.band, 0.450, 0.700, 0.850)
  {
    ScoringSucceedsIff(row, now);
    ComponentsInPlainTerms(row, now);
    IncidentIff(row);
    var c, t := CorroborationScore(row.sources).value, RecencyScore(row.observed, now).value;
    var v := ConfidenceParts(row, c, t);
    var u := UrgencyParts(row, Quantize(Average(v, CONFIDENCE)), c);
    QuantizeIsNearest(Average(v, CONFIDENCE));
    QuantizeIsNearest(Average(u, URGENCY));
    hide Quantize, IsIncident, IncidentScore, CorroborationScore, RecencyScore, IsCorroboration, IsRecency, OnGrid;
    assert AreScores(row, now, c, t, RunScoring(row, now).value);
  }

  /** A row that is not usable fails for the first of these reasons. */
  lemma FailureInPlainTerms(row: Row, now: Timestamp)
    ensures var r := RunScoring(row, now);
            && (r == Err(NoSource) <==> row.sources < 1)
            && (r == Err(NaiveTimestamp) <==> row.sources >= 1 && (!row.observed.aware || !now.aware))
            && (r == Err(ObservedInTheFuture) <==>
                row.sources >= 1 && row.observed.aware && now.aware && row.observed.seconds > now.seconds)
  {
    hide Quantize, IncidentScore;
  }
}
