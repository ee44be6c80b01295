/** The decision engine: relevance scoring in 28-digit decimals, rule matching and personal priority.
    Scores are in thousandths; `mentions` is case-folded containment in the evidence text. */
module Relevance {
  import opened Seqs
  import opened Fx
  import D = Decimals

  datatype ContextObject = ContextObject(id: nat, objectType: string, name: string, entity: Option<nat>)
  datatype Conditions = Conditions(eventTypes: seq<string>, required: Option<string>, anyRequired: seq<string>)
  datatype RuleOutput = RuleOutput(
    exposures: seq<string>, stakes: seq<string>, owners: seq<string>, decisionRequired: bool,
    decisionType: Option<string>)
  datatype Rule = Rule(code: string, domain: string, priority: int, conditions: Conditions, output: RuleOutput,
                       version: string)
  datatype Input = Input(
    domain: string, eventType: string, urgency: nat, entities: set<nat>, regions: set<string>,
    mentions: string -> bool, markets: set<string>, priorities: set<string>,
    objects: seq<ContextObject>, rules: seq<Rule>)
  datatype Band = LOW | STANDARD | HIGH | CRITICAL
  datatype Assessment = Assessment(
    score: nat, band: Band, matched: seq<ContextObject>, exposures: seq<string>, stakes: seq<string>,
    decisionRequired: bool, decisionType: Option<string>, owners: seq<string>, ruleCodes: seq<string>,
    ruleVersion: string, noContextMatch: bool)
  datatype Result = Ok(assessment: Assessment) | NoActiveRule | MixedVersions

  // ---------------------------------------------------------------- the score

  /** The weights of `assess_relevance` are hundredths. */
  function Hundredths(d: nat): nat { d * D.CENT }

  function Flag(b: bool): nat { if b then D.UNIT else 0 }

  /** `min(Decimal(len(matched)) / Decimal(3), Decimal(1))`. */
  function ObjectMatch(matched: nat): nat { Min(D.Div(matched * D.UNIT, 3), D.UNIT) }

  /** The weighted sum exactly as the decimal context evaluates it, then `_q`. */
  function WeightedSum(matched: nat, applicable: bool, urgency: nat, entity: bool, strategic: bool): nat {
    var a := D.Mul(Flag(applicable), Hundredths(40));
    var b := D.Add(a, D.Mul(ObjectMatch(matched), Hundredths(20)));
    var c := D.Add(b, D.Mul(urgency * D.MILLI, Hundredths(15)));
    var d := D.Add(c, D.Mul(Flag(entity), Hundredths(10)));
    D.Add(d, D.Mul(Flag(strategic), Hundredths(10)))
  }

  function DecimalScore(matched: nat, applicable: bool, urgency: nat, entity: bool, strategic: bool): nat {
    D.Thousandths(Min(WeightedSum(matched, applicable, urgency, entity, strategic), D.UNIT))
  }

  /** The same weights over exact rationals, in 300000ths. */
  function ExactSum(matched: nat, applicable: bool, urgency: nat, entity: bool, strategic: bool): nat {
    (if applicable then 120_000 else 0) + 20_000 * Min(matched, 3) + 45 * urgency
    + (if entity then 30_000 else 0) + (if strategic then 30_000 else 0)
  }

  function ExactScore(matched: nat, applicable: bool, urgency: nat, entity: bool, strategic: bool): nat {
    HalfUp(ExactSum(matched, applicable, urgency, entity, strategic), 300)
  }

  /** The object term m/3 * 0.20 is off by less than a unit of the 26th decimal, and exact for 0 and 3. */
  lemma ObjectTerm(matched: nat)
    ensures var t, m := D.Mul(ObjectMatch(matched), Hundredths(20)), Min(matched, 3);
            && -2_000_000 <= 15 * t - m * D.UNIT <= 2_000_000
            && (m in {0, 3} ==> 15 * t == m * D.UNIT && t % 100_000 == 0)
  {
    if matched == 0 {
      D.RoundExact(0, 3);
      D.MulFlag(false, Hundredths(20));
    } else if matched >= 3 {
      D.RoundAtLeastOne(matched * D.UNIT, 3);
      D.MulFlag(true, Hundredths(20));
    } else {
      D.RoundNear(matched * D.UNIT, 3);
      var o := D.Div(matched * D.UNIT, 3);
      FifthOf(o);
    }
  }

  lemma FifthOf(o: nat)
    requires o < D.UNIT
    ensures -250_000 <= 5 * D.Mul(o, Hundredths(20)) - o <= 250_000
  {
    D.RoundNear(o * Hundredths(20), D.UNIT);
    assert 5 * (o * Hundredths(20)) == o * D.UNIT;
  }

  lemma UrgencyTerm(urgency: nat)
    requires urgency <= 1000
    ensures D.Mul(urgency * D.MILLI, Hundredths(15)) == 15 * urgency * D.TINY
  {
    D.MulExact(urgency * D.MILLI, Hundredths(15), 15 * urgency * D.TINY);
  }

  function Term(b: bool, w: nat): nat { if b then w else 0 }

  /** The decimal sum is within 10^-25 of the exact one, and equal to it without thirds. */
  lemma SumNear(matched: nat, applicable: bool, urgency: nat, entity: bool, strategic: bool)
    requires urgency <= 1000
    ensures Close(WeightedSum(matched, applicable, urgency, entity, strategic),
                  ExactSum(matched, applicable, urgency, entity, strategic), Min(matched, 3))
  {
    hide D.Round28;
    ObjectTerm(matched);
    UrgencyTerm(urgency);
    D.MulFlag(applicable, Hundredths(40));
    D.MulFlag(entity, Hundredths(10));
    D.MulFlag(strategic, Hundredths(10));
    AddedNear(D.Mul(ObjectMatch(matched), Hundredths(20)), Min(matched, 3), applicable, urgency, entity, strategic);
  }

  function Added(t: nat, applicable: bool, urgency: nat, entity: bool, strategic: bool): nat {
    D.Add(D.Add(D.Add(D.Add(Term(applicable, Hundredths(40)), t), 15 * urgency * D.TINY), Term(entity, Hundredths(10))),
          Term(strategic, Hundredths(10)))
  }

  lemma FewDigits(urgency: nat)
    ensures (15 * urgency * D.TINY) % 100_000 == 0
  {
    var k := 15 * urgency * (D.TINY / 100_000);
    assert 15 * urgency * D.TINY == 100_000 * k;
  }

  lemma AddedNear(t: nat, m: nat, applicable: bool, urgency: nat, entity: bool, strategic: bool)
    requires m <= 3 && urgency <= 1000
    requires -2_000_000 <= 15 * t - m * D.UNIT <= 2_000_000 &&
             (m in {0, 3} ==> 15 * t == m * D.UNIT && t % 100_000 == 0)
    ensures Close(Added(t, applicable, urgency, entity, strategic),
                  Term(applicable, 120_000) + 20_000 * m + 45 * urgency + Term(entity, 30_000) +
                  Term(strategic, 30_000), m)
  {
    hide D.Round28;
    var a, u := Term(applicable, Hundredths(40)), 15 * urgency * D.TINY;
    var e, f := Term(entity, Hundredths(10)), Term(strategic, Hundredths(10));
    FewDigits(urgency);
    D.SumOfFive(a, t, u, e, f);
    var w := Added(t, applicable, urgency, entity, strategic);
    var ab: nat, abc: nat, abcd: nat :| D.AddedTo(a, t, ab) && D.AddedTo(ab, u, abc) && D.AddedTo(abc, e, abcd) &&
        D.AddedTo(abcd, f, w);
    D.FiveTerms(a, t, u, e, f, ab, abc, abcd, w);
    ScaleUp(t, m, applicable, urgency, entity, strategic, w);
  }

  /** w units of 10^-32 against n 300000ths; m thirds went into n. */
  ghost predicate Close(w: nat, n: nat, m: nat) {
    && -5_000_000 <= 15 * w - 5 * n * D.TINY <= 5_000_000
    && (m in {0, 3} ==> 15 * w == 5 * n * D.TINY)
    && (m in {1, 2} ==> n % 3 != 0)
    && m <= 3 && n <= 285_000
  }

  lemma ScaleUp(t: nat, m: nat, applicable: bool, urgency: nat, entity: bool, strategic: bool, w: nat)
    requires m <= 3 && urgency <= 1000
    requires -2_000_000 <= 15 * t - m * D.UNIT <= 2_000_000 &&
             (m in {0, 3} ==> 15 * t == m * D.UNIT && t % 100_000 == 0)
    requires var s := Term(applicable, Hundredths(40)) + t + 15 * urgency * D.TINY + Term(entity, Hundredths(10)) +
             Term(strategic, Hundredths(10));
             -200_000 <= w - s <= 200_000 && (t % 100_000 == 0 ==> w == s)
    ensures Close(w,
                  Term(applicable, 120_000) + 20_000 * m + 45 * urgency + Term(entity, 30_000) +
                  Term(strategic, 30_000), m)
  {
  }

  lemma RoundsAlike(w: nat, n: nat, m: nat)
    requires Close(w, n, m)
    ensures D.Thousandths(w) == HalfUp(n, 300) && w < D.UNIT
  {
    var k := HalfUp(n, 300);
    HalfUpIsNearest(n, 300, k);
    HalfUpIsNearest(w, D.MILLI, k);
    hide HalfUp;
    var x, e := 2 * n + 300 - 600 * k, 15 * w - 5 * n * D.TINY;
    assert 15 * (2 * w + D.MILLI) == 5 * D.TINY * x + 2 * e + 15 * (2 * k * D.MILLI);
    if m in {1, 2} {
      assert (2 * n + 300) % 3 != 0;
      assert x != 0;
    }
  }

  /** Half-up at 0.001 cannot tell the two sums apart: with one or two thirds the exact sum is never
      on a rounding boundary, because its numerator is not a multiple of three. And the clamp at one
      is never reached. */
  lemma DecimalThirdsAreHarmless(matched: nat, applicable: bool, urgency: nat, entity: bool, strategic: bool)
    requires urgency <= 1000
    ensures DecimalScore(matched, applicable, urgency, entity, strategic) ==
            ExactScore(matched, applicable, urgency, entity, strategic)
    ensures WeightedSum(matched, applicable, urgency, entity, strategic) < D.UNIT
  {
    hide D.Round28;
    SumNear(matched, applicable, urgency, entity, strategic);
    RoundsAlike(WeightedSum(matched, applicable, urgency, entity, strategic),
                ExactSum(matched, applicable, urgency, entity, strategic), Min(matched, 3));
  }

  // ---------------------------------------------------------------- assessment

  predicate ObjectMatches(values: Input, o: ContextObject) {
    || (o.entity.Some? && o.entity.value in values.entities)
    || (o.objectType == "MARKET" && o.name in values.regions)
    || values.mentions(o.name)
  }

  function Matched(values: Input): seq<ContextObject> {
    Filter(values.objects, (o: ContextObject) => ObjectMatches(values, o))
  }

  predicate EntityMatch(values: Input, matched: seq<ContextObject>) {
    exists i :: 0 <= i < |matched| && matched[i].entity.Some? && matched[i].entity.value in values.entities
  }

  predicate StrategicMatch(values: Input) {
    exists term :: term in values.priorities && values.mentions(term)
  }

  predicate Applicable(values: Input) {
    Matched(values) != [] || values.markets * values.regions != {}
  }

  function RelevanceScore(values: Input): nat {
    DecimalScore(|Matched(values)|, Applicable(values), values.urgency, EntityMatch(values, Matched(values)),
                 StrategicMatch(values))
  }

  /** `_CONTEXT_TYPE_MAP.get(value, value)`. */
  function ContextType(value: string): string {
    if value == "INFRASTRUCTURE_DEPENDENCY" then "DEPENDENCY" else value
  }

  predicate HasType(matched: seq<ContextObject>, objectType: string) {
    exists i :: 0 <= i < |matched| && matched[i].objectType == objectType
  }

  /** `_required_context_matches`. */
  predicate ContextSatisfied(conditions: Conditions, matched: seq<ContextObject>) {
    && (conditions.required.Some? && conditions.required.value != "" ==>
        HasType(matched, ContextType(conditions.required.value)))
    && (conditions.anyRequired != [] ==>
          exists i :: 0 <= i < |conditions.anyRequired| && HasType(matched, ContextType(conditions.anyRequired[i])))
  }

  predicate RuleFires(values: Input, rule: Rule) {
    rule.domain == values.domain && values.eventType in rule.conditions.eventTypes &&
    ContextSatisfied(rule.conditions, Matched(values))
  }

  function FiredRules(values: Input): seq<Rule> {
    Filter(StableSort(values.rules, (a: Rule, b: Rule) => a.priority <= b.priority), (r: Rule) => RuleFires(values, r))
  }

  function Gather(rules: seq<Rule>, pick: RuleOutput -> seq<string>): seq<string> {
    if rules == [] then [] else pick(rules[0].output) + Gather(rules[1..], pick)
  }

  function FirstDecision(rules: seq<Rule>): (r: Option<Rule>)
    ensures r.Some? <==> exists i :: 0 <= i < |rules| && rules[i].output.decisionRequired
  {
    if rules == [] then None
    else if rules[0].output.decisionRequired then Some(rules[0])
    else
      assert forall i :: 1 <= i < |rules| ==> rules[i] == rules[1..][i - 1];
      FirstDecision(rules[1..])
  }

  function Codes(rules: seq<Rule>): seq<string> {
    if rules == [] then [] else [rules[0].code] + Codes(rules[1..])
  }

  function BandOf(score: nat): Band {
    if score >= 850 then CRITICAL else if score >= 700 then HIGH else if score >= 450 then STANDARD else LOW
  }

  /** `assess_relevance`. */
  function AssessRelevance(values: Input): Result {
    if values.rules == [] then NoActiveRule
    else if exists i :: 0 <= i < |values.rules| && values.rules[i].version != values.rules[0].version then MixedVersions
    else
      var fired := FiredRules(values);
      var decision := FirstDecision(fired);
      var base := RelevanceScore(values);
      var score := if decision.Some? && base < 700 then 700 else base;
      Ok(Assessment(
        score, BandOf(score), Matched(values),
        Distinct(Gather(fired, Exposures)),
        Distinct(Gather(fired, Stakes)),
        decision.Some?,
        if decision.Some? then decision.value.output.decisionType else None,
        Distinct(Gather(fired, Owners)),
        Codes(fired), values.rules[0].version, Matched(values) == []))
  }

  // ---------------------------------------------------------------- monotonicity

  /** The same signal and rules with at least as much context: more objects, entities, region tags,
      operating markets or strategic priorities. */
  ghost predicate Enriches(a: Input, b: Input) {
    && a.domain == b.domain && a.eventType == b.eventType && a.urgency == b.urgency && a.rules == b.rules
    && a.mentions == b.mentions
    && a.entities <= b.entities && a.regions <= b.regions && a.markets <= b.markets && a.priorities <= b.priorities
    && multiset(a.objects) <= multiset(b.objects)
  }

  lemma MoreAreMatched(a: Input, b: Input)
    requires Enriches(a, b)
    ensures |Matched(a)| <= |Matched(b)|
    ensures forall o :: o in Matched(a) ==> o in Matched(b)
  {
    FilterMonotone(a.objects, b.objects, (o: ContextObject) => ObjectMatches(a, o),
                   (o: ContextObject) => ObjectMatches(b, o));
  }

  lemma MoreContextMatchesMore(a: Input, b: Input)
    requires Enriches(a, b)
    ensures |Matched(a)| <= |Matched(b)|
    ensures forall o :: o in Matched(a) ==> o in Matched(b)
    ensures Applicable(a) ==> Applicable(b)
    ensures EntityMatch(a, Matched(a)) ==> EntityMatch(b, Matched(b))
    ensures StrategicMatch(a) ==> StrategicMatch(b)
    ensures forall t :: HasType(Matched(a), t) ==> HasType(Matched(b), t)
  {
    hide Matched;
    MoreAreMatched(a, b);
    forall t | HasType(Matched(a), t) ensures HasType(Matched(b), t) {
      var i :| 0 <= i < |Matched(a)| && Matched(a)[i].objectType == t;
      assert Matched(a)[i] in Matched(b);
    }
    if EntityMatch(a, Matched(a)) {
      var i :| 0 <= i < |Matched(a)| && Matched(a)[i].entity.Some? && Matched(a)[i].entity.value in a.entities;
      assert Matched(a)[i] in Matched(b);
      var j :| 0 <= j < |Matched(b)| && Matched(b)[j] == Matched(a)[i];
    }
    if a.markets * a.regions != {} {
      var x :| x in a.markets * a.regions;
      assert x in b.markets * b.regions;
    }
    if Matched(a) != [] {
      assert Matched(a)[0] in Matched(b);
    }
  }

  lemma ScoreMonotone(m: nat, n: nat, urgency: nat, a: bool, b: bool, e: bool, f: bool, s: bool, t: bool)
    requires urgency <= 1000 && m <= n && (a ==> b) && (e ==> f) && (s ==> t)
    ensures DecimalScore(m, a, urgency, e, s) <= DecimalScore(n, b, urgency, f, t) <= 950
  {
    hide D.Round28;
    DecimalThirdsAreHarmless(m, a, urgency, e, s);
    DecimalThirdsAreHarmless(n, b, urgency, f, t);
    HalfUpMonotone(ExactSum(m, a, urgency, e, s), ExactSum(n, b, urgency, f, t), 300);
    HalfUpMonotone(ExactSum(n, b, urgency, f, t), 285_000, 300);
  }

  lemma HalfUpMonotone(x: nat, y: nat, d: nat)
    requires d > 0 && x <= y
    ensures HalfUp(x, d) <= HalfUp(y, d)
  {
    HalfUpIsNearest(x, d, HalfUp(x, d));
    HalfUpIsNearest(y, d, HalfUp(y, d));
    var p, q := HalfUp(x, d), HalfUp(y, d);
    assert 2 * p * d < 2 * q * d + 2 * d;
    D.PositiveFactor(2 * (q + 1 - p), d);
  }

  lemma FiredAreTheFiringRules(values: Input)
    ensures forall r :: r in FiredRules(values) <==> r in values.rules && RuleFires(values, r)
    ensures Sorted(FiredRules(values), (a: Rule, b: Rule) => a.priority <= b.priority)
  {
    hide RuleFires;
    var le := (a: Rule, b: Rule) => a.priority <= b.priority;
    StableSortSorts(values.rules, le);
    SortedHasSameElements(values.rules, le);
    FilterKeepsSorted(StableSort(values.rules, le), (r: Rule) => RuleFires(values, r), le);
  }

  lemma {:induction false} FilterKeepsSorted<T(!new)>(s: seq<T>, p: T -> bool, le: (T, T) -> bool)
    requires Sorted(s, le)
    ensures Sorted(Filter(s, p), le)
  {
    if s == [] {
    } else {
      FilterKeepsSorted(s[1..], p, le);
      forall x | x in Filter(s[1..], p) ensures le(s[0], x) {
        var i :| 0 <= i < |s| - 1 && s[1..][i] == x;
        assert s[i + 1] == x;
      }
    }
  }

  /** The decision in terms of the unordered rules. */
  lemma DecisionIff(values: Input)
    ensures FirstDecision(FiredRules(values)).Some? <==>
            exists r :: r in values.rules && RuleFires(values, r) && r.output.decisionRequired
  {
    FiredAreTheFiringRules(values);
    hide RuleFires, FiredRules;
    var fired := FiredRules(values);
    if FirstDecision(fired).Some? {
      var i :| 0 <= i < |fired| && fired[i].output.decisionRequired;
      assert fired[i] in fired;
    }
  }

  lemma RuleStillFires(a: Input, b: Input, r: Rule)
    requires Enriches(a, b) && RuleFires(a, r)
    ensures RuleFires(b, r)
  {
    MoreContextMatchesMore(a, b);
  }

  function BandRank(band: Band): nat {
    match band case LOW => 0 case STANDARD => 1 case HIGH => 2 case CRITICAL => 3
  }

  /** The parts of an assessment that decide its urgency. */
  lemma AssessmentShape(values: Input)
    ensures var x := AssessRelevance(values);
            && (x.NoActiveRule? <==> values.rules == [])
            && (x.MixedVersions? <==>
                exists i :: 0 <= i < |values.rules| && values.rules[i].version != values.rules[0].version)
            && (x.Ok? ==>
                  var base := RelevanceScore(values);
                  && x.assessment.decisionRequired == FirstDecision(FiredRules(values)).Some?
                  && x.assessment.score == (if x.assessment.decisionRequired && base < 700 then 700 else base)
                  && x.assessment.band == BandOf(x.assessment.score))
  {
    hide RelevanceScore, Matched;
  }

  /** Adding context never lowers the score or the band and never turns a required decision off; the
      two assessments fail for the same reason if at all. */
  lemma MoreContextNeverHurts(a: Input, b: Input)
    requires Enriches(a, b) && a.urgency <= 1000
    ensures var x, y := AssessRelevance(a), AssessRelevance(b);
            if !x.Ok? then y == x
            else y.Ok? && x.assessment.score <= y.assessment.score &&
                 BandRank(x.assessment.band) <= BandRank(y.assessment.band) &&
                 (x.assessment.decisionRequired ==> y.assessment.decisionRequired)
  {
    hide D.Round28, DecimalScore, ExactScore, AssessRelevance, FiredRules;
    AssessmentShape(a);
    AssessmentShape(b);
    MoreContextMatchesMore(a, b);
    ScoreMonotone(|Matched(a)|, |Matched(b)|, a.urgency, Applicable(a), Applicable(b),
                  EntityMatch(a, Matched(a)), EntityMatch(b, Matched(b)), StrategicMatch(a), StrategicMatch(b));
    DecisionIff(a);
    DecisionIff(b);
    if FirstDecision(FiredRules(a)).Some? {
      var r :| r in a.rules && RuleFires(a, r) && r.output.decisionRequired;
      RuleStillFires(a, b, r);
    }
  }

  /** A required decision always reads HIGH or CRITICAL; scores stay within one. */
  lemma DecisionIsUrgent(values: Input)
    requires values.urgency <= 1000 && AssessRelevance(values).Ok?
    ensures var x := AssessRelevance(values).assessment;
            x.score <= 1000 && (x.decisionRequired ==> x.score >= 700 && x.band in {HIGH, CRITICAL})
  {
    hide D.Round28, DecimalScore, ExactScore;
    var m, a, e, s := |Matched(values)|, Applicable(values), EntityMatch(values, Matched(values)),
        StrategicMatch(values);
    ScoreMonotone(m, m, values.urgency, a, a, e, e, s, s);
  }

  // ---------------------------------------------------------------- order independence

  /** The stored order of the rules does not matter when their priorities differ, and the order of the
      context objects only reorders the list of matched objects. */
  lemma OrderDoesNotMatter(a: Input, b: Input)
    requires a == b.(objects := a.objects, rules := a.rules)
    requires multiset(a.objects) == multiset(b.objects) && multiset(a.rules) == multiset(b.rules)
    requires forall r, s :: r in a.rules && s in a.rules && r.priority == s.priority ==> r == s
    requires a.urgency <= 1000
    ensures var x, y := AssessRelevance(a), AssessRelevance(b);
            x == y || (x.Ok? && y.Ok? && x.assessment == y.assessment.(matched := x.assessment.matched) &&
                       multiset(x.assessment.matched) == multiset(y.assessment.matched))
  {
    hide D.Round28, DecimalScore, ExactScore;
    SameMatches(a, b);
    SameVersions(a.rules, b.rules);
    SameFiredRules(a, b);
  }

  lemma SameMatches(a: Input, b: Input)
    requires a == b.(objects := a.objects, rules := a.rules) && multiset(a.objects) == multiset(b.objects)
    ensures multiset(Matched(a)) == multiset(Matched(b)) && |Matched(a)| == |Matched(b)|
    ensures Applicable(a) == Applicable(b) && EntityMatch(a, Matched(a)) == EntityMatch(b, Matched(b))
    ensures forall t :: HasType(Matched(a), t) <==> HasType(Matched(b), t)
    ensures StrategicMatch(a) == StrategicMatch(b)
    ensures RelevanceScore(a) == RelevanceScore(b)
  {
    hide D.Round28;
    var c := b.(rules := a.rules);
    MoreContextMatchesMore(a, c);
    MoreContextMatchesMore(c, a);
    FilterMonotone(a.objects, b.objects, (o: ContextObject) => ObjectMatches(a, o),
                   (o: ContextObject) => ObjectMatches(b, o));
    FilterMonotone(b.objects, a.objects, (o: ContextObject) => ObjectMatches(b, o),
                   (o: ContextObject) => ObjectMatches(a, o));
    assert forall o :: ObjectMatches(c, o) == ObjectMatches(b, o);
    SameFilter(b.objects, (o: ContextObject) => ObjectMatches(c, o), (o: ContextObject) => ObjectMatches(b, o));
  }

  lemma {:induction false} SameFilter<T(!new)>(s: seq<T>, p: T -> bool, q: T -> bool)
    requires forall x :: p(x) == q(x)
    ensures Filter(s, p) == Filter(s, q)
  {
    if s == [] {
    } else {
      SameFilter(s[1..], p, q);
    }
  }

  lemma SameVersions(r: seq<Rule>, s: seq<Rule>)
    requires multiset(r) == multiset(s)
    ensures r == [] <==> s == []
    ensures r != [] ==>
              ((exists i :: 0 <= i < |r| && r[i].version != r[0].version) <==>
               (exists i :: 0 <= i < |s| && s[i].version != s[0].version))
    ensures r != [] && (forall i :: 0 <= i < |r| ==> r[i].version == r[0].version) ==> r[0].version == s[0].version
  {
    assert |multiset(r)| == |multiset(s)|;
    forall x ensures x in r <==> x in s {
      assert x in r <==> x in multiset(r);
      assert x in s <==> x in multiset(s);
    }
    if r != [] {
      assert r[0] in s && s[0] in r;
      if i :| 0 <= i < |r| && r[i].version != r[0].version {
        assert r[i] in s;
      }
      if i :| 0 <= i < |s| && s[i].version != s[0].version {
        assert s[i] in r;
      }
    }
  }

  lemma RulesFireAlike(a: Input, b: Input)
    requires a == b.(objects := a.objects, rules := a.rules) && multiset(a.objects) == multiset(b.objects)
    ensures forall r :: RuleFires(a, r) == RuleFires(b, r)
  {
    hide RelevanceScore, Matched;
    SameMatches(a, b);
  }

  lemma SameFiredRules(a: Input, b: Input)
    requires a == b.(objects := a.objects, rules := a.rules)
    requires multiset(a.objects) == multiset(b.objects) && multiset(a.rules) == multiset(b.rules)
    requires forall r, s :: r in a.rules && s in a.rules && r.priority == s.priority ==> r == s
    ensures FiredRules(a) == FiredRules(b)
  {
    hide RuleFires, Matched, RelevanceScore;
    var le := (x: Rule, y: Rule) => x.priority <= y.priority;
    RulesFireAlike(a, b);
    SameSorting(a.rules, b.rules, le);
    SameFilter(StableSort(a.rules, le), (r: Rule) => RuleFires(a, r), (r: Rule) => RuleFires(b, r));
  }

  lemma SameSorting(r: seq<Rule>, s: seq<Rule>, le: (Rule, Rule) -> bool)
    requires TotalPreorder(le) && NoTies(r, le) && multiset(r) == multiset(s)
    ensures StableSort(r, le) == StableSort(s, le)
  {
    StableSortSorts(r, le);
    StableSortSorts(s, le);
    SortedHasSameElements(r, le);
    SortedIsUnique(StableSort(r, le), StableSort(s, le), le);
  }

  // ---------------------------------------------------------------- what the lists hold

  /** Some firing rule's output has `x` in the list `pick`. */
  ghost predicate FiredWith(values: Input, pick: RuleOutput -> seq<string>, x: string) {
    exists r :: r in values.rules && RuleFires(values, r) && x in pick(r.output)
  }

  lemma {:induction false} GatherHolds(rules: seq<Rule>, pick: RuleOutput -> seq<string>, x: string)
    ensures x in Gather(rules, pick) <==> exists r :: r in rules && x in pick(r.output)
  {
    if rules == [] {
    } else {
      GatherHolds(rules[1..], pick, x);
      assert forall r :: r in rules <==> r == rules[0] || r in rules[1..];
    }
  }

  lemma ListHolds(values: Input, pick: RuleOutput -> seq<string>)
    ensures forall x :: x in Distinct(Gather(FiredRules(values), pick)) <==> FiredWith(values, pick, x)
  {
    FiredAreTheFiringRules(values);
    var fired := FiredRules(values);
    forall x ensures x in Distinct(Gather(fired, pick)) <==> FiredWith(values, pick, x) {
      GatherHolds(fired, pick, x);
    }
  }

  lemma {:induction false} FirstDecisionIsFirst(rules: seq<Rule>, le: (Rule, Rule) -> bool)
    requires Sorted(rules, le) && FirstDecision(rules).Some? && forall r :: le(r, r)
    ensures var r := FirstDecision(rules).value;
            r in rules && r.output.decisionRequired && forall s :: s in rules && s.output.decisionRequired ==> le(r, s)
  {
    if !rules[0].output.decisionRequired {
      FirstDecisionIsFirst(rules[1..], le);
    }
  }

  function Exposures(o: RuleOutput): seq<string> { o.exposures }
  function Stakes(o: RuleOutput): seq<string> { o.stakes }
  function Owners(o: RuleOutput): seq<string> { o.owners }

  /** Exposures, stakes and owner roles are each exactly what the firing rules say, without
      repetition, and the decision is that of a firing decision rule of least priority number. */
  lemma AssessmentLists(values: Input)
    requires AssessRelevance(values).Ok?
    ensures var x := AssessRelevance(values).assessment;
            && Unique(x.exposures) && Unique(x.stakes) && Unique(x.owners)
            && (forall v :: v in x.exposures <==> FiredWith(values, Exposures, v))
            && (forall v :: v in x.stakes <==> FiredWith(values, Stakes, v))
            && (forall v :: v in x.owners <==> FiredWith(values, Owners, v))
            && (x.decisionRequired ==> exists r :: IsDecidingRule(values, r) && x.decisionType == r.output.decisionType)
  {
    hide RelevanceScore, Matched;
    ListHolds(values, Exposures);
    ListHolds(values, Stakes);
    ListHolds(values, Owners);
    FiredAreTheFiringRules(values);
    var fired := FiredRules(values);
    if FirstDecision(fired).Some? {
      FirstDecisionIsFirst(fired, (a: Rule, b: Rule) => a.priority <= b.priority);
      assert IsDecidingRule(values, FirstDecision(fired).value);
    }
  }

  ghost predicate IsDecidingRule(values: Input, r: Rule) {
    && r in values.rules && RuleFires(values, r) && r.output.decisionRequired
    && forall s :: s in values.rules && RuleFires(values, s) && s.output.decisionRequired ==> r.priority <= s.priority
  }
}
